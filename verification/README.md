# vpnmgr, verified

A Dafny model of vpnmgr: a root daemon that ranks the WireGuard servers of a provider, brings a tunnel up on
one of them and moves it between servers that all share one peer key. `dafny verify dfyconfig.toml` checks the
whole project.

| module | models |
|---|---|
| `Text`, `Address`, `Key` | string handling, addresses and prefixes with their text, base64 keys |
| `WgConf`, `ConfMeaning`, `Render`, `Importer` | the `.conf` parser and printer: as functions, as the source writes them (sections filled line by line, a growing buffer), and what a text means line by line |
| `Prefix` | shift-and-mask prefix tests, the private ranges kept off the tunnel, default routes in two halves |
| `Sorting`, `Settings`, `Servers`, `Score`, `ScoreLaws`, `Filter`, `Tuner`, `Scheduler` | the stable sort, the settings, the server list, ranking, filters, the tuning decision, and when the next pass is due |
| `DaemonModel`, `DaemonRequests`, `DaemonTheorems`, `DaemonChoice`, `DaemonRuns`, `DaemonWitnesses`, `DaemonState` | the daemon: what each request makes of its state, what it comes to for the user, what holds in every reachable state and over whole runs, inputs on which it surprises, and the object with mutable fields that does it |
| `DaemonOnKernel` | the daemon and the interface together: where the kernel sends when the daemon records a connection |
| `Roaming` | endpoint roaming on a shared key: every interleaving of sends, handshakes, deliveries, switches and failures |
| `Firewall`, `Bypass`, `Policy`, `Machine`, `LinuxTunnel` | the kill switch, bypass routes, policy rules, and the Linux tunnel run on a machine where any call can fail |
| `WindowsFirewall` | the Windows kill switch, its record file, rollbacks and crashes between statements |
| `Probe` | one probe and its median, probes sharing permits under every schedule, a sweep over every entry of every server |

## How it is modelled

- The network, the clock, downloads and probe answers are arbitrary inputs. In `DaemonModel` an event carries
  everything the world answers while it is handled; a fetch, a probe, a move or a measurement can each fail.
- The daemon's state remembers every call it made on its tunnel, with its outcome; this history decides nothing. What
  such a call may make of the interface is `Roaming.Obeys`, which the Linux tunnel's `Up` and `Retarget` guarantee.
- `DaemonState.State` has the daemon's fields and loops; each method is proved to do to the fields what a function
  of `DaemonModel` says, and the theorems are about those functions.
- `Machine.Machine` logs every state it passes through, counts every call whose error is returned, and notes every
  cleanup that failed and every bypass route refused, so that a contract can say what failed during its own call, and
  that the call worked exactly when nothing did. So "at every step, whichever call fails" is a statement
  about the log. A call that fails may have done part of its work; creating an interface, adding a route and
  deleting one are single kernel requests and are done or not. Packets are sent and delivered wherever the tunnel
  yields, which is before and after the calls that touch the peer.
- A rotation binds a port nobody has seen. Removing the interface takes our policy rules with it. Policy rules added
  last come first, and deleting a rule by its attributes takes the first copy.
- Floats are reals. `ln` is any function that is increasing, has `ln(1) = 0` and turns products into sums. The
  text form of an IPv6 address is any faithful codec over its alphabet (section 4 of RFC 5952); dotted quads,
  decimal numbers and base64 (section 4 of RFC 4648) are written out. The prefix a bypass destination spells is a
  parameter `denote`.

## Where the obvious claim is false

Each of these has its exact condition and an input on which it fails.

- `connect_best` reports the first of its shortlist when nothing could be measured, while the tunnel is on the last
  one: `DaemonChoice.ReportedIsConnected`, `DaemonWitnesses.ReportedElsewhere`.
- A one-country sweep stores a ranking the configured whitelist may reject: `DaemonRuns.CountryRankingAllowed`,
  `DaemonWitnesses.RankingNotAllowed`. So the invariant is about the pending proposal, not about the cached ranking.
- The kill switch turned on at run time drops what the bypass routes exempt: `Firewall.RuntimeEngageForgetsBypass`,
  `Firewall.BypassedThenDropped`.
- A move away from a slow server need not gain anything, when the pass did not rank that server or the threshold is
  zero: `Tuner.GainExactly`. With two servers, one nearer and one with the better score, a tuner can go back and forth
  for ever while nothing changes, if and only if the threshold is below one: `Tuner.BackAndForth`,
  `Tuner.MixedRunsGoOn`.
- Pruning deletes the last copy of a policy rule when some other rule's text is taken for it:
  `Policy.LastCopySurvives`, `Policy.LongerTableName`.
- Pruning is not harmless when somebody else's override, identical to ours, lies below ours: it deletes ours, and
  bypass routes lose to the tunnel. `Policy.TidyExactly`, `Policy.ForeignOverride`.
- A Windows release without a record sets Allow whatever was there before, and an engage that fails before the record
  is written ends in one: `WindowsFirewall.NextReleaseRestores`, `WindowsFirewall.FailedEngageSpoils`. A release that
  skips an entry and still deletes the record loses that entry: `WindowsFirewall.ReleaseKeepsExactly`,
  `WindowsFirewall.SkippedEntryIsLost`. What there is to go back to after any run is `WindowsFirewall.Baseline`.
- From a fresh start the scheduler never runs a pass on its own: `Scheduler.OnlyWhenAsked`.

Once, code and documentation disagree: the documentation of `connect_best` says a candidate is kept when it delivers
`min_mbps`; the code compares with the acceptance target, of which `min_mbps` is only the floor. The model follows
the code.

## Model

| member | source | states |
|---|---|---|
| `Address.CidrRoundTrip` | crates/vpnmgr-core/src/wgconf.rs:36-71 | a prefix, IPv4 or IPv6, parses back from its own text |
| `Key.KeyRoundTrip` | crates/vpnmgr-core/src/key.rs:23-40 | 32 bytes survive base64, and the text needs no trimming and holds nothing a `.conf` line gives meaning to |
| `Key.KeyTextIsUnique` | crates/vpnmgr-core/src/key.rs:23-40 | a text reads as a key if and only if, trimmed, it is that key's own text: no other padding, no stray bits |
| `WgConf.ParsedIsWellFormed` | crates/vpnmgr-core/src/wgconf.rs:128-253 | whatever text parses, the config has keys of the right length, at least one address and allowed prefix, prefixes in range, clean search domains that are no addresses |
| `ConfMeaning.ParsedExactly` | crates/vpnmgr-core/src/wgconf.rs:128-312 | a text parses, and as this config, if and only if its lines are blanks, the two headers and settings below one, with one `[Peer]`, and each field is what the lines of its key in its section say, by name in any case: the first line for keys and numbers, every item of every line for lists, addresses apart from search domains, and the default AllowedIPs when there is none |
| `ConfMeaning.LaterLineIgnored` | crates/vpnmgr-core/src/wgconf.rs:271-276 | a line put in after an earlier one with the same key in the same section changes nothing about a text that parses, for `PrivateKey`, `MTU`, `PublicKey`, `PresharedKey` and `PersistentKeepalive` |
| `ConfMeaning.SettingReads` | crates/vpnmgr-core/src/wgconf.rs:139-175 | a setting is read as its key and value whatever white space is around them and whatever comment follows; only the first equals sign counts |
| `ConfMeaning.HeaderReads` | crates/vpnmgr-core/src/wgconf.rs:139-161 | a header is read as its name in lower case whatever white space is around and inside the brackets and whatever comment follows |
| `Render.RoundTripExactly` | crates/vpnmgr-core/src/render.rs:19-53 | parsing the rendering of a config at any endpoint gives the config back if and only if it is well-formed |
| `Render.ImportRenderImport` | crates/vpnmgr-core/src/render.rs:19-53 | for every text that parses and every endpoint, parse-render-parse equals parse; what such a text means, first lines of scalars and all lines of lists, is `ConfMeaning.ParsedExactly` |
| `Render.OnlyTheEndpointDiffers` | crates/vpnmgr-core/src/render.rs:52-58 | renderings for two servers agree on every line but `Endpoint` |
| `Importer.ParseText` | crates/vpnmgr-core/src/wgconf.rs:128-253 | the parser with its mutable sections computes `WgConf.Parse`, errors and their line numbers included; what that is on the lines of the text is `ConfMeaning.ParsedExactly` |
| `Importer.Section.Set` | crates/vpnmgr-core/src/wgconf.rs:265-269 | appends the lower-cased key with its value and line, and nothing else |
| `Importer.CollectList` | crates/vpnmgr-core/src/wgconf.rs:288-312 | the loop over repeated keys and comma-separated items is the specified list, or the first error |
| `Importer.ToConfText` | crates/vpnmgr-core/src/render.rs:19-53 | the buffer the printer builds is `Render.ToConf`, to which the round trips apply |
| `Prefix.ContainsIsMembership` | crates/vpnmgr-tunnel/src/bypass.rs:189-215 | for every text and address, shift-and-mask says yes exactly when the text reads as a block whose interval holds the address |
| `Prefix.MaskedIsInterval` | crates/vpnmgr-tunnel/src/bypass.rs:196-212 | for every width and length, equal masked words is membership in the block's address interval |
| `Prefix.LanRangesExactly` | crates/vpnmgr-tunnel/src/bypass.rs:166-184 | the ranges kept are exactly the private ones (section 3 of RFC 1918, section 3.1 of RFC 4193) that hold no address of the tunnel |
| `Prefix.SplitKeepsMeaning` | crates/vpnmgr-tunnel/src/windows.rs:414-445 | every address is covered after the split exactly when it was before |
| `Prefix.NoDefaultRemains` | crates/vpnmgr-tunnel/src/windows.rs:414-445 | no default route of an unspecified address is left |
| `Prefix.OthersKeepTheirPlace` | crates/vpnmgr-tunnel/src/windows.rs:440-443 | every other entry stays, in its order |
| `Prefix.SplitDefaultRoutes` | crates/vpnmgr-tunnel/src/windows.rs:414-445 | the loop computes the list those three laws are about |
| `Settings.AcceptanceBounds` | crates/vpnmgr-core/src/config.rs:501-524 | under validated settings the acceptance bar lies between the floor and the target (or the floor), and the headroom target is at least one |
| `Settings.BarExactly` | crates/vpnmgr-core/src/config.rs:501-524 | the bar is the larger of the floor and the accepted share of the target, the capacity asked for the larger of one and the target with its margin; the target is the setting, else nine tenths of a positive measurement, else 500 |
| `Score.RankIsSortedPermutation` | crates/vpnmgr-core/src/score.rs:118-189 | a ranking is in rank order and holds each reachable input once, scored against the fastest |
| `Score.ScoresBetween` | crates/vpnmgr-core/src/score.rs:118-189 | under validated weights every score lies between 0 and 1 |
| `Score.RankIgnoresInputOrder` | crates/vpnmgr-core/src/score.rs:118-189 | with distinct names the ranking does not depend on the order of its input |
| `Score.SlowerCandidatesChangeNothing` | crates/vpnmgr-core/src/score.rs:118-189 | adding any candidates no faster than the fastest leaves every score and the relative order of the others as they were |
| `Score.EqualRatiosCostEqually` | crates/vpnmgr-core/src/score.rs:141-151 | the same latency ratio costs the same score anywhere on the scale |
| `Score.ScaleEnds` | crates/vpnmgr-core/src/score.rs:141-165 | the fastest scores one, twenty times the fastest zero, the headroom target one and no headroom zero |
| `Score.OnlyProportionsMatter` | crates/vpnmgr-core/src/score.rs:133-170 | scaling all weights changes no score |
| `Score.RankServers` | crates/vpnmgr-core/src/score.rs:118-189 | the loops and the in-place sort compute the ranking that the laws above and those of `ScoreLaws` are about |
| `ScoreLaws.LessLoadedFirst` | crates/vpnmgr-core/src/score.rs:118-189 | among any candidates, of two servers alike but for load the less loaded one is ranked first when load carries weight and it is below full load |
| `ScoreLaws.FasterFirst` | crates/vpnmgr-core/src/score.rs:118-189 | of two servers alike but for the round trip the faster one is ranked first, whatever the weights |
| `ScoreLaws.FasterScoresHigher` | crates/vpnmgr-core/src/score.rs:118-189 | and scores higher when the round trip carries weight and the faster is within twenty times the fastest |
| `ScoreLaws.RoomierFirst` | crates/vpnmgr-core/src/score.rs:118-189 | of two servers alike but for how much of the same capacity is used the less used one is ranked first, when capacity carries weight and the other has less to spare than the target |
| `ScoreLaws.WeightlessChangesNothing` | crates/vpnmgr-core/src/score.rs:118-189 | servers that differ only in what carries no weight score the same |
| `Filter.EveryServerIsJudged` | crates/vpnmgr-core/src/filter.rs:136-156 | every server is accepted or refused, once, and each refusal carries the reason it was judged by |
| `Filter.VerdictExactly` | crates/vpnmgr-core/src/filter.rs:87-165 | a server is accepted, or refused with each of the six reasons, exactly when its health, its load and the four lists as configured say so |
| `Filter.SpellingDoesNotMatter` | crates/vpnmgr-core/src/filter.rs:87-165 | case and surrounding space change no verdict, in any of the four lists or in the server |
| `Filter.ReplacedWhitelist` | crates/vpnmgrd/src/state.rs:283-285 | what a one-country filter accepts passes the configured filters exactly when their whitelist has that country or is empty |
| `Filter.Apply` | crates/vpnmgr-core/src/filter.rs:136-156 | the loop splits the list into the accepted and the refused of the specification, in order |
| `Tuner.GainExactly` | crates/vpnmgrd/src/tuner.rs:241-286 | every pass that moves away from a slow server moves to a higher score, if and only if it ranked that server and the improvement threshold is not zero |
| `Tuner.GainReaches` | crates/vpnmgrd/src/tuner.rs:252-286 | the gain reaches the threshold exactly when the score is higher by that share of the score in use, or, for a server not ranked, the timing shorter by that share of its own |
| `Tuner.RunsNeverRevisit` | crates/vpnmgrd/src/tuner.rs:241-286 | with a fleet that holds still and a positive threshold, a run of such moves never returns to a server and is no longer than the list, if every pass ranked the server in use or if none did |
| `Tuner.MoveProgresses` | crates/vpnmgrd/src/tuner.rs:252-268 | a move from a ranked server climbs in score, one from an unranked server comes closer |
| `Tuner.BackAndForth` | crates/vpnmgrd/src/tuner.rs:252-268 | for every valid threshold: some two servers can be left for each other by a pass that ranked the server in use and one that did not, if and only if the threshold is below one |
| `Tuner.MixedRunsGoOn` | crates/vpnmgrd/src/tuner.rs:241-286 | some fleet that holds still has runs of every length over two servers if and only if the threshold is below one |
| `Scheduler.OnlyWhenAsked` | crates/vpnmgrd/src/main.rs:395-420 | over any wake-ups, a pass is on record exactly when one was before or somebody asked for one |
| `Scheduler.SleptLongEnough` | crates/vpnmgrd/src/state.rs:1036-1044 | after one, the wake-up at the end of the sleep runs the next, unless a pass less than an interval old was recorded meanwhile |
| `DaemonTheorems.EveryReachableState` | crates/vpnmgrd/src/main.rs:289-388 | after any requests, errors, reloads and tuning passes: a tunnel exists exactly when a connection is recorded and points at it unless a switch failed, the pending proposal passes the filters now loaded, the cached ranking is in rank order and agrees with the rates on record |
| `DaemonTheorems.StepKeeps` | crates/vpnmgrd/src/main.rs:289-388 | each request keeps that invariant, whatever the network answers |
| `DaemonTheorems.ReloadPrunes` | crates/vpnmgrd/src/state.rs:163-207 | a reload that fails changes nothing; one that succeeds drops the server list, leaves exactly the old subsequence of the ranking the new rules accept, and the proposal exactly when they accept it |
| `DaemonRequests.ReloadDropsExactly` | crates/vpnmgrd/src/state.rs:163-207 | what a reload leaves of the ranking and the proposal is exactly what the new lists and load limit permit, by name, country and load |
| `DaemonTheorems.SweepResult` | crates/vpnmgrd/src/state.rs:279-339 | a sweep that fails keeps the old ranking; one that succeeds stores candidates of the filters used, in order, with the rates on record |
| `DaemonRequests.SweepExactly` | crates/vpnmgrd/src/state.rs:209-339 | a sweep works on the list cached at most five minutes ago, else a fresh one, else the stale one; it ranks exactly the accepted servers that answered, each with its own timing, entry, endpoint, spare capacity and rate on record, scored with the configured weights and the capacity the line calls for, and otherwise says which of three things went wrong |
| `DaemonRequests.SwitchGoesWhereAsked` | crates/vpnmgrd/src/state.rs:570-633 | a switch that works is to the first server of that name in the list used, shown with the answer it gave, and that is what is on record and where the tunnel was sent; a failed one keeps the record; the name is unknown exactly when no server has it |
| `DaemonRequests.ConnectGoesWhereAsked` | crates/vpnmgrd/src/state.rs:342-376 | the same of a connect by name, refused exactly while one is recorded |
| `DaemonRequests.ConnectsToTheHead` | crates/vpnmgrd/src/state.rs:419-467 | an automatic connect that does not verify goes to the first server of the ranking it swept |
| `DaemonRequests.DisconnectForgets` | crates/vpnmgrd/src/state.rs:635-645 | a disconnect forgets the connection and the tunnel whether or not the teardown worked, and nothing else |
| `DaemonRequests.SpeedtestRecords` | crates/vpnmgrd/src/state.rs:835-853 | a sample is recorded for the server in use, and in its ranking entries, and for no other; with none it is the rate of the line |
| `DaemonRequests.BaselineRestores` | crates/vpnmgrd/src/state.rs:881-917 | a baseline puts the tunnel back on the server in use before, whether or not the line could be measured, exactly when that server is listed, answers and the tunnel comes up; the line counts only when both worked |
| `DaemonRequests.ApprovalGoesToTheProposed` | crates/vpnmgrd/src/state.rs:1176-1181 | an approval is a switch to the server that was pending, and the proposal is spent whatever comes of it |
| `DaemonRequests.PassExactly` | crates/vpnmgrd/src/state.rs:1055-1135 | a pass leaves a server alone that answers in time; otherwise it sweeps, and points at the best of that ranking exactly when the server in use was silent or the best is another worth the threshold, moving, asking, or only saying so as the policy has it, and not asking about a slow server declined within four hours |
| `DaemonRequests.TuneActs` | crates/vpnmgrd/src/state.rs:1121-1165 | an automatic move is a switch to the server decided on; a proposal is kept exactly as made; any other outcome drops the earlier one and leaves the tunnel alone |
| `DaemonRequests.DismissRemembers` | crates/vpnmgrd/src/state.rs:1184-1202 | a dismissal drops the proposal and counts for four hours against leaving the server stayed on |
| `DaemonChoice.VerifyChooses` | crates/vpnmgrd/src/state.rs:476-566 | from any point of the loop: the server returned is the first to reach the bar, else the earliest fastest measured |
| `DaemonChoice.ConnectBestChooses` | crates/vpnmgrd/src/state.rs:419-567 | a connect that verifies works exactly when every move it comes to make does, and then returns the server the tunnel is on, the first to reach the acceptance bar, or when none does the earliest maximum of all measured; with nothing measured, the first while on the last; every sample taken is on record whether it works or not |
| `DaemonChoice.VerifyRecords` | crates/vpnmgrd/src/state.rs:476-530 | from any point of the loop, however it ends: the samples of the candidates tried and measured are on record, and nothing else there changes |
| `DaemonChoice.ReportedIsConnected` | crates/vpnmgrd/src/state.rs:554-565 | the server reported is the one connected if and only if something was measured or there was one candidate |
| `DaemonRuns.RankingNamesDistinct` | crates/vpnmgrd/src/state.rs:279-339 | as long as every fetched list names each server once, so does the cached ranking, over any run |
| `DaemonRuns.OnlyDeliberateMoves` | crates/vpnmgrd/src/state.rs:1072-1135 | while the policy is not `auto`, nothing but connect, disconnect, switch, approve and baseline changes the connection or makes any call on the tunnel |
| `DaemonRuns.NoNaggingAfterDismissal` | crates/vpnmgrd/src/state.rs:1184-1202 | over any run in which the user, asked to leave a server, dismisses the proposal: no pass in the four hours after asks again to leave that server for slowness, whatever happens in between short of a switch, an approval, another dismissal or the policy turning `auto` |
| `DaemonRuns.OldRefusalsLapse` | crates/vpnmgrd/src/state.rs:1184-1189 | a dismissal four hours old, or of leaving another server, changes no decision of a pass |
| `DaemonRuns.SilentIsStillProposed` | crates/vpnmgrd/src/state.rs:1072-1165 | a silent server is proposed away from even then, to the best of the new ranking |
| `DaemonRuns.CountryRankingAllowed` | crates/vpnmgrd/src/state.rs:279-339 | a one-country ranking passes the configured filters if and only if their whitelist is empty or has that country; for a blank country, which lifts the whitelist, if and only if that holds of every server ranked |
| `DaemonWitnesses.RankingNotAllowed` | crates/vpnmgrd/src/state.rs:283-285 | with one country whitelisted, a sweep of another stores a ranking the filters reject |
| `DaemonWitnesses.ReportedElsewhere` | crates/vpnmgrd/src/state.rs:554-565 | two candidates that come up and carry nothing: the first is reported, the second connected |
| `DaemonState.State.HandleEvent` | crates/vpnmgrd/src/main.rs:289-388 | every request does to the fields what the model's step says, and keeps the invariant |
| `DaemonOnKernel.RecordedIsReached` | crates/vpnmgrd/src/state.rs:363-388 | over every run of requests, answers, failures and packets: while a connection is recorded some server the tunnel was sent to holds the interface; unless the last switch failed, the kernel's peer endpoint is the one recorded and only that server can reach the interface |
| `DaemonOnKernel.KnownHolds` | crates/vpnmgrd/src/state.rs:363-388 | the same at every point within a request: after any calls on the tunnel, made in an order the daemon makes them |
| `DaemonState.State.LoadAgain` | crates/vpnmgrd/src/state.rs:163-173 | reload on the fields is the modelled reload, cached results pruned |
| `DaemonState.State.SweepServers` | crates/vpnmgrd/src/state.rs:279-339 | a sweep on the fields is the modelled sweep |
| `DaemonState.State.NoteThroughput` | crates/vpnmgrd/src/state.rs:996-1007 | the in-place update of the ranking and the measurement map is the modelled one |
| `DaemonState.State.VerifyCandidates` | crates/vpnmgrd/src/state.rs:476-566 | the loop with its mutable best equals the recursion the theorems are about, failures included |
| `DaemonState.State.ConnectRequest` | crates/vpnmgrd/src/state.rs:342-361 | connect on the fields is the modelled connect, of which `DaemonRequests.ConnectGoesWhereAsked`, `DaemonRequests.ConnectsToTheHead` and `DaemonChoice.ConnectBestChooses` say where it goes |
| `DaemonState.State.SwitchRequest` | crates/vpnmgrd/src/state.rs:607-633 | switch on the fields is the modelled switch, of which `DaemonRequests.SwitchGoesWhereAsked` says where it goes; a failed one leaves the endpoint unknown |
| `DaemonState.State.BaselineRequest` | crates/vpnmgrd/src/state.rs:881-911 | baseline on the fields is the modelled one, of which `DaemonRequests.BaselineRestores` says what it restores, whatever fails |
| `DaemonState.State.TuneRequest` | crates/vpnmgrd/src/state.rs:1072-1165 | a tuning pass on the fields is the modelled pass, move and record included, of which `DaemonRequests.PassExactly` and `DaemonRequests.TuneActs` say what it decides and does |
| `DaemonState.State.DismissRequest` | crates/vpnmgrd/src/state.rs:1192-1202 | a dismissal on the fields is the modelled one, of which `DaemonRequests.DismissRemembers` says what it remembers |
| `Roaming.EndpointStays` | crates/vpnmgr-tunnel/src/linux.rs:339-407 | over every interleaving of switches, failures at any call, sends, fresh handshakes and deliveries, whenever no switch is in hand the peer's endpoint is the target of the last one |
| `Roaming.RotationHoldsForAll` | crates/vpnmgr-tunnel/src/linux.rs:352-365 | with no peer and a port nobody knows, the interface is safe for any next server |
| `Roaming.WithoutRotation` | crates/vpnmgr-tunnel/src/linux.rs:352-358 | without the rotation a server that knows the port can take the endpoint back by a fresh handshake |
| `Roaming.WithoutRemoval` | crates/vpnmgr-tunnel/src/linux.rs:347-350 | without the removal the server left learns the fresh port and can take the endpoint back |
| `Firewall.ScriptPermits` | crates/vpnmgr-tunnel/src/killswitch.rs:93-130 | a packet leaves if and only if it is on loopback or the tunnel, marked, to a link-local, multicast or broadcast address, to UDP port 67 or 68, to a private address when allowed, or to a bypass destination |
| `Firewall.RuntimeEngageForgetsBypass` | crates/vpnmgrd/src/state.rs:954-960 | engaged at run time, the rules let a bypassed packet out only if another exemption does |
| `Firewall.BypassedThenDropped` | crates/vpnmgrd/src/state.rs:954-960 | a public address that the connect exempts and the run-time rules drop |
| `Firewall.BuildScript` | crates/vpnmgr-tunnel/src/killswitch.rs:93-130 | the buffer built rule by rule is the chain that is judged above |
| `Bypass.OtherVpnsDistinct` | crates/vpnmgr-tunnel/src/bypass.rs:378-429 | each destination of another VPN is mirrored once, by its own device and never ours |
| `Bypass.MirrorExactly` | crates/vpnmgr-tunnel/src/bypass.rs:378-433 | a line of the tables contributes the route to its first word by the last device it names, exactly when that word is a destination other than default, multicast, local, broadcast, unreachable or prohibit, not link-local or multicast, and the device is another VPN's and not ours |
| `Bypass.OtherVpnsExactly` | crates/vpnmgr-tunnel/src/bypass.rs:378-429 | collected is exactly the first route of another VPN in the tables to each destination |
| `Bypass.PlanShape` | crates/vpnmgr-tunnel/src/bypass.rs:229-270 | for each destination the plan has at most one device route followed by at most one gateway route |
| `Bypass.PlanHoldsExactly` | crates/vpnmgr-tunnel/src/bypass.rs:229-343 | the plan holds the routes of other VPNs and, for each destination wanted that has a default route of its own family, the route through the first of those, and nothing else |
| `Bypass.PlanHasNoDuplicates` | crates/vpnmgr-tunnel/src/bypass.rs:267-270 | no route is planned twice, although the sort looks at destinations only and the dedup at neighbours |
| `Bypass.MakePlan` | crates/vpnmgr-tunnel/src/bypass.rs:229-270 | the loops, the sort and the dedup compute the plan |
| `Bypass.InstallAdds` | crates/vpnmgr-tunnel/src/bypass.rs:276-295 | what is installed is new to the table, with pairwise distinct prefixes, and every other route is as it was |
| `Bypass.OtherVpnWins` | crates/vpnmgr-tunnel/src/bypass.rs:229-295 | another VPN's route wins over ours whenever the kernel accepts it, if the main table does not route that prefix yet and the plan spells it one way |
| `Bypass.InstallWithdraw` | crates/vpnmgr-tunnel/src/bypass.rs:276-307 | installing and withdrawing restores the main table if and only if every deletion succeeds, and loses or changes no route of before whatever fails |
| `Policy.LastCopySurvives` | crates/vpnmgr-tunnel/src/linux.rs:107-128 | pruning leaves a copy of a rule if and only if no other rule's text is taken for it, and then exactly one |
| `Policy.TidyExactly` | crates/vpnmgr-tunnel/src/linux.rs:89-104 | with nothing taken for our rules one of each is left, the override first if and only if the last of our rules was the lookup, and other rules stay in place |
| `Policy.PruningKeepsLast` | crates/vpnmgr-tunnel/src/linux.rs:107-128 | deleting any number of copies short of the last, which is all pruning deletes when nothing else is taken for our rules, leaves the last of our rules what it was |
| `Policy.ForeignOverride` | crates/vpnmgr-tunnel/src/linux.rs:84-104 | connecting above somebody else's identical override: traffic with a specific main route goes there before pruning and into the tunnel after it |
| `Policy.LongerTableName` | crates/vpnmgr-tunnel/src/linux.rs:95-97 | a rule for a table whose name starts like ours costs the lookup its last copy |
| `Policy.IntoTunnel` | crates/vpnmgr-tunnel/src/linux.rs:370-376 | with the lookup installed and no other program's rule claiming the packet, unmarked traffic without a specific main route goes to the tunnel if and only if its table is filled; flushed, it falls through to the physical default route |
| `Policy.MarkedStaysOut` | crates/vpnmgr-tunnel/src/linux.rs:306-310 | where no other program's rule claims them, the tunnel's own packets never enter the tunnel |
| `Policy.SpecificWins` | crates/vpnmgr-tunnel/src/bypass.rs:9-12 | with the override first and no other program's rule claiming the packet, a specific route in the main table beats the tunnel |
| `Machine.FreshPort` | crates/vpnmgr-tunnel/src/linux.rs:142-143 | there is always a port nobody has seen, so the assumption on rotation can be met |
| `LinuxTunnel.LinuxTunnel.PruneRule` | crates/vpnmgr-tunnel/src/linux.rs:107-128 | the loop ends and touches no other rule; unless another rule is taken for ours it leaves no moment without a copy; and when every call of this pruning works it deletes exactly what `Policy.Prune` says |
| `LinuxTunnel.LinuxTunnel.Retarget` | crates/vpnmgr-tunnel/src/linux.rs:339-407 | it works exactly when none of its calls returned an error; at every step, whichever call fails: firewall, main table and interface are untouched, only the server left or the server wanted can reach the interface, and unless another rule is taken for ours no rule loses its last copy; on success the endpoint is the server wanted, unmarked traffic has its way into the tunnel again, and with every deletion of this switch done there is one of each rule a family, the override first exactly where `Policy.TidyExactly` says |
| `LinuxTunnel.LinuxTunnel.InstallBypass` | crates/vpnmgr-tunnel/src/bypass.rs:276-295 | the loop installs what `Bypass.Install` says for some answers of the kernel, and never changes a route of before |
| `LinuxTunnel.LinuxTunnel.RemoveBypass` | crates/vpnmgr-tunnel/src/bypass.rs:298-307 | withdraws exactly what was installed, where the kernel obliges, and forgets it |
| `LinuxTunnel.LinuxTunnel.Up` | crates/vpnmgr-tunnel/src/linux.rs:199-243 | it works exactly when the interface name will do and none of its calls returned an error, and for a bad name touches nothing; up to the engaging step only bypass routes change, each route of the plan installed unless its prefix was routed or the kernel refused it; from there to the releasing step, whichever call fails, the firewall is the script exempting exactly the destinations just installed from the plan, so no other packet leaves; a failed bring-up withdraws the routes, then releases; on success the tunnel is up on the server asked for, with its resolver |
| `LinuxTunnel.Validate` | crates/vpnmgr-tunnel/src/lib.rs:139-161 | the loop accepts exactly the names of 1 to 15 letters, digits, hyphens and underscores |
| `LinuxTunnel.LinuxTunnel.BringUp` | crates/vpnmgr-tunnel/src/linux.rs:282-337 | it works exactly when none of its calls returned an error; whichever call fails, firewall and main table are untouched and `created` says whether the interface is ours |
| `LinuxTunnel.LinuxTunnel.Down` | crates/vpnmgr-tunnel/src/linux.rs:249-270 | it works exactly when none of its calls returned an error; the firewall stays up to the releasing step, which is reached whatever fails before |
| `LinuxTunnel.LinuxTunnel.Drop` | crates/vpnmgr-tunnel/src/linux.rs:436-464 | the firewall is as before up to the releasing step; removes the interface only if it is ours, releases, and withdraws the bypass routes |
| `LinuxTunnel.Establish` | crates/vpnmgrd/src/state.rs:363-375 | a connect works exactly when the name will do and no call returned an error; one that fails at any step leaves no interface of ours, no bypass route and no kill switch, except what a cleanup call that failed during this connect names; with none failed the main table is exactly as before |
| `LinuxTunnel.Lifetime` | crates/vpnmgr-tunnel/src/linux.rs:199-270 | from bring-up through any number of switches, failed ones included, to teardown: at every step from the engaging to the releasing one the firewall is the script exempting exactly the destinations installed from the plan, so no other packet leaves, and no main route of before changes; each bring-up or switch worked exactly when none of its calls returned an error (the bring-up: and the name would do), and then ended on its own server with the traffic captured, and if all its deletions worked with the override first wherever the last of our rules was the lookup before the tunnel |
| `WindowsFirewall.EveryRun` | crates/vpnmgr-tunnel/src/killswitch_windows.rs:113-251 | over every run of engages, releases, failures, rollbacks and crashes between statements: the record holds the actions to go back to, or there is none and they are in force; what they are follows from the releases and rollbacks so far |
| `WindowsFirewall.NextReleaseRestores` | crates/vpnmgr-tunnel/src/killswitch_windows.rs:113-251 | from every reachable state a completed release leaves no rule and no record, and puts the actions of before back if and only if, with a record, they are what there is to go back to, and without one they were all Allow |
| `WindowsFirewall.HonestRun` | crates/vpnmgr-tunnel/src/killswitch_windows.rs:224-251 | if no release or rollback deletes a record it has not replayed in full, what there is to go back to is the actions of before as long as none found no record, and Allow everywhere once one did |
| `WindowsFirewall.FailedEngageSpoils` | crates/vpnmgr-tunnel/src/killswitch_windows.rs:196-212 | an engage that fails at once, and one that completes: the record is there and the actions of before are lost |
| `WindowsFirewall.SkippedEntryIsLost` | crates/vpnmgr-tunnel/src/killswitch_windows.rs:224-243 | a release that skips the only entry and deletes the record leaves Block in force and no record |
| `WindowsFirewall.ReleaseRestoresExactly` | crates/vpnmgr-tunnel/src/killswitch_windows.rs:224-251 | where the actions of before are on record or in force, a completed release restores exactly those if and only if there is a record or they were all Allow, and leaves no rule and no record |
| `WindowsFirewall.ReleaseKeepsExactly` | crates/vpnmgr-tunnel/src/killswitch_windows.rs:224-251 | a partial release keeps the actions of before, on record or in force, if and only if it deletes the record only with every action back |
| `WindowsFirewall.RecordSplits` | crates/vpnmgr-tunnel/src/killswitch_windows.rs:127-136 | the record read back splits into the entries written |
| `WindowsFirewall.BlockComesLast` | crates/vpnmgr-tunnel/src/killswitch_windows.rs:190-192 | an engage that stops short has changed no default action; one that completes blocks everywhere with exactly its own rules |
| `WindowsFirewall.EngagedPermits` | crates/vpnmgr-tunnel/src/killswitch_windows.rs:145-192 | after an engage that completes, whatever was there and on whichever profile, a packet leaves if and only if no other program blocks it and it is on the tunnel adapter, to the WireGuard port, DHCP, link-scope, private when allowed, to a bypass destination, or allowed by another program |
| `WindowsFirewall.Windows.Engage` | crates/vpnmgr-tunnel/src/killswitch_windows.rs:196-221 | an engage executes a prefix of its script and, unless that is all of it, a rollback; so the theorems about operations apply |
| `Probe.MedianExactly` | crates/vpnmgr-probe/src/lib.rs:332-339 | the median is the one observed sample of the lower middle rank, whatever the order of the samples |
| `Probe.ProbeOne` | crates/vpnmgr-probe/src/lib.rs:164-204 | a probe has a timing exactly when its outcome is usable; a clean handshake outdoes a cookie, a cookie outdoes silence, and the excluded endpoint is never timed |
| `Probe.EverySchedule` | crates/vpnmgr-probe/src/lib.rs:211-237 | under every schedule no more probes are in flight than there are permits, and each takes two moves |
| `Probe.NeverStuck` | crates/vpnmgr-probe/src/lib.rs:211-237 | with at least one permit, a schedule can stop only when every probe has ended |
| `Probe.OrderDoesNotMatter` | crates/vpnmgr-probe/src/lib.rs:206-237 | two complete schedules in which every probe comes to the same give the same results, however they interleave and whatever their permits |
| `Probe.ProbeMany` | crates/vpnmgr-probe/src/lib.rs:206-237 | whatever schedule runs, it completes and reports for every endpoint, in order, what its probe came to, a panic being a failure at its own endpoint |
| `Probe.ShotsRegroup` | crates/vpnmgr-probe/src/lib.rs:353-362 | flattening and picking one owner gives back that server's endpoints in the order of the entries |
| `Probe.Sweep` | crates/vpnmgr-probe/src/lib.rs:347-399 | one result a server, in order: a complete schedule ran, each result is what its probe came to in it with the median of its samples for a timing, and each server has the minimum over its usable entries with the earliest winning ties, or no timing at all |
| `Probe.TimingIsOfAnEntry` | crates/vpnmgr-probe/src/lib.rs:347-399 | a timing is of an entry asked for, at that entry's own address, 1 at the primary and 3 at the other, and never the excluded one; a server has none if and only if none of its probes was usable |
| `LinuxTunnel.CapturedEntersTunnel` | crates/vpnmgr-tunnel/src/linux.rs:370-376 | what `Retarget` and `BringUp` leave behind sends unmarked traffic without a specific main route into the tunnel, if no other rule is taken for ours and none claims the packet |
| `LinuxTunnel.ScriptConfines` | crates/vpnmgr-tunnel/src/killswitch.rs:93-130 | with the script installed nothing leaves but loopback, the tunnel, marked packets and the exceptions |
| `Policy.PruningLeavesOne` | crates/vpnmgr-tunnel/src/linux.rs:89-104 | where each of our rules has a copy and nothing else is taken for one, however many copies there are, exactly one of each is left |

## Left out

- Trays, command-line printing, notifications, service registration, packaging, verdict strings, ages and log wording: user interface.
- HTTP, TOML, JSON and IPC decoding, file permissions: an event or a server list arrives decoded. Hosts to bypass arrive resolved.
- The handshake inside one probe: an arbitrary time and outcome, usable when there is a time.
- The daemon's probe answers are arbitrary; `Probe` proves what a sweep makes of handshakes but is not composed with `DaemonModel`.
- Text printed by `ip`, `wg`, `netsh` and PowerShell, other than routing-table lines and the record file: replaced by the state it shows.
- Rounding and NaN: reals are used, and weights and targets are as validation leaves them.
- Port numbers run without bound in `Roaming`, so that a fresh one always exists; reuse of old ephemeral ports is not modelled.
- `ip route` metrics and several routes to one prefix: the main table has one route a prefix, and a route is found by its prefix.
- Selectors of policy rules other than mark and table, such as source or interface: a rule of another program that differs from ours only in those counts as a copy of ours, for deleting as well as for routing.
- Windows rules of other programs are outbound allows and blocks by adapter, UDP port or destination; programs, services and rules by profile are not told apart.
- Calls on the tunnel in `DaemonOnKernel` do what `Roaming.Obeys` allows; which kernel call fails inside one is `LinuxTunnel`'s matter.
- Changes other programs make to routes, rules or the firewall while a call is under way; and the resolver, of which only success or failure is kept.
- The Windows tunnel itself: it rewrites the endpoint before it rotates the port and keeps the peer, so the endpoint property does not carry over; `Roaming.RotatingLast` shows the opening.
- Windows profiles are changed all at once by one statement; a crash inside a statement is not modelled.
- `LinuxTunnel.LinuxTunnel.Drop`: runs on an orderly drop only; a killed process keeps its rules, as the source intends.
- Within one event a single clock reading stands for every reading taken after the first probe.
- The order of the two policy rules a family is the library's; it is taken as lookup first, override second.
