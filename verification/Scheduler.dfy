/** When the scheduler runs a tuning pass by itself: it sleeps for as long as is left
    and checks again, since a pass may have been asked for meanwhile. Seconds. */
module Scheduler {
  import opened Wrappers

  const STAGGER: nat := 60

  /** What is left until the next pass is due; with none on record, a constant. */
  function Remaining(interval: nat, last: Option<nat>, now: nat): nat {
    match last
    case None => if interval < STAGGER then interval else STAGGER
    case Some(at) => if now >= at + interval then 0 else if now < at then interval else at + interval - now
  }

  /** The scheduler wakes, or somebody asks for a pass. */
  datatype Occasion = Wakes(now: nat) | Asked(now: nat)

  /** The time of the last pass on record. */
  function Next(interval: nat, last: Option<nat>, o: Occasion): Option<nat> {
    match o
    case Wakes(now) => if Remaining(interval, last, now) == 0 then Some(now) else last
    case Asked(now) => Some(now)
  }

  function Through(interval: nat, last: Option<nat>, occasions: seq<Occasion>): Option<nat>
    decreases |occasions|
  {
    if occasions == [] then last else Through(interval, Next(interval, last, occasions[0]), occasions[1..])
  }

  /** From a fresh start no pass ever runs unless somebody asks for one. */
  lemma {:induction false} OnlyWhenAsked(interval: nat, last: Option<nat>, occasions: seq<Occasion>)
    requires interval > 0
    ensures Through(interval, last, occasions).Some? <==>
      last.Some? || exists i :: 0 <= i < |occasions| && occasions[i].Asked?
    decreases |occasions|
  {
    if occasions != [] {
      var rest := occasions[1..];
      OnlyWhenAsked(interval, Next(interval, last, occasions[0]), rest);
      if exists i :: 0 <= i < |rest| && rest[i].Asked? {
        var i :| 0 <= i < |rest| && rest[i].Asked?;
        assert occasions[i + 1].Asked?;
      }
      if exists i :: 0 < i < |occasions| && occasions[i].Asked? {
        var i :| 0 < i < |occasions| && occasions[i].Asked?;
        assert rest[i - 1].Asked?;
      }
    }
  }

  /** Once there has been one, a wake-up after the sleep runs the next exactly when no
      pass was recorded meanwhile that is less than the interval old. */
  lemma SleptLongEnough(interval: nat, at: nat, start: nat, wake: nat, later: nat)
    requires interval > 0 && at <= start && wake >= start + Remaining(interval, Some(at), start) && at <= later <= wake
    ensures Next(interval, Some(at), Wakes(wake)) == Some(wake)
    ensures Next(interval, Some(later), Wakes(wake)) == Some(wake) <==> wake == later || wake - later >= interval
  {}
}
