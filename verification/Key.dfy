/** WireGuard keys: 32 bytes carried as base64 (section 4 of RFC 4648), decoded
    strictly: canonical padding and no stray trailing bits. */
module Key {
  import opened Wrappers
  import opened Text

  type Byte = b: nat | b < 256

  const KEY_LEN := 32

  datatype KeyError = NotBase64 | WrongLength(n: nat)

  function Symbol(v: nat): (c: char)
    requires v < 64
    ensures Sextet(c) == Some(v) && IsBase64Char(c)
  {
    if v < 26 then ('A' as int + v) as char
    else if v < 52 then ('a' as int + v - 26) as char
    else if v < 62 then ('0' as int + v - 52) as char
    else if v == 62 then '+' else '/'
  }

  function Sextet(c: char): (r: Option<nat>)
    ensures r.Some? ==> r.value < 64
  {
    if 'A' <= c <= 'Z' then Some(c as int - 'A' as int)
    else if 'a' <= c <= 'z' then Some(c as int - 'a' as int + 26)
    else if '0' <= c <= '9' then Some(c as int - '0' as int + 52)
    else if c == '+' then Some(62)
    else if c == '/' then Some(63)
    else None
  }

  function Encode(b: seq<Byte>): string {
    if |b| == 0 then ""
    else if |b| == 1 then [Symbol(b[0] / 4), Symbol(b[0] % 4 * 16), '=', '=']
    else if |b| == 2 then
      [Symbol(b[0] / 4), Symbol(b[0] % 4 * 16 + b[1] / 16), Symbol(b[1] % 16 * 4), '=']
    else
      [Symbol(b[0] / 4), Symbol(b[0] % 4 * 16 + b[1] / 16),
       Symbol(b[1] % 16 * 4 + b[2] / 64), Symbol(b[2] % 64)] + Encode(b[3..])
  }

  function DecodeBytes(s: string): Option<seq<Byte>> {
    if s == [] then Some([])
    else if |s| < 4 then None
    else Group(Sextet(s[0]), Sextet(s[1]), Sextet(s[2]), Sextet(s[3]), s[2..], DecodeBytes(s[4..]))
  }

  /** One group of four symbols, then the `rest`; `tail` is the text from the third symbol on. */
  function Group(p: Option<nat>, q: Option<nat>, r: Option<nat>, t: Option<nat>, tail: string,
                 rest: Option<seq<Byte>>): Option<seq<Byte>>
    requires (p.Some? ==> p.value < 64) && (q.Some? ==> q.value < 64) && (r.Some? ==> r.value < 64)
      && (t.Some? ==> t.value < 64)
  {
    if p.None? || q.None? then None
    else if r.Some? && t.Some? then
      (if rest.None? then None
       else Some([p.value * 4 + q.value / 16, q.value % 16 * 16 + r.value / 4,
         r.value % 4 * 64 + t.value] + rest.value))
    else if r.Some? then
      (if |tail| == 2 && tail[1] == '=' && r.value % 4 == 0
       then Some([p.value * 4 + q.value / 16, q.value % 16 * 16 + r.value / 4]) else None)
    else if t.None? && tail == "==" && q.value % 16 == 0 then Some([p.value * 4 + q.value / 16])
    else None
  }

  function Decode(text: string): (r: Result<seq<Byte>, KeyError>)
    ensures r.Ok? ==> |r.value| == KEY_LEN
  {
    match DecodeBytes(Trim(text))
    case None => Err(NotBase64)
    case Some(raw) => if |raw| == KEY_LEN then Ok(raw) else Err(WrongLength(|raw|))
  }

  predicate IsBase64Char(c: char) {
    'A' <= c <= 'Z' || 'a' <= c <= 'z' || '0' <= c <= '9' || c == '+' || c == '/' || c == '='
  }

  /** Four sextets hold three bytes exactly. */
  lemma GroupRoundTrip(a: Byte, b: Byte, c: Byte)
    ensures var p, q, r, t := a / 4, a % 4 * 16 + b / 16, b % 16 * 4 + c / 64, c % 64;
      && p < 64 && q < 64 && r < 64
      && p * 4 + q / 16 == a && q % 16 * 16 + r / 4 == b && r % 4 * 64 + t == c
  {}

  lemma DecodeFour(w: string, rest: string, tail: seq<Byte>)
    requires |w| == 4 && forall i :: 0 <= i < 4 ==> Sextet(w[i]).Some?
    requires DecodeBytes(rest) == Some(tail)
    ensures var p, q, r, t := Sextet(w[0]).value, Sextet(w[1]).value, Sextet(w[2]).value, Sextet(w[3]).value;
      DecodeBytes(w + rest) == Some([p * 4 + q / 16, q % 16 * 16 + r / 4, r % 4 * 64 + t] + tail)
  {
    var s := w + rest;
    assert s[4..] == rest;
    assert s[0] == w[0] && s[1] == w[1] && s[2] == w[2] && s[3] == w[3];
  }

  /** What three bytes are written as. */
  function Four(a: Byte, b: Byte, c: Byte): string {
    [Symbol(a / 4), Symbol(a % 4 * 16 + b / 16), Symbol(b % 16 * 4 + c / 64), Symbol(c % 64)]
  }

  lemma EncodeThree(a: Byte, b: Byte, c: Byte, rest: seq<Byte>)
    ensures Encode([a, b, c] + rest) == Four(a, b, c) + Encode(rest)
  {
    var all := [a, b, c] + rest;
    assert all[3..] == rest && all[0] == a && all[1] == b && all[2] == c;
  }

  lemma DecodeGroup(a: Byte, b: Byte, c: Byte, rest: string, tail: seq<Byte>)
    requires DecodeBytes(rest) == Some(tail)
    ensures DecodeBytes(Four(a, b, c) + rest) == Some([a, b, c] + tail)
  {
    GroupRoundTrip(a, b, c);
    DecodeFour(Four(a, b, c), rest, tail);
  }

  lemma {:induction false} BytesRoundTrip(b: seq<Byte>)
    ensures DecodeBytes(Encode(b)) == Some(b)
    decreases |b|
  {
    if |b| >= 3 {
      var rest := b[3..];
      BytesRoundTrip(rest);
      DecodeGroup(b[0], b[1], b[2], Encode(rest), rest);
      EncodeThree(b[0], b[1], b[2], rest);
      assert b == [b[0], b[1], b[2]] + rest;
    } else if |b| == 2 {
      PairRoundTrip(b[0], b[1]);
      assert b == [b[0], b[1]];
    } else if |b| == 1 {
      LastRoundTrip(b[0]);
      assert b == [b[0]];
    }
  }

  lemma PairRoundTrip(a: Byte, b: Byte)
    ensures DecodeBytes(Encode([a, b])) == Some([a, b])
  {
    GroupRoundTrip(a, b, 0);
  }

  lemma LastRoundTrip(a: Byte)
    ensures DecodeBytes(Encode([a])) == Some([a])
  {
    GroupRoundTrip(a, 0, 0);
  }

  lemma {:induction false} EncodeChars(b: seq<Byte>)
    ensures forall c :: c in Encode(b) ==> IsBase64Char(c)
    ensures b != [] ==> Encode(b) != []
    decreases |b|
  {
    if |b| >= 3 {
      EncodeChars(b[3..]);
    }
  }

  /** Printing a key and reading it back gives the key, and the text is one clean word. */
  lemma KeyRoundTrip(b: seq<Byte>)
    requires |b| == KEY_LEN
    ensures Decode(Encode(b)) == Ok(b)
    ensures Encode(b) != [] && Trimmed(Encode(b))
    ensures forall c :: c in Encode(b) ==> IsBase64Char(c)
  {
    BytesRoundTrip(b);
    EncodeChars(b);
    WordIsTrimmed(Encode(b));
  }

  lemma WordIsTrimmed(s: string)
    requires s != [] && forall c :: c in s ==> IsBase64Char(c)
    ensures Trimmed(s) && Trim(s) == s
  {
    assert s[0] in s && s[|s| - 1] in s;
    TrimKeeps(s);
  }

  // ---- one text a key --------------------------------------------------------

  lemma SymbolOfSextet(c: char)
    ensures Sextet(c).Some? ==> Symbol(Sextet(c).value) == c
  {}

  /** Four sextets are those of three bytes. */
  lemma BytesOf(p: nat, q: nat, r: nat, t: nat) returns (a: Byte, b: Byte, c: Byte)
    requires p < 64 && q < 64 && r < 64 && t < 64
    ensures a / 4 == p && a % 4 * 16 + b / 16 == q && b % 16 * 4 + c / 64 == r && c % 64 == t
    ensures a == p * 4 + q / 16 && b == q % 16 * 16 + r / 4 && c == r % 4 * 64 + t
  {
    a, b, c := p * 4 + q / 16, q % 16 * 16 + r / 4, r % 4 * 64 + t;
  }

  /** Only the canonical text of some bytes decodes. */
  lemma {:induction false} OnlyCanonical(s: string)
    ensures DecodeBytes(s).Some? ==> Encode(DecodeBytes(s).value) == s
    decreases |s|
  {
    if |s| >= 4 && DecodeBytes(s).Some? {
      if Sextet(s[2]).Some? && Sextet(s[3]).Some? {
        OnlyCanonical(s[4..]);
        var a, b, c := FourOf(s);
        OneMoreGroup(a, b, c, s[4..], DecodeBytes(s[4..]).value);
      } else if Sextet(s[2]).Some? {
        PairCanonical(s);
      } else {
        LastCanonical(s);
      }
    }
  }

  lemma FourOf(s: string) returns (a: Byte, b: Byte, c: Byte)
    requires |s| >= 4 && forall i :: 0 <= i < 4 ==> Sextet(s[i]).Some?
    ensures s == Four(a, b, c) + s[4..]
  {
    var p, q, r, t := Sextet(s[0]).value, Sextet(s[1]).value, Sextet(s[2]).value, Sextet(s[3]).value;
    SymbolOfSextet(s[0]);
    SymbolOfSextet(s[1]);
    SymbolOfSextet(s[2]);
    SymbolOfSextet(s[3]);
    a, b, c := BytesOf(p, q, r, t);
    assert s == [Symbol(p), Symbol(q), Symbol(r), Symbol(t)] + s[4..];
  }

  lemma PairOf(p: nat, q: nat, r: nat) returns (a: Byte, b: Byte)
    requires p < 64 && q < 64 && r < 64 && r % 4 == 0
    ensures a == p * 4 + q / 16 && b == q % 16 * 16 + r / 4
    ensures a / 4 == p && a % 4 * 16 + b / 16 == q && b % 16 * 4 == r
  {
    a, b := p * 4 + q / 16, q % 16 * 16 + r / 4;
  }

  lemma PairReads(s: string) returns (a: Byte, b: Byte)
    requires |s| >= 4 && DecodeBytes(s).Some? && Sextet(s[2]).Some? && Sextet(s[3]).None?
    ensures |s| == 4 && s[3] == '=' && DecodeBytes(s) == Some([a, b])
    ensures Sextet(s[0]) == Some(a / 4) && Sextet(s[1]) == Some(a % 4 * 16 + b / 16) && Sextet(s[2]) == Some(b % 16 * 4)
  {
    assert |s[2..]| == 2 && s[2..][1] == s[3];
    a, b := PairOf(Sextet(s[0]).value, Sextet(s[1]).value, Sextet(s[2]).value);
  }

  lemma PairCanonical(s: string)
    requires |s| >= 4 && DecodeBytes(s).Some? && Sextet(s[2]).Some? && Sextet(s[3]).None?
    ensures Encode(DecodeBytes(s).value) == s
  {
    var a, b := PairReads(s);
    SymbolOfSextet(s[0]);
    SymbolOfSextet(s[1]);
    SymbolOfSextet(s[2]);
    assert s == [s[0], s[1], s[2], s[3]];
  }

  lemma LastCanonical(s: string)
    requires |s| >= 4 && DecodeBytes(s).Some? && Sextet(s[2]).None?
    ensures Encode(DecodeBytes(s).value) == s
  {
    var p, q := Sextet(s[0]).value, Sextet(s[1]).value;
    SymbolOfSextet(s[0]);
    SymbolOfSextet(s[1]);
    var a, b, c := BytesOf(p, q, 0, 0);
    assert s[2..] == "==" && s[2..][0] == s[2] && s[2..][1] == s[3] && q % 16 == 0;
    OneByte(a, p, q);
    assert s == [Symbol(p), Symbol(q), '=', '='];
  }

  lemma OneByte(a: Byte, p: nat, q: nat)
    requires p < 64 && q < 64 && a / 4 == p && a % 4 * 16 == q
    ensures Encode([a]) == [Symbol(p), Symbol(q), '=', '=']
  {}

  lemma OneMoreGroup(a: Byte, b: Byte, c: Byte, rest: string, tail: seq<Byte>)
    requires DecodeBytes(rest) == Some(tail) && Encode(tail) == rest
    ensures DecodeBytes(Four(a, b, c) + rest).Some?
    ensures Encode(DecodeBytes(Four(a, b, c) + rest).value) == Four(a, b, c) + rest
  {
    DecodeGroup(a, b, c, rest, tail);
    EncodeThree(a, b, c, tail);
  }

  /** A text reads as a key exactly when, trimmed, it is the text of that key. */
  lemma KeyTextIsUnique(text: string, b: seq<Byte>)
    ensures Decode(text) == Ok(b) <==> |b| == KEY_LEN && Trim(text) == Encode(b)
  {
    OnlyCanonical(Trim(text));
    BytesRoundTrip(b);
  }
}
