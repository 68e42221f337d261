/** The string operations the configuration code relies on, with the splitting
    and joining laws its round trip rests on. */
module Text {
  import opened Wrappers

  /** Unicode white space, as `str::trim` sees it. */
  predicate IsSpace(c: char) {
    var n := c as int;
    0x9 <= n <= 0xD || n == 0x20 || n == 0x85 || n == 0xA0 || n == 0x1680
    || 0x2000 <= n <= 0x200A || n == 0x2028 || n == 0x2029 || n == 0x202F || n == 0x205F || n == 0x3000
  }

  function TrimStart(s: string): string {
    if s != [] && IsSpace(s[0]) then TrimStart(s[1..]) else s
  }

  function TrimEnd(s: string): string {
    if s != [] && IsSpace(s[|s| - 1]) then TrimEnd(s[..|s| - 1]) else s
  }

  function Trim(s: string): string {
    TrimEnd(TrimStart(s))
  }

  /** No white space at either end. */
  predicate Trimmed(s: string) {
    s != [] ==> !IsSpace(s[0]) && !IsSpace(s[|s| - 1])
  }

  lemma TrimIsTrimmed(s: string)
    ensures Trimmed(Trim(s))
    ensures forall c :: c in Trim(s) ==> c in s
  {
    TrimStartFacts(s);
    TrimEndFacts(TrimStart(s));
  }

  lemma {:induction false} TrimStartFacts(s: string)
    ensures var t := TrimStart(s); (t != [] ==> !IsSpace(t[0])) && forall c :: c in t ==> c in s
  {
    if s != [] && IsSpace(s[0]) {
      TrimStartFacts(s[1..]);
    }
  }

  lemma {:induction false} TrimEndFacts(s: string)
    ensures var t := TrimEnd(s); t <= s && (t != [] ==> !IsSpace(t[|t| - 1]))
  {
    if s != [] && IsSpace(s[|s| - 1]) {
      TrimEndFacts(s[..|s| - 1]);
    }
  }

  lemma TrimKeeps(s: string)
    requires Trimmed(s)
    ensures Trim(s) == s
  {}

  lemma TrimLeadingSpace(s: string)
    requires Trimmed(s)
    ensures Trim(" " + s) == s
  {
    assert (" " + s)[1..] == s;
    assert TrimStart(" " + s) == TrimStart(s);
  }

  lemma {:induction false} TrimTrailingSpace(s: string)
    requires Trimmed(s)
    ensures Trim(s + " ") == s
  {
    if s == [] {
      assert s + " " == " ";
      assert TrimStart(" ") == TrimStart("");
    } else {
      var t := s + " ";
      assert t[0] == s[0] && t[|t| - 1] == ' ' && t[..|t| - 1] == s;
      assert TrimEnd(t) == TrimEnd(s);
    }
  }

  function LowerChar(c: char): char {
    if 'A' <= c <= 'Z' then (c as int + 32) as char else c
  }

  function Lower(s: string): (t: string)
    ensures |t| == |s|
  {
    seq(|s|, i requires 0 <= i < |s| => LowerChar(s[i]))
  }

  /** Case folding and trimming, the normal form in which names are compared. */
  function Normal(s: string): string {
    Lower(Trim(s))
  }

  /** Position of the first `c`, or the length when there is none. */
  function IndexOf(s: string, c: char): (i: nat)
    ensures i <= |s|
    ensures forall k :: 0 <= k < i ==> s[k] != c
    ensures i < |s| ==> s[i] == c
    ensures i == |s| <==> c !in s
  {
    if s == [] || s[0] == c then 0 else 1 + IndexOf(s[1..], c)
  }

  lemma IndexOfAfter(p: string, c: char, rest: string)
    requires c !in p
    ensures IndexOf(p + [c] + rest, c) == |p|
  {
    var s := p + [c] + rest;
    assert s[|p|] == c;
    forall k | 0 <= k < |p| ensures s[k] != c {
      assert s[k] == p[k];
    }
  }

  function Split(s: string, c: char): (parts: seq<string>)
    ensures |parts| >= 1
    ensures forall p :: p in parts ==> c !in p
    decreases |s|
  {
    var i := IndexOf(s, c);
    if i == |s| then [s] else [s[..i]] + Split(s[i + 1..], c)
  }

  lemma SplitFree(s: string, c: char, x: char)
    requires x !in s
    ensures forall p :: p in Split(s, c) ==> x !in p
    decreases |s|
  {
    var i := IndexOf(s, c);
    if i < |s| {
      SplitFree(s[i + 1..], c, x);
    }
  }

  function Join(parts: seq<string>, sep: string): string
  {
    if parts == [] then "" else if |parts| == 1 then parts[0] else parts[0] + sep + Join(parts[1..], sep)
  }

  lemma {:induction false} SplitJoin(parts: seq<string>, c: char)
    requires parts != []
    requires forall p :: p in parts ==> c !in p
    ensures Split(Join(parts, [c]), c) == parts
  {
    if |parts| == 1 {
      assert parts == [parts[0]];
    } else {
      var rest := Join(parts[1..], [c]);
      IndexOfAfter(parts[0], c, rest);
      var s := parts[0] + [c] + rest;
      assert s[..|parts[0]|] == parts[0] && s[|parts[0]| + 1..] == rest;
      SplitJoin(parts[1..], c);
    }
  }

  lemma {:induction false} JoinChars(parts: seq<string>, sep: string, c: char)
    requires c !in sep
    requires forall p :: p in parts ==> c !in p
    ensures c !in Join(parts, sep)
  {
    if |parts| > 1 {
      JoinChars(parts[1..], sep, c);
    } else if |parts| == 1 {
    } else {
    }
  }

  /** The non-empty trimmed pieces of a comma-separated value. */
  function Items(s: string): seq<string> {
    NonEmpty(Split(s, ','))
  }

  function NonEmpty(parts: seq<string>): seq<string> {
    if parts == [] then [] else
    var item := Trim(parts[0]);
    (if item == [] then [] else [item]) + NonEmpty(parts[1..])
  }

  /** What a comma-separated list can hold. */
  predicate CleanItem(s: string) {
    s != [] && Trimmed(s) && ',' !in s
  }

  lemma {:induction false} NonEmptyClean(parts: seq<string>)
    requires forall p :: p in parts ==> ',' !in p
    ensures forall x :: x in NonEmpty(parts) ==> CleanItem(x)
  {
    if parts != [] {
      TrimIsTrimmed(parts[0]);
      NonEmptyClean(parts[1..]);
    }
  }

  lemma {:induction false} NonEmptyFree(parts: seq<string>, c: char)
    requires forall p :: p in parts ==> c !in p
    ensures forall x :: x in NonEmpty(parts) ==> c !in x
  {
    if parts != [] {
      TrimIsTrimmed(parts[0]);
      NonEmptyFree(parts[1..], c);
    }
  }

  lemma ItemsClean(s: string)
    ensures forall x :: x in Items(s) ==> CleanItem(x)
  {
    NonEmptyClean(Split(s, ','));
  }

  lemma ItemsFree(s: string, c: char)
    requires c !in s
    ensures forall x :: x in Items(s) ==> c !in x
  {
    SplitFree(s, ',', c);
    NonEmptyFree(Split(s, ','), c);
  }

  function Padded(xs: seq<string>): seq<string>
  {
    if xs == [] then [] else [" " + xs[0]] + Padded(xs[1..])
  }

  lemma {:induction false} JoinCommaSpace(x: string, xs: seq<string>)
    ensures Join([x] + xs, ", ") == Join([x] + Padded(xs), ",")
    decreases |xs|
  {
    if xs == [] {
      assert [x] + xs == [x] && [x] + Padded(xs) == [x];
    } else {
      JoinCommaSpace(" " + xs[0], xs[1..]);
      assert ([x] + xs)[1..] == xs && ([x] + Padded(xs))[1..] == Padded(xs);
      assert xs == [xs[0]] + xs[1..];
      PrependToJoin(" ", xs[0], xs[1..], ", ");
      assert x + ", " + Join(xs, ", ") == x + "," + (" " + Join(xs, ", "));
    }
  }

  lemma PrependToJoin(p: string, x: string, xs: seq<string>, sep: string)
    ensures Join([p + x] + xs, sep) == p + Join([x] + xs, sep)
  {
    if xs == [] {
      assert [p + x] + xs == [p + x] && [x] + xs == [x];
    } else {
      assert ([p + x] + xs)[1..] == xs && ([x] + xs)[1..] == xs;
      assert p + x + sep + Join(xs, sep) == p + (x + sep + Join(xs, sep));
    }
  }

  lemma {:induction false} NonEmptyPadded(xs: seq<string>)
    requires forall x :: x in xs ==> CleanItem(x)
    ensures NonEmpty(Padded(xs)) == xs
    ensures forall p :: p in Padded(xs) ==> ',' !in p
  {
    if xs != [] {
      assert CleanItem(xs[0]);
      NonEmptyPadded(xs[1..]);
      TrimLeadingSpace(xs[0]);
      assert Padded(xs)[1..] == Padded(xs[1..]);
    }
  }

  /** Joining clean items with a comma and a space is undone by reading the list. */
  lemma ItemsOfJoin(xs: seq<string>)
    requires xs != []
    requires forall x :: x in xs ==> CleanItem(x)
    ensures Items(Join(xs, ", ")) == xs
  {
    var x, rest := xs[0], xs[1..];
    assert xs == [x] + rest;
    JoinCommaSpace(x, rest);
    NonEmptyPadded(rest);
    var parts := [x] + Padded(rest);
    assert CleanItem(xs[0]);
    SplitJoin(parts, ',');
    TrimKeeps(x);
    assert parts[1..] == Padded(rest);
    assert NonEmpty(parts) == [x] + NonEmpty(Padded(rest));
  }

  // ---- lines -----------------------------------------------------------------

  function StripCr(s: string): string {
    if s != [] && s[|s| - 1] == '\r' then s[..|s| - 1] else s
  }

  /** `str::lines`: newline-terminated, an unterminated last line kept as it is. */
  function Lines(text: string): (lines: seq<string>)
    ensures forall l :: l in lines ==> '\n' !in l
    decreases |text|
  {
    if text == [] then []
    else
      var i := IndexOf(text, '\n');
      if i == |text| then [text] else [StripCr(text[..i])] + Lines(text[i + 1..])
  }

  function Unlines(lines: seq<string>): string {
    if lines == [] then "" else lines[0] + "\n" + Unlines(lines[1..])
  }

  lemma {:induction false} UnlinesAppend(a: seq<string>, b: seq<string>)
    ensures Unlines(a + b) == Unlines(a) + Unlines(b)
  {
    if a == [] {
      assert a + b == b;
    } else {
      assert (a + b)[1..] == a[1..] + b;
      UnlinesAppend(a[1..], b);
      assert a[0] + "\n" + (Unlines(a[1..]) + Unlines(b)) == a[0] + "\n" + Unlines(a[1..]) + Unlines(b);
    }
  }

  lemma {:induction false} LinesOfUnlines(lines: seq<string>)
    requires forall l :: l in lines ==> '\n' !in l && Trimmed(l)
    ensures Lines(Unlines(lines)) == lines
  {
    if lines != [] {
      var l, rest := lines[0], Unlines(lines[1..]);
      IndexOfAfter(l, '\n', rest);
      var text := l + "\n" + rest;
      assert text[..|l|] == l && text[|l| + 1..] == rest;
      assert IsSpace('\r');
      LinesOfUnlines(lines[1..]);
    }
  }

  // ---- decimal numbers -------------------------------------------------------

  function Digit(d: nat): char
    requires d < 10
  {
    ('0' as int + d) as char
  }

  predicate IsDigit(c: char) {
    '0' <= c <= '9'
  }

  function Decimal(n: nat): (s: string)
    ensures s != [] && forall c :: c in s ==> IsDigit(c)
    ensures n != 0 ==> s[0] != '0'
  {
    if n < 10 then [Digit(n)] else Decimal(n / 10) + [Digit(n % 10)]
  }

  function DigitsValue(s: string): nat
    requires forall c :: c in s ==> IsDigit(c)
  {
    if s == [] then 0 else
    assert IsDigit(s[|s| - 1]);
    DigitsValue(s[..|s| - 1]) * 10 + (s[|s| - 1] as int - '0' as int)
  }

  lemma {:induction false} DecimalValue(n: nat)
    ensures DigitsValue(Decimal(n)) == n
  {
    if n < 10 {
      assert Decimal(n)[..0] == [];
    } else {
      var s := Decimal(n);
      assert s[..|s| - 1] == Decimal(n / 10);
      DecimalValue(n / 10);
    }
  }

  /** Rust's unsigned integer parser: an optional plus sign, then digits, bounded. */
  function ParseUnsigned(s: string, max: nat): (r: Option<nat>)
    ensures r.Some? ==> r.value <= max
  {
    var digits := if s != [] && s[0] == '+' then s[1..] else s;
    if digits == [] || exists c :: c in digits && !IsDigit(c) then None
    else if DigitsValue(digits) > max then None
    else Some(DigitsValue(digits))
  }

  lemma ParseDecimal(n: nat, max: nat)
    requires n <= max
    ensures ParseUnsigned(Decimal(n), max) == Some(n)
  {
    DecimalValue(n);
    assert Decimal(n)[0] in Decimal(n);
  }
}
