/** The parts of Go's strings, strconv and fmt packages that the services parse and print with. */
module Text {
  import opened Common

  /** strconv.Atoi and fmt's %d read a 64-bit int. */
  const MAX_INT := 0x7fff_ffff_ffff_ffff

  /** Unicode's White_Space, as strings.TrimSpace sees it. */
  predicate IsSpace(c: char) {
    || c in {' ', '\t', '\n', '\r', '\U{0B}', '\U{0C}', '\U{85}', '\U{A0}', '\U{1680}'}
    || '\U{2000}' <= c <= '\U{200A}'
    || c in {'\U{2028}', '\U{2029}', '\U{202F}', '\U{205F}', '\U{3000}'}
  }

  predicate IsDigit(c: char) {
    '0' <= c <= '9'
  }

  predicate Digits(s: string) {
    forall c <- s :: IsDigit(c)
  }

  /** s without the spaces at its ends, the newline among them only if lines is set. */
  function TrimLeft(s: string, lines: bool := true): string {
    if s != "" && IsSpace(s[0]) && (lines || s[0] != '\n') then TrimLeft(s[1..], lines) else s
  }

  function TrimRight(s: string): string {
    if s != "" && IsSpace(s[|s| - 1]) then TrimRight(s[..|s| - 1]) else s
  }

  function Trim(s: string): string {
    TrimRight(TrimLeft(s))
  }

  predicate Trimmed(s: string) {
    s != "" ==> !IsSpace(s[0]) && !IsSpace(s[|s| - 1])
  }

  predicate HasPrefix(s: string, p: string) {
    |p| <= |s| && s[..|p|] == p
  }

  function Lower(c: char): char {
    if 'A' <= c <= 'Z' then c - 'A' + 'a' else c
  }

  /** strings.ToLower as far as ASCII letters go. */
  function ToLower(s: string): (r: string)
    ensures |r| == |s|
  {
    seq(|s|, i requires 0 <= i < |s| => Lower(s[i]))
  }

  /** The part of s before the first of the given characters. */
  function Before(s: string, stops: set<char>): (r: string)
    ensures r <= s && (forall c <- r :: c !in stops)
    ensures |r| < |s| ==> s[|r|] in stops
  {
    if s == "" || s[0] in stops then "" else [s[0]] + Before(s[1..], stops)
  }

  function Split(s: string, sep: char): (parts: seq<string>)
    ensures |parts| > 0
    decreases |s|
  {
    var head := Before(s, {sep});
    if |head| == |s| then [s] else [head] + Split(s[|head| + 1..], sep)
  }

  function DigitValue(c: char): (d: nat)
    requires IsDigit(c)
    ensures d < 10
  {
    (c - '0') as nat
  }

  /** The number a row of digits stands for. */
  function Value(s: string): nat
    requires Digits(s)
  {
    if s == "" then 0 else 10 * Value(s[..|s| - 1]) + DigitValue(s[|s| - 1])
  }

  function Digit(d: nat): (c: char)
    requires d < 10
    ensures IsDigit(c) && DigitValue(c) == d
  {
    '0' + d as char
  }

  /** n as %d prints it. */
  function Decimal(n: nat): (s: string)
    ensures s != "" && Digits(s) && Value(s) == n
    decreases n
  {
    if n < 10 then [Digit(n)] else Decimal(n / 10) + [Digit(n % 10)]
  }

  /** n as %02d prints it. */
  function TwoDigits(n: nat): string {
    if n < 100 then [Digit(n / 10), Digit(n % 10)] else Decimal(n)
  }

  /** A number that fits an int, in digits with an optional sign, and nothing else. */
  function Atoi(s: string): Option<int> {
    var signed := s != "" && s[0] in {'+', '-'};
    var digits := if signed then s[1..] else s;
    if digits == "" || !Digits(digits) then None
    else
      var v: int := Value(digits);
      var n := if signed && s[0] == '-' then -v else v;
      if -MAX_INT - 1 <= n <= MAX_INT then Some(n) else None
  }

  function LeadingDigits(s: string): (d: string)
    ensures Digits(d) && d <= s
  {
    if s == "" || !IsDigit(s[0]) then "" else [s[0]] + LeadingDigits(s[1..])
  }

  /** fmt.Sscanf(s, "%d"): spaces, a sign, digits, and then anything at all. */
  function ScanInt(s: string): Option<int> {
    var t := TrimLeft(s, false);
    var signed := t != "" && t[0] in {'+', '-'};
    var digits := LeadingDigits(if signed then t[1..] else t);
    Atoi((if signed then [t[0]] else "") + digits)
  }

  // ------------------------------------------------- facts about them

  lemma TrimmedStays(s: string)
    requires Trimmed(s)
    ensures Trim(s) == s
  {
    assert TrimLeft(s) == s;
    assert TrimRight(s) == s;
  }

  predicate Spaces(s: string) {
    forall c <- s :: IsSpace(c)
  }

  lemma {:induction false} LeftSpacesGo(a: string, s: string)
    requires Spaces(a) && (s != "" ==> !IsSpace(s[0]))
    ensures TrimLeft(a + s) == s
  {
    if a == "" {
      assert a + s == s;
    } else {
      assert (a + s)[1..] == a[1..] + s;
      LeftSpacesGo(a[1..], s);
    }
  }

  lemma {:induction false} RightSpacesGo(s: string, b: string)
    requires Spaces(b) && (s != "" ==> !IsSpace(s[|s| - 1]))
    ensures TrimRight(s + b) == s
  {
    if b == "" {
      assert s + b == s;
    } else {
      assert (s + b)[..|s + b| - 1] == s + b[..|b| - 1];
      RightSpacesGo(s, b[..|b| - 1]);
    }
  }

  /** Trimming takes off the spaces at both ends, however many, and nothing else. */
  lemma TrimTakesSpacesOff(a: string, s: string, b: string)
    requires Spaces(a) && Spaces(b) && Trimmed(s)
    ensures Trim(a + s + b) == s
  {
    if s == "" {
      LeftSpacesGo(a + b, "");
      assert a + s + b == a + b + "";
    } else {
      LeftSpacesGo(a, s + b);
      assert a + s + b == a + (s + b);
      RightSpacesGo(s, b);
    }
  }

  lemma {:induction false} BeforeStop(x: string, y: string, stops: set<char>)
    requires (forall c <- x :: c !in stops) && (y == "" || y[0] in stops)
    ensures Before(x + y, stops) == x
  {
    if x == "" {
      assert x + y == y;
    } else {
      assert (x + y)[1..] == x[1..] + y;
      BeforeStop(x[1..], y, stops);
    }
  }

  /** Splitting takes the first part off a string that has the separator. */
  lemma SplitFirst(x: string, sep: char, y: string)
    requires sep !in x
    ensures Split(x + [sep] + y, sep) == [x] + Split(y, sep)
  {
    var s := x + [sep] + y;
    assert s == x + ([sep] + y);
    BeforeStop(x, [sep] + y, {sep});
    assert s[|x| + 1..] == y;
  }

  lemma SplitNone(x: string, sep: char)
    requires sep !in x
    ensures Split(x, sep) == [x]
  {
    assert x + "" == x;
    BeforeStop(x, "", {sep});
  }

  lemma {:induction false} AllDigitsLead(d: string, rest: string)
    requires Digits(d) && (rest == "" || !IsDigit(rest[0]))
    ensures LeadingDigits(d + rest) == d
  {
    if d == "" {
      assert d + rest == rest;
    } else {
      assert (d + rest)[1..] == d[1..] + rest;
      AllDigitsLead(d[1..], rest);
    }
  }
}
