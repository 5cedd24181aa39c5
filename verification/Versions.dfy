/** Version strings and their order (collectorupdate/release.go:81-122). */
module Versions {
  import opened Common
  import Text

  /** Major, minor, patch. */
  type Version = v: seq<int> | |v| == 3 witness [0, 0, 0]

  /** What is left of a version string without spaces, a leading v and a -pre or +meta suffix. */
  function Core(v: string): string {
    var t := Text.Trim(v);
    Text.Before(if Text.HasPrefix(t, "v") then t[1..] else t, {'-', '+'})
  }

  /** A part of a version: a number that fits an int. */
  predicate Part(p: string) {
    p != "" && Text.Digits(p) && Text.Value(p) <= Text.MAX_INT
  }

  /** Three parts make a version, if they are numbers. */
  function FromParts(parts: seq<string>): Option<Version> {
    if |parts| == 3 && Part(parts[0]) && Part(parts[1]) && Part(parts[2]) then
      Some([Text.Value(parts[0]), Text.Value(parts[1]), Text.Value(parts[2])])
    else None
  }

  /** The version that a string stands for, if any. */
  function Parsed(v: string): Option<Version> {
    FromParts(Text.Split(Core(v), '.'))
  }

  /** What comes before the first stop has no stop in it, so its parts carry no sign. */
  lemma {:induction false} PartsOfCore(s: string, parts: seq<string>)
    requires parts == Text.Split(s, '.') && '-' !in s && '+' !in s
    ensures forall p <- parts :: '-' !in p && '+' !in p
    decreases |s|
  {
    var head := Text.Before(s, {'.'});
    if |head| < |s| {
      PartsOfCore(s[|head| + 1..], Text.Split(s[|head| + 1..], '.'));
      assert parts == [head] + Text.Split(s[|head| + 1..], '.');
      forall p | p in parts ensures '-' !in p && '+' !in p {
        if p != head {
          assert p in Text.Split(s[|head| + 1..], '.');
        } else {
          assert forall c <- head :: c in s;
        }
      }
    }
  }

  lemma UnsignedAtoi(p: string)
    requires '-' !in p && '+' !in p
    ensures Text.Atoi(p) == if Part(p) then Some(Text.Value(p)) else None
  {
    if p != "" {
      assert p[0] in p;
    }
  }

  /** The loop of parseVersion, over the parts between the dots. */
  method ReadParts(parts: seq<string>) returns (out: Option<Version>)
    requires forall p <- parts :: '-' !in p && '+' !in p
    ensures out == FromParts(parts)
  {
    if |parts| != 3 {
      return None;
    }
    var numbers := new int[3](_ => 0);
    for i := 0 to 3
      invariant forall j :: 0 <= j < i ==> Part(parts[j]) && numbers[j] == Text.Value(parts[j])
    {
      var p := parts[i];
      UnsignedAtoi(p);
      var n := Text.Atoi(p);
      if n.None? || n.value < 0 {
        assert !Part(p);
        return None;
      }
      numbers[i] := n.value;
    }
    assert numbers[..] == [Text.Value(parts[0]), Text.Value(parts[1]), Text.Value(parts[2])];
    return Some(numbers[..]);
  }

  /** parseVersion. */
  method Parse(v: string) returns (out: Option<Version>)
    ensures out == Parsed(v)
  {
    var parts := Text.Split(Core(v), '.');
    PartsOfCore(Core(v), parts);
    out := ReadParts(parts);
  }

  // ------------------------------------------------- the order

  /** a is ahead of b at the first place where they differ. */
  predicate Later(a: Version, b: Version) {
    exists i :: 0 <= i < 3 && a[..i] == b[..i] && a[i] > b[i]
  }

  predicate IsNewer(candidate: string, current: string) {
    var c, cur := Parsed(candidate), Parsed(current);
    c.Some? && (cur.None? || Later(c.value, cur.value))
  }

  /** The loop of Newer. */
  method Compare(c: Version, cur: Version) returns (newer: bool)
    ensures newer <==> Later(c, cur)
  {
    for i := 0 to 3
      invariant c[..i] == cur[..i]
    {
      if c[i] != cur[i] {
        NoLaterDifference(c, cur, i);
        return c[i] > cur[i];
      }
      assert c[..i + 1] == c[..i] + [c[i]];
      assert cur[..i + 1] == cur[..i] + [cur[i]];
    }
    assert c == c[..3] && cur == cur[..3];
    return false;
  }

  /** Newer. */
  method Newer(candidate: string, current: string) returns (newer: bool)
    ensures newer <==> IsNewer(candidate, current)
  {
    var c := Parse(candidate);
    if c.None? {
      return false;
    }
    var cur := Parse(current);
    if cur.None? {
      return true;
    }
    newer := Compare(c.value, cur.value);
  }

  /** Only the first place where two versions differ counts. */
  lemma NoLaterDifference(a: Version, b: Version, i: nat)
    requires i < 3 && a[..i] == b[..i] && a[i] != b[i]
    ensures Later(a, b) <==> a[i] > b[i]
  {
    forall j | 0 <= j < 3 && j != i ensures !(a[..j] == b[..j] && a[j] > b[j]) {
      if j < i {
        assert a[j] == a[..i][j] == b[..i][j] == b[j];
      } else {
        assert a[..j][i] == a[i] && b[..j][i] == b[i];
      }
    }
  }

  lemma Different(a: Version, b: Version) returns (i: nat)
    requires a != b
    ensures i < 3 && a[..i] == b[..i] && a[i] != b[i]
  {
    i := if a[0] != b[0] then 0 else if a[1] != b[1] then 1 else 2;
    assert a == [a[0], a[1], a[2]] && b == [b[0], b[1], b[2]];
  }

  /** Newer is a strict order, and it ties two strings only if they are the same version, or no version. */
  lemma NewerIsAnOrder(a: string, b: string, c: string)
    ensures !(IsNewer(a, b) && IsNewer(b, a))
    ensures IsNewer(a, b) && IsNewer(b, c) ==> IsNewer(a, c)
    ensures !IsNewer(a, b) && !IsNewer(b, a) <==> Parsed(a) == Parsed(b)
  {
    var x, y, z := Parsed(a), Parsed(b), Parsed(c);
    if x.Some? && y.Some? && x != y {
      var i := Different(x.value, y.value);
      NoLaterDifference(x.value, y.value, i);
      NoLaterDifference(y.value, x.value, i);
      if IsNewer(a, b) && IsNewer(b, c) && z.Some? {
        LaterIsTransitive(x.value, y.value, z.value);
      }
    }
  }

  lemma LaterIsTransitive(a: Version, b: Version, c: Version)
    requires Later(a, b) && Later(b, c)
    ensures Later(a, c)
  {
    var i :| 0 <= i < 3 && a[..i] == b[..i] && a[i] > b[i];
    var j :| 0 <= j < 3 && b[..j] == c[..j] && b[j] > c[j];
    var k := Min(i, j);
    assert a[..k] == a[..i][..k] == b[..i][..k] == b[..k] == b[..j][..k] == c[..j][..k] == c[..k];
    if k < i {
      assert a[k] == a[..i][k] == b[..i][k] == b[k];
    }
    if k < j {
      assert b[k] == b[..j][k] == c[..j][k] == c[k];
    }
  }

  // ------------------------------------------------- printing

  function Dotted(a: nat, b: nat, c: nat): string {
    Text.Decimal(a) + "." + Text.Decimal(b) + "." + Text.Decimal(c)
  }

  lemma SplitThree(x: string, y: string, z: string)
    requires '.' !in x && '.' !in y && '.' !in z
    ensures Text.Split(x + "." + y + "." + z, '.') == [x, y, z]
  {
    var tail := y + ['.'] + z;
    assert x + "." + y + "." + z == x + ['.'] + tail;
    Text.SplitFirst(x, '.', tail);
    Text.SplitFirst(y, '.', z);
    Text.SplitNone(z, '.');
  }

  lemma DottedEnds(a: nat, b: nat, c: nat)
    ensures var d := Dotted(a, b, c); d != "" && Text.IsDigit(d[0]) && Text.IsDigit(d[|d| - 1])
    ensures forall ch <- Dotted(a, b, c) :: Text.IsDigit(ch) || ch == '.'
  {
  }

  lemma CoreOfPrinted(v: string, core: string, suffix: string)
    requires v == "" || v == "v"
    requires core != "" && Text.IsDigit(core[0]) && Text.IsDigit(core[|core| - 1]) && '-' !in core && '+' !in core
    requires suffix == "" || (suffix[0] in {'-', '+'} && !Text.IsSpace(suffix[|suffix| - 1]))
    ensures Core(v + core + suffix) == core
  {
    var full := v + core + suffix;
    assert full[|full| - 1] == if suffix == "" then core[|core| - 1] else suffix[|suffix| - 1];
    assert full[0] == if v == "v" then 'v' else core[0];
    Text.TrimmedStays(full);
    var rest := core + suffix;
    assert (if v == "v" then full[1..] else full) == rest;
    assert Text.HasPrefix(full, "v") <==> v == "v";
    Text.BeforeStop(core, suffix, {'-', '+'});
  }

  /** An optional v, three numbers, and nothing or a suffix are read back as the three numbers. */
  lemma PrintedVersionsParse(v: string, a: nat, b: nat, c: nat, suffix: string)
    requires a <= Text.MAX_INT && b <= Text.MAX_INT && c <= Text.MAX_INT
    requires v == "" || v == "v"
    requires suffix == "" || (suffix[0] in {'-', '+'} && !Text.IsSpace(suffix[|suffix| - 1]))
    ensures Parsed(v + Dotted(a, b, c) + suffix) == Some([a, b, c])
  {
    DottedEnds(a, b, c);
    CoreOfPrinted(v, Dotted(a, b, c), suffix);
    SplitThree(Text.Decimal(a), Text.Decimal(b), Text.Decimal(c));
  }

  lemma LaterComparesNumbers(l: Version, r: Version)
    ensures Later(l, r) <==> l[0] > r[0] || (l[0] == r[0] && (l[1] > r[1] || (l[1] == r[1] && l[2] > r[2])))
  {
    if l != r {
      var i := Different(l, r);
      NoLaterDifference(l, r, i);
      assert forall j :: 0 <= j < i ==> l[j] == l[..i][j] == r[..i][j] == r[j];
    }
  }

  /** On released versions Newer compares the numbers, most significant first. */
  lemma NewerComparesNumbers(a: nat, b: nat, c: nat, x: nat, y: nat, z: nat)
    requires a <= Text.MAX_INT && b <= Text.MAX_INT && c <= Text.MAX_INT
    requires x <= Text.MAX_INT && y <= Text.MAX_INT && z <= Text.MAX_INT
    ensures IsNewer("v" + Dotted(a, b, c), "v" + Dotted(x, y, z))
            <==> a > x || (a == x && (b > y || (b == y && c > z)))
  {
    ReleaseParses(a, b, c);
    ReleaseParses(x, y, z);
    LaterComparesNumbers([a, b, c], [x, y, z]);
  }

  lemma ReleaseParses(a: nat, b: nat, c: nat)
    requires a <= Text.MAX_INT && b <= Text.MAX_INT && c <= Text.MAX_INT
    ensures Parsed("v" + Dotted(a, b, c)) == Some([a, b, c])
  {
    PrintedVersionsParse("v", a, b, c, "");
    assert "v" + Dotted(a, b, c) + "" == "v" + Dotted(a, b, c);
  }
}
