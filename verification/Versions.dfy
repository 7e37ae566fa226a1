/** Dotted-numeric versions, and the two orderings an update consults. */
module Versions {
  import opened Values

  const MAX_DIGITS := 18

  predicate IsDigit(c: char) {
    '0' <= c <= '9'
  }

  predicate AllDigits(p: string) {
    forall i :: 0 <= i < |p| ==> IsDigit(p[i])
  }

  predicate IsComponent(p: string) {
    0 < |p| <= MAX_DIGITS && AllDigits(p)
  }

  predicate AllComponents(parts: seq<string>) {
    forall i :: 0 <= i < |parts| ==> IsComponent(parts[i])
  }

  /** str.split('.') */
  function Split(s: string): (parts: seq<string>)
    ensures parts != []
  {
    if s == [] then [[]]
    else
      var rest := Split(s[1..]);
      if s[0] == '.' then [[]] + rest else [[s[0]] + rest[0]] + rest[1..]
  }

  function Decimal(p: string): nat
    requires AllDigits(p)
  {
    if p == [] then 0 else 10 * Decimal(p[..|p| - 1]) + (p[|p| - 1] - '0') as nat
  }

  function Decimals(parts: seq<string>): (t: seq<nat>)
    requires AllComponents(parts)
    ensures |t| == |parts|
  {
    if parts == [] then [] else [Decimal(parts[0])] + Decimals(parts[1..])
  }

  /** version_tuple; None is "no claim". */
  function VersionTuple(value: Option<string>): Option<seq<nat>> {
    if value.None? || value.value == "" then None
    else
      var parts := Split(value.value);
      if AllComponents(parts) then Some(Decimals(parts)) else None
  }

  // ---- Parsing is the inverse of writing ---------------------------------------------------

  function Digits(n: nat): string {
    if n < 10 then [(n as char) + '0'] else Digits(n / 10) + [((n % 10) as char) + '0']
  }

  function Render(t: seq<nat>): string
    requires t != []
  {
    if |t| == 1 then Digits(t[0]) else Digits(t[0]) + "." + Render(t[1..])
  }

  function Pow10(k: nat): nat {
    if k == 0 then 1 else 10 * Pow10(k - 1)
  }

  lemma {:induction false} DigitsRoundTrip(n: nat)
    ensures AllDigits(Digits(n)) && Decimal(Digits(n)) == n && |Digits(n)| > 0
  {
    if n >= 10 {
      DigitsRoundTrip(n / 10);
      var d := Digits(n);
      assert d[..|d| - 1] == Digits(n / 10);
    } else {
      assert Digits(n)[..0] == [];
    }
  }

  lemma {:induction false} DigitsFit(n: nat, k: nat)
    requires n < Pow10(k) && k > 0
    ensures |Digits(n)| <= k
  {
    if n >= 10 {
      DigitsFit(n / 10, k - 1);
    }
  }

  lemma {:induction false} SplitAt(p: string, rest: string)
    requires '.' !in p
    ensures Split(p) == [p]
    ensures Split(p + "." + rest) == [p] + Split(rest)
  {
    if p == [] {
      assert p + "." + rest == ['.'] + rest;
      assert (['.'] + rest)[1..] == rest;
    } else {
      SplitAt(p[1..], rest);
      assert (p + "." + rest)[1..] == p[1..] + "." + rest;
      assert p == [p[0]] + p[1..];
    }
  }

  lemma OneComponent(p: string)
    requires IsComponent(p)
    ensures AllComponents([p]) && Decimals([p]) == [Decimal(p)]
  {
    assert [p][1..] == [];
  }

  lemma SplitJoined(p: string, rest: string, t: seq<nat>)
    requires IsComponent(p) && AllComponents(Split(rest)) && Decimals(Split(rest)) == t
    ensures AllComponents(Split(p + "." + rest)) && Decimals(Split(p + "." + rest)) == [Decimal(p)] + t
  {
    assert '.' !in p;
    SplitAt(p, rest);
    assert ([p] + Split(rest))[1..] == Split(rest);
  }

  lemma {:induction false} SplitRender(t: seq<nat>)
    requires t != [] && forall i :: 0 <= i < |t| ==> t[i] < Pow10(MAX_DIGITS)
    ensures var parts := Split(Render(t)); AllComponents(parts) && Decimals(parts) == t
    ensures Render(t) != ""
  {
    hide Pow10, Split, Decimals, Decimal, Digits;
    DigitsRoundTrip(t[0]);
    DigitsFit(t[0], MAX_DIGITS);
    assert IsComponent(Digits(t[0])) && '.' !in Digits(t[0]);
    if |t| == 1 {
      SplitAt(Digits(t[0]), "");
      OneComponent(Digits(t[0]));
      assert t == [t[0]];
    } else {
      SplitRender(t[1..]);
      SplitJoined(Digits(t[0]), Render(t[1..]), t[1..]);
      assert t == [t[0]] + t[1..];
    }
  }

  /** Every version whose components have at most 18 digits is read back as it was written. */
  lemma ReadsWhatWasWritten(t: seq<nat>)
    requires t != [] && forall i :: 0 <= i < |t| ==> t[i] < Pow10(18)
    ensures VersionTuple(Some(Render(t))) == Some(t)
  {
    SplitRender(t);
  }

  /** A component of 19 digits or more is no claim, wherever the version ends. */
  lemma TooLongIsNoClaim(p: string, rest: string)
    requires |p| > 18 && '.' !in p
    ensures VersionTuple(Some(p)) == None && VersionTuple(Some(p + "." + rest)) == None
  {
    SplitAt(p, rest);
    assert Split(p)[0] == p;
    assert Split(p + "." + rest)[0] == p;
  }

  // ---- The order ---------------------------------------------------------------------------

  function Zeros(n: nat): (z: seq<nat>)
    ensures |z| == n && forall i :: 0 <= i < n ==> z[i] == 0
  {
    if n == 0 then [] else [0] + Zeros(n - 1)
  }

  function Pad(t: seq<nat>, width: nat): (p: seq<nat>)
    requires |t| <= width
    ensures |p| == width && forall i :: 0 <= i < width ==> p[i] == At(t, i)
  {
    t + Zeros(width - |t|)
  }

  /** Python's tuple order, on tuples of one length. */
  predicate TupleLess(a: seq<nat>, b: seq<nat>)
    requires |a| == |b|
  {
    a != [] && (a[0] < b[0] || (a[0] == b[0] && TupleLess(a[1..], b[1..])))
  }

  /** The comparison both is_downgrade and below_floor make, on a common length. */
  predicate Older(a: seq<nat>, b: seq<nat>) {
    var width := if |a| < |b| then |b| else |a|;
    TupleLess(Pad(a, width), Pad(b, width))
  }

  /** is_downgrade; None is "no claim". */
  function IsDowngrade(current: Option<string>, target: Option<string>): Option<bool> {
    var c, t := VersionTuple(current), VersionTuple(target);
    if c.None? || t.None? then None else Some(Older(t.value, c.value))
  }

  /** below_floor */
  function BelowFloor(target: Option<string>, floor: Option<string>): Option<bool> {
    if floor.None? || floor.value == "" then None
    else
      var t, f := VersionTuple(target), VersionTuple(floor);
      if t.None? || f.None? then None else Some(Older(t.value, f.value))
  }

  /** A missing component is a zero. */
  function At(t: seq<nat>, i: nat): nat {
    if i < |t| then t[i] else 0
  }

  /** The first component in which a and b differ is smaller in a. */
  ghost predicate FirstDifferenceSmaller(a: seq<nat>, b: seq<nat>) {
    exists k: nat :: At(a, k) < At(b, k) && forall j: nat :: j < k ==> At(a, j) == At(b, j)
  }

  lemma {:induction false} TupleLessIff(a: seq<nat>, b: seq<nat>)
    requires |a| == |b|
    ensures TupleLess(a, b) <==> exists k :: 0 <= k < |a| && a[k] < b[k] && forall j :: 0 <= j < k ==> a[j] == b[j]
  {
    if a != [] {
      TupleLessIff(a[1..], b[1..]);
      if TupleLess(a[1..], b[1..]) && a[0] == b[0] {
        var k :| 0 <= k < |a[1..]| && a[1..][k] < b[1..][k] && forall j :: 0 <= j < k ==> a[1..][j] == b[1..][j];
        assert a[k + 1] < b[k + 1];
        forall j | 0 <= j < k + 1 ensures a[j] == b[j] {
          assert j > 0 ==> a[1..][j - 1] == b[1..][j - 1];
        }
      }
      if k :| 0 < k < |a| && a[k] < b[k] && forall j :: 0 <= j < k ==> a[j] == b[j] {
        assert a[1..][k - 1] < b[1..][k - 1];
      }
    }
  }

  /** What the padded comparison decides. */
  lemma OlderIff(a: seq<nat>, b: seq<nat>)
    ensures Older(a, b) <==> FirstDifferenceSmaller(a, b)
  {
    var width := if |a| < |b| then |b| else |a|;
    var p, q := Pad(a, width), Pad(b, width);
    TupleLessIff(p, q);
    if k: nat :| At(a, k) < At(b, k) && forall j: nat :: j < k ==> At(a, j) == At(b, j) {
      assert p[k] < q[k];
      forall j | 0 <= j < k ensures p[j] == q[j] {
        assert At(a, j) == At(b, j);
      }
    }
    if TupleLess(p, q) {
      var k :| 0 <= k < width && p[k] < q[k] && forall j :: 0 <= j < k ==> p[j] == q[j];
      forall j: nat | j < k ensures At(a, j) == At(b, j) {
        assert p[j] == q[j];
      }
    }
  }

  /** Which way the two guards point, on versions as they are written: a move is a downgrade when the first component
      that differs is smaller in the target, and the target is below the floor when it is smaller than the floor's. */
  lemma GuardsPoint(a: seq<nat>, b: seq<nat>)
    requires a != [] && b != []
    requires (forall i :: 0 <= i < |a| ==> a[i] < Pow10(18)) && (forall i :: 0 <= i < |b| ==> b[i] < Pow10(18))
    ensures IsDowngrade(Some(Render(a)), Some(Render(b))) == Some(FirstDifferenceSmaller(b, a))
    ensures BelowFloor(Some(Render(b)), Some(Render(a))) == Some(FirstDifferenceSmaller(b, a))
  {
    hide Older, Pow10, Render;
    ReadsWhatWasWritten(a);
    ReadsWhatWasWritten(b);
    OlderIff(b, a);
    SplitRender(a);
  }

  /** 0.9 and 0.9.0 are one version. */
  ghost predicate SameVersion(a: seq<nat>, b: seq<nat>) {
    forall i: nat :: At(a, i) == At(b, i)
  }

  /** A move goes backwards, forwards or nowhere, and only one of them. */
  lemma Trichotomy(a: seq<nat>, b: seq<nat>)
    ensures !(Older(a, b) && Older(b, a))
    ensures SameVersion(a, b) <==> !Older(a, b) && !Older(b, a)
  {
    OlderIff(a, b);
    OlderIff(b, a);
    if !SameVersion(a, b) {
      var i: nat :| At(a, i) != At(b, i);
      FirstDifference(a, b, i);
    }
  }

  lemma {:induction false} FirstDifference(a: seq<nat>, b: seq<nat>, i: nat)
    requires At(a, i) != At(b, i)
    ensures FirstDifferenceSmaller(a, b) || FirstDifferenceSmaller(b, a)
    decreases i
  {
    if j: nat :| j < i && At(a, j) != At(b, j) {
      FirstDifference(a, b, j);
    }
  }

  /** Two moves backwards never add up to anything else, whatever lengths the versions have. */
  lemma OlderIsTransitive(a: seq<nat>, b: seq<nat>, c: seq<nat>)
    requires Older(a, b) && !Older(c, b)
    ensures Older(a, c)
  {
    OlderIff(a, b);
    OlderIff(a, c);
    Trichotomy(b, c);
    var k: nat :| At(a, k) < At(b, k) && forall j: nat :: j < k ==> At(a, j) == At(b, j);
    if Older(b, c) {
      OlderIff(b, c);
      var m: nat :| At(b, m) < At(c, m) && forall j: nat :: j < m ==> At(b, j) == At(c, j);
      var first := if k < m then k else m;
      assert At(a, first) < At(c, first);
      assert forall j: nat :: j < first ==> At(a, j) == At(c, j);
    } else {
      assert At(b, k) == At(c, k);
      assert forall j: nat :: j < k ==> At(a, j) == At(c, j);
    }
  }

  /** The two guards agree: a target is below a floor exactly when moving from that floor to it is a
      downgrade, and neither makes a claim about what is not dotted-numeric. */
  lemma FloorIsADowngradeFromIt(target: Option<string>, floor: Option<string>)
    ensures BelowFloor(target, floor) == IsDowngrade(floor, target)
    ensures IsDowngrade(floor, target) == Some(true) ==> IsDowngrade(target, floor) == Some(false)
  {
    if VersionTuple(target).Some? && VersionTuple(floor).Some? {
      Trichotomy(VersionTuple(target).value, VersionTuple(floor).value);
    }
  }

  /** A target at or above the floor keeps everything that is not older than it there too. */
  lemma FloorIsUpwardClosed(low: Option<string>, high: Option<string>, floor: Option<string>)
    requires BelowFloor(low, floor) == Some(false) && IsDowngrade(low, high) == Some(false)
    ensures BelowFloor(high, floor) == Some(false)
  {
    var l, h, f := VersionTuple(low).value, VersionTuple(high).value, VersionTuple(floor).value;
    if Older(h, f) {
      OlderIsTransitive(h, f, l);
    }
  }
}
