/**
  Version precedence as the release tool compares it, against section 11 of Semantic Versioning 2.0.0.
  A version is what the tool's pattern admits: a prerelease is split at dots, so an identifier may be empty
  and a numeric one may have leading zeros.
 */
module SemVer {
  import opened Wrappers

  type Identifier = string

  datatype Version = Version(major: nat, minor: nat, patch: nat, pre: Option<seq<Identifier>>, build: Option<string>)

  // -------------------------------------------------------------- identifiers

  predicate Digit(c: char) {
    '0' <= c <= '9'
  }

  predicate Digits(id: Identifier) {
    forall k :: 0 <= k < |id| ==> Digit(id[k])
  }

  predicate Numeric(id: Identifier) {
    |id| > 0 && Digits(id)
  }

  function DigitValue(c: char): (n: nat)
    requires Digit(c)
    ensures n < 10
  {
    c as int - '0' as int
  }

  function Number(id: Identifier): nat
    requires Digits(id)
  {
    if |id| == 0 then 0
    else
      var last := id[|id| - 1];
      assert Digit(last);
      Number(id[..|id| - 1]) * 10 + DigitValue(last)
  }

  /** Code-point order of two strings. */
  predicate TextLess(a: string, b: string) {
    |b| > 0 && (|a| == 0 || a[0] < b[0] || (a[0] == b[0] && TextLess(a[1..], b[1..])))
  }

  /** How the tool orders two identifiers that differ. */
  predicate IdLess(x: Identifier, y: Identifier) {
    if Numeric(x) && Numeric(y) then Number(x) < Number(y)
    else if Numeric(x) != Numeric(y) then Numeric(x)
    else TextLess(x, y)
  }

  // --------------------------------------------------------------- the compare

  function ComparePre(l: seq<Identifier>, r: seq<Identifier>): int {
    if |l| > 0 && |r| > 0 then
      if l[0] == r[0] then ComparePre(l[1..], r[1..])
      else if IdLess(l[0], r[0]) then -1 else 1
    else if |l| == |r| then 0
    else if |l| < |r| then -1 else 1
  }

  predicate CoreLess(a: Version, b: Version) {
    || a.major < b.major
    || (a.major == b.major && (a.minor < b.minor || (a.minor == b.minor && a.patch < b.patch)))
  }

  predicate SameCore(a: Version, b: Version) {
    a.major == b.major && a.minor == b.minor && a.patch == b.patch
  }

  /** `_compare_semver_precedence`. */
  function Compare(a: Version, b: Version): int {
    if !SameCore(a, b) then if CoreLess(a, b) then -1 else 1
    else if a.pre.None? || b.pre.None? then
      if a.pre.None? && b.pre.None? then 0 else if a.pre.None? then 1 else -1
    else ComparePre(a.pre.value, b.pre.value)
  }

  /** `require_semver_upgrade` passes. */
  predicate Upgrades(before: Version, after: Version) {
    Compare(after, before) > 0
  }

  // ------------------------------------------- section 11, stated independently

  /** The first place where two prereleases differ. */
  predicate DifferAt(l: seq<Identifier>, r: seq<Identifier>, k: nat) {
    k < |l| && k < |r| && l[..k] == r[..k] && l[k] != r[k]
  }

  /** Section 11.4: decided by the first difference, or by the larger set of fields. */
  ghost predicate PreBelow(l: seq<Identifier>, r: seq<Identifier>) {
    l < r || exists k: nat :: DifferAt(l, r, k) && IdLess(l[k], r[k])
  }

  ghost predicate Below(a: Version, b: Version) {
    || CoreLess(a, b)
    || (SameCore(a, b) && a.pre.Some? && (b.pre.None? || PreBelow(a.pre.value, b.pre.value)))
  }

  /** Section 9: a numeric identifier has no leading zero. */
  predicate Plain(id: Identifier) {
    Numeric(id) && |id| > 1 ==> id[0] != '0'
  }

  predicate PlainPre(l: seq<Identifier>) {
    forall k :: 0 <= k < |l| ==> Plain(l[k])
  }

  predicate Standard(v: Version) {
    v.pre.Some? ==> PlainPre(v.pre.value)
  }

  // ------------------------------------------------------------- string order

  lemma {:induction false} TextIrreflexive(a: string)
    ensures !TextLess(a, a)
  {
    if |a| > 0 {
      TextIrreflexive(a[1..]);
    }
  }

  lemma {:induction false} TextTransitive(a: string, b: string, c: string)
    requires TextLess(a, b) && TextLess(b, c)
    ensures TextLess(a, c)
  {
    if |a| > 0 && a[0] == b[0] && b[0] == c[0] {
      TextTransitive(a[1..], b[1..], c[1..]);
    }
  }

  lemma {:induction false} TextTotal(a: string, b: string)
    requires a != b
    ensures TextLess(a, b) || TextLess(b, a)
  {
    if |a| > 0 && |b| > 0 && a[0] == b[0] {
      assert a == [a[0]] + a[1..] && b == [b[0]] + b[1..];
      TextTotal(a[1..], b[1..]);
    }
  }

  // ------------------------------------------------------------------ numbers

  lemma {:induction false} Positive(id: Identifier)
    requires Numeric(id) && id[0] != '0'
    ensures Number(id) >= 1
  {
    if |id| > 1 {
      assert id[..|id| - 1][0] == id[0];
      Positive(id[..|id| - 1]);
    }
  }

  lemma {:induction false} LastDigit(a: nat, x: nat, b: nat, y: nat)
    requires a * 10 + x == b * 10 + y && x < 10 && y < 10
    ensures a == b && x == y
  {
  }

  lemma {:induction false} NumberSplit(id: Identifier)
    requires Numeric(id)
    ensures Digit(id[|id| - 1])
    ensures Digits(id[..|id| - 1])
    ensures Number(id) == Number(id[..|id| - 1]) * 10 + DigitValue(id[|id| - 1])
  {
  }

  /** A plain number of two digits or more is at least ten, and so is plain without its last digit. */
  lemma {:induction false} PlainFront(id: Identifier)
    requires Numeric(id) && Plain(id) && |id| > 1
    ensures Numeric(id[..|id| - 1]) && Plain(id[..|id| - 1]) && Number(id[..|id| - 1]) >= 1
  {
    assert id[..|id| - 1][0] == id[0];
    Positive(id[..|id| - 1]);
  }

  /** Without leading zeros a number is spelled one way only. */
  lemma {:induction false} NumberSpelled(x: Identifier, y: Identifier)
    requires Numeric(x) && Numeric(y) && Plain(x) && Plain(y) && Number(x) == Number(y)
    ensures x == y
    decreases |x|
  {
    hide Number, Plain, Digits;
    var p, q := x[..|x| - 1], y[..|y| - 1];
    NumberSplit(x);
    NumberSplit(y);
    LastDigit(Number(p), DigitValue(x[|x| - 1]), Number(q), DigitValue(y[|y| - 1]));
    if |x| > 1 {
      PlainFront(x);
    }
    if |y| > 1 {
      PlainFront(y);
    }
    EmptyNumber();
    if |x| > 1 && |y| > 1 {
      NumberSpelled(p, q);
    }
    assert x == p + [x[|x| - 1]] && y == q + [y[|y| - 1]];
  }

  lemma {:induction false} EmptyNumber()
    ensures Number("") == 0
  {
  }

  // ---------------------------------------------------------- identifier order

  /** Two spellings of one number: the pairs the comparison cannot order. */
  predicate Respelled(x: Identifier, y: Identifier) {
    Numeric(x) && Numeric(y) && x != y && Number(x) == Number(y)
  }

  lemma {:induction false} IdAsymmetric(x: Identifier, y: Identifier)
    requires x != y
    ensures Respelled(x, y) <==> !IdLess(x, y) && !IdLess(y, x)
    ensures !(IdLess(x, y) && IdLess(y, x))
  {
    TextTotal(x, y);
    if TextLess(x, y) && TextLess(y, x) {
      TextTransitive(x, y, x);
      TextIrreflexive(x);
    }
  }

  lemma {:induction false} IdTransitive(x: Identifier, y: Identifier, z: Identifier)
    requires IdLess(x, y) && IdLess(y, z)
    ensures IdLess(x, z)
  {
    if !Numeric(x) && !Numeric(y) && !Numeric(z) {
      TextTransitive(x, y, z);
    }
  }

  // ------------------------------------------------------- what Compare decides

  lemma {:induction false} DifferHere(l: seq<Identifier>, r: seq<Identifier>)
    requires |l| > 0 && |r| > 0 && l[0] != r[0]
    ensures DifferAt(l, r, 0)
    ensures forall k: nat :: DifferAt(l, r, k) ==> k == 0
    ensures !(l < r)
  {
  }

  lemma {:induction false} DifferLater(l: seq<Identifier>, r: seq<Identifier>, k: nat)
    requires |l| > 0 && |r| > 0 && l[0] == r[0]
    ensures DifferAt(l, r, k + 1) <==> DifferAt(l[1..], r[1..], k)
  {
  }

  lemma {:induction false} PreBelowStep(l: seq<Identifier>, r: seq<Identifier>)
    requires |l| > 0 && |r| > 0 && l[0] == r[0]
    ensures PreBelow(l, r) <==> PreBelow(l[1..], r[1..])
  {
    hide IdLess;
    assert l == [l[0]] + l[1..] && r == [r[0]] + r[1..];
    if k: nat :| DifferAt(l, r, k) && IdLess(l[k], r[k]) {
      assert k > 0;
      DifferLater(l, r, k - 1);
      assert DifferAt(l[1..], r[1..], k - 1) && IdLess(l[1..][k - 1], r[1..][k - 1]);
    }
    if k: nat :| DifferAt(l[1..], r[1..], k) && IdLess(l[1..][k], r[1..][k]) {
      DifferLater(l, r, k);
      assert DifferAt(l, r, k + 1) && IdLess(l[k + 1], r[k + 1]);
    }
  }

  /** The comparison answers "below" exactly as section 11 does, and "equal" on equal prereleases only. */
  lemma {:induction false} ComparePreMeans(l: seq<Identifier>, r: seq<Identifier>)
    ensures ComparePre(l, r) == 0 <==> l == r
    ensures ComparePre(l, r) < 0 <==> PreBelow(l, r)
    decreases |l|
  {
    hide IdLess;
    if |l| > 0 && |r| > 0 {
      assert l == [l[0]] + l[1..] && r == [r[0]] + r[1..];
      if l[0] == r[0] {
        ComparePreMeans(l[1..], r[1..]);
        PreBelowStep(l, r);
      } else {
        DifferHere(l, r);
      }
    }
  }

  /** On every pair of versions: below exactly by section 11, and zero exactly when only build metadata differs. */
  lemma {:induction false} CompareMeans(a: Version, b: Version)
    ensures Compare(a, b) == 0 <==> a == b.(build := a.build)
    ensures Compare(a, b) < 0 <==> Below(a, b)
    ensures -1 <= Compare(a, b) <= 1
  {
    hide IdLess;
    if a.pre.Some? && b.pre.Some? {
      ComparePreMeans(a.pre.value, b.pre.value);
      CompareRange(a.pre.value, b.pre.value);
    }
  }

  lemma {:induction false} CompareRange(l: seq<Identifier>, r: seq<Identifier>)
    ensures -1 <= ComparePre(l, r) <= 1
    decreases |l|
  {
    if |l| > 0 && |r| > 0 {
      CompareRange(l[1..], r[1..]);
    }
  }

  // -------------------------------------------------------------- antisymmetry

  /** The first difference of two prereleases is one number spelled twice. */
  ghost predicate Ambiguous(a: Version, b: Version) {
    SameCore(a, b) && a.pre.Some? && b.pre.Some? && AmbiguousPre(a.pre.value, b.pre.value)
  }

  ghost predicate AmbiguousPre(l: seq<Identifier>, r: seq<Identifier>) {
    exists k: nat :: DifferAt(l, r, k) && Respelled(l[k], r[k])
  }

  lemma {:induction false} AmbiguousStep(l: seq<Identifier>, r: seq<Identifier>)
    requires |l| > 0 && |r| > 0 && l[0] == r[0]
    ensures AmbiguousPre(l, r) <==> AmbiguousPre(l[1..], r[1..])
  {
    hide Respelled;
    if k: nat :| DifferAt(l, r, k) && Respelled(l[k], r[k]) {
      assert k > 0;
      DifferLater(l, r, k - 1);
      assert DifferAt(l[1..], r[1..], k - 1) && Respelled(l[1..][k - 1], r[1..][k - 1]);
    }
    if k: nat :| DifferAt(l[1..], r[1..], k) && Respelled(l[1..][k], r[1..][k]) {
      DifferLater(l, r, k);
      assert DifferAt(l, r, k + 1) && Respelled(l[k + 1], r[k + 1]);
    }
  }

  lemma {:induction false} AntisymmetricPre(l: seq<Identifier>, r: seq<Identifier>)
    ensures ComparePre(l, r) == -ComparePre(r, l) <==> !AmbiguousPre(l, r)
    decreases |l|
  {
    hide Respelled, IdLess;
    if |l| > 0 && |r| > 0 {
      if l[0] == r[0] {
        AntisymmetricPre(l[1..], r[1..]);
        AmbiguousStep(l, r);
      } else {
        DifferHere(l, r);
        IdAsymmetric(l[0], r[0]);
      }
    }
  }

  /** Swapping the arguments negates the answer exactly when the first difference is not one number spelled twice. */
  lemma {:induction false} AntisymmetryExact(a: Version, b: Version)
    ensures Compare(a, b) == -Compare(b, a) <==> !Ambiguous(a, b)
  {
    hide Respelled, IdLess;
    if a.pre.Some? && b.pre.Some? {
      AntisymmetricPre(a.pre.value, b.pre.value);
    }
  }

  /** Without leading zeros nothing is ambiguous. */
  lemma {:induction false} StandardUnambiguous(a: Version, b: Version)
    requires Standard(a) && Standard(b)
    ensures !Ambiguous(a, b)
  {
    if Ambiguous(a, b) {
      var l, r := a.pre.value, b.pre.value;
      var k: nat :| DifferAt(l, r, k) && Respelled(l[k], r[k]);
      NumberSpelled(l[k], r[k]);
      assert false;
    }
  }

  /** Leading zeros do break it: each of these two versions counts as an upgrade of the other. */
  lemma {:induction false} LeadingZeroCycles()
    ensures var a := Version(1, 0, 0, Some(["1"]), None);
            var b := Version(1, 0, 0, Some(["01"]), None);
            Upgrades(a, b) && Upgrades(b, a)
  {
  }

  // -------------------------------------------------------------- transitivity

  lemma {:induction false} TransitivePre(l: seq<Identifier>, m: seq<Identifier>, r: seq<Identifier>)
    requires ComparePre(l, m) < 0 && ComparePre(m, r) < 0
    ensures ComparePre(l, r) < 0
    decreases |l|
  {
    hide IdLess;
    if |l| > 0 && |m| > 0 && |r| > 0 {
      if l[0] == m[0] && m[0] == r[0] {
        TransitivePre(l[1..], m[1..], r[1..]);
      } else if l[0] != m[0] && m[0] != r[0] {
        IdTransitive(l[0], m[0], r[0]);
        if l[0] == r[0] {
          IdAsymmetric(l[0], m[0]);
        }
      }
    }
  }

  /** Below is transitive on every three versions. */
  lemma {:induction false} Transitive(a: Version, b: Version, c: Version)
    requires Compare(a, b) < 0 && Compare(b, c) < 0
    ensures Compare(a, c) < 0
  {
    hide IdLess;
    if a.pre.Some? && b.pre.Some? && c.pre.Some? && SameCore(a, b) && SameCore(b, c) {
      TransitivePre(a.pre.value, b.pre.value, c.pre.value);
    }
  }

  // -------------------------------------------------------------------- chains

  /** Two versions are upgrades of each other exactly when their difference is ambiguous. */
  lemma {:induction false} MutualUpgradeExact(a: Version, b: Version)
    ensures Upgrades(a, b) && Upgrades(b, a) <==> Ambiguous(a, b)
  {
    hide Compare, Ambiguous, Below;
    AntisymmetryExact(a, b);
    CompareMeans(a, b);
    CompareMeans(b, a);
    if Below(a, b) && Below(b, a) {
      Transitive(a, b, a);
      CompareMeans(a, a);
    }
  }

  /** Successive accepted upgrades, none of them between two spellings of one number. */
  ghost predicate Chain(versions: seq<Version>) {
    forall k :: 0 <= k < |versions| - 1 ==>
      Upgrades(versions[k], versions[k + 1]) && !Ambiguous(versions[k], versions[k + 1])
  }

  /** Along a chain every later version is above every earlier one. */
  lemma {:induction false} ChainAscends(versions: seq<Version>, i: nat, j: nat)
    requires Chain(versions) && i < j < |versions|
    ensures Compare(versions[i], versions[j]) < 0
    decreases j
  {
    hide Compare, Ambiguous;
    var a, b := versions[j - 1], versions[j];
    assert Upgrades(versions[j - 1], versions[j - 1 + 1]);
    AntisymmetryExact(a, b);
    if i < j - 1 {
      ChainAscends(versions, i, j - 1);
      Transitive(versions[i], a, b);
    }
  }

  /** So a chain of upgrades never comes back, not even under other build metadata. */
  lemma {:induction false} ChainNeverReturns(versions: seq<Version>, i: nat, j: nat)
    requires Chain(versions) && i < j < |versions|
    ensures versions[i].(build := None) != versions[j].(build := None)
  {
    hide Compare, Ambiguous, Below;
    ChainAscends(versions, i, j);
    CompareMeans(versions[i], versions[j]);
  }
}
