/** Collisions between the members of an archive, and between the reserved paths of a bundle. */
module ArchivePaths {
  type Component = string

  /** A canonical relative path, folded: its components, none empty and none with a separator inside. */
  type Path = seq<Component>

  predicate NoSlash(s: string) {
    forall k :: 0 <= k < |s| ==> s[k] != '/'
  }

  predicate Canonical(p: Path) {
    |p| > 0 && forall k :: 0 <= k < |p| ==> p[k] != "" && NoSlash(p[k])
  }

  function Text(p: Path): string {
    if |p| == 0 then "" else if |p| == 1 then p[0] else p[0] + "/" + Text(p[1..])
  }

  /** A component that opens both texts is the same one, and the rests still compare. */
  lemma {:induction false} SameHead(a: string, x: string, b: string, y: string)
    requires NoSlash(a) && NoSlash(b) && a + "/" + x <= b + "/" + y
    ensures a == b && x <= y
  {
    var s, t := a + "/" + x, b + "/" + y;
    assert s[|a|] == '/' && s[..|a|] == a;
    assert t[|b|] == '/' && t[..|b|] == b;
    assert |a| == |b|;
    assert a == s[..|a|] == t[..|a|] == b;
    assert x == s[|a| + 1..] && y == t[|a| + 1..];
    assert forall k :: 0 <= k < |x| ==> x[k] == s[|a| + 1 + k] && y[k] == t[|a| + 1 + k];
  }

  lemma {:induction false} TailOfPrefix(p: Path, q: Path)
    requires |p| > 0 && |q| > 0 && p[0] == q[0]
    ensures p <= q <==> p[1..] <= q[1..]
  {
  }

  /** `startswith(a + "/")`. */
  predicate Under(a: string, b: string) {
    a + "/" <= b
  }

  lemma {:induction false} SlashShows(a: string, x: string)
    ensures !NoSlash(a + "/" + x)
  {
    assert (a + "/" + x)[|a|] == '/';
  }

  /** The textual test for "lies under" is exactly proper prefix by component. */
  lemma {:induction false} UnderIsPrefix(p: Path, q: Path)
    requires Canonical(p) && Canonical(q)
    ensures Under(Text(p), Text(q)) <==> p < q
    decreases |p|
  {
    if |q| == 1 {
      var s, t := Text(p) + "/", Text(q);
      assert s[|s| - 1] == '/';
      assert s <= t ==> '/' in t;
    } else {
      var rest := Text(q[1..]);
      if |p| == 1 {
        assert Text(p) + "/" == p[0] + "/" + "";
        if Text(p) + "/" <= Text(q) {
          SameHead(p[0], "", q[0], rest);
        }
        TailOfPrefix(p, [p[0]] + q[1..]);
        if p < q {
          assert p[0] == q[0];
          assert Text(q)[..|p[0]| + 1] == p[0] + "/";
        }
      } else {
        assert Text(p) + "/" == p[0] + "/" + (Text(p[1..]) + "/");
        UnderIsPrefix(p[1..], q[1..]);
        if Text(p) + "/" <= Text(q) {
          SameHead(p[0], Text(p[1..]) + "/", q[0], rest);
          TailOfPrefix(p, q);
        }
        if p < q {
          assert p[0] == q[0];
          TailOfPrefix(p, q);
          assert p[1..] < q[1..];
          PrefixUnder(p[0] + "/", Text(p[1..]) + "/", rest);
        }
      }
    }
  }

  lemma {:induction false} PrefixUnder(a: string, x: string, y: string)
    requires x <= y
    ensures a + x <= a + y
  {
  }

  /** Different canonical paths have different texts. */
  lemma {:induction false} TextTells(p: Path, q: Path)
    requires Canonical(p) && Canonical(q) && Text(p) == Text(q)
    ensures p == q
    decreases |p|
  {
    if |p| == 1 || |q| == 1 {
      if |q| > 1 {
        SlashShows(q[0], Text(q[1..]));
      }
      if |p| > 1 {
        SlashShows(p[0], Text(p[1..]));
      }
      assert p == [p[0]] + p[1..] && q == [q[0]] + q[1..];
    } else {
      SameHead(p[0], Text(p[1..]), q[0], Text(q[1..]));
      SameHead(q[0], Text(q[1..]), p[0], Text(p[1..]));
      TextTells(p[1..], q[1..]);
      assert p == [p[0]] + p[1..] && q == [q[0]] + q[1..];
    }
  }

  // ------------------------------------------------------------------ members

  /** An archive entry; the archive's own root is an entry without components. */
  datatype Member = Member(path: Path, directory: bool, safe: bool)

  /** Neither is the other, and whichever lies above the other is a directory. */
  predicate Compatible(a: Member, b: Member) {
    a.path != b.path && (a.path < b.path ==> a.directory) && (b.path < a.path ==> b.directory)
  }

  /** What the two textual tests decide. */
  lemma {:induction false} CompatibleText(a: Member, b: Member)
    requires Canonical(a.path) && Canonical(b.path)
    ensures Compatible(a, b) <==>
              && Text(a.path) != Text(b.path)
              && !(Under(Text(a.path), Text(b.path)) && !a.directory)
              && !(Under(Text(b.path), Text(a.path)) && !b.directory)
  {
    hide Text, Under, Canonical;
    UnderIsPrefix(a.path, b.path);
    UnderIsPrefix(b.path, a.path);
    if Text(a.path) == Text(b.path) {
      TextTells(a.path, b.path);
    }
  }

  predicate WellFormed(m: Member) {
    m.path == [] || Canonical(m.path)
  }

  /** What an archive's entries must satisfy together. */
  ghost predicate Acceptable(members: seq<Member>) {
    && (forall k :: 0 <= k < |members| && members[k].path != [] ==> members[k].safe)
    && (forall i, j :: 0 <= i < j < |members| && members[i].path != [] && members[j].path != []
          ==> Compatible(members[i], members[j]))
  }

  /** The same of a bag of entries, in which order plays no part. */
  ghost predicate AcceptableBag(bag: multiset<Member>) {
    && (forall m :: m in bag && m.path != [] ==> m.safe && bag[m] == 1)
    && (forall m, n :: m in bag && n in bag && m != n && m.path != [] && n.path != [] ==> Compatible(m, n))
  }

  lemma {:induction false} BagGrows(members: seq<Member>, m: Member)
    ensures multiset(members + [m]) == multiset(members) + multiset{m}
  {
  }

  lemma {:induction false} AcceptableGrows(members: seq<Member>, m: Member)
    ensures Acceptable(members + [m]) <==>
              && Acceptable(members)
              && (m.path != [] ==>
                    m.safe && forall k :: 0 <= k < |members| && members[k].path != [] ==> Compatible(members[k], m))
  {
    var more := members + [m];
    if Acceptable(more) {
      assert more[|members|] == m;
      forall i, j | 0 <= i < j < |members| && members[i].path != [] && members[j].path != []
        ensures Compatible(members[i], members[j])
      {
        assert more[i] == members[i] && more[j] == members[j];
      }
      forall k | 0 <= k < |members| && members[k].path != []
        ensures members[k].safe && (m.path != [] ==> Compatible(members[k], m))
      {
        assert more[k] == members[k];
      }
    }
  }

  lemma {:induction false} AcceptableBagGrows(bag: multiset<Member>, m: Member)
    ensures AcceptableBag(bag + multiset{m}) <==>
              && AcceptableBag(bag)
              && (m.path != [] ==> m.safe && forall n :: n in bag && n.path != [] ==> Compatible(n, m))
  {
  }

  /** Acceptance is a property of the bag of entries. */
  lemma {:induction false} AcceptableIsBag(members: seq<Member>)
    ensures Acceptable(members) <==> AcceptableBag(multiset(members))
  {
    hide Compatible;
    if |members| > 0 {
      var rest, last := members[..|members| - 1], members[|members| - 1];
      assert members == rest + [last];
      AcceptableIsBag(rest);
      AcceptableGrows(rest, last);
      AcceptableBagGrows(multiset(rest), last);
      BagGrows(rest, last);
      assert forall n :: n in multiset(rest) <==> exists k :: 0 <= k < |rest| && rest[k] == n;
    }
  }

  /** So the order in which an archive lists its entries never decides whether it is accepted. */
  lemma {:induction false} OrderDoesNotMatter(a: seq<Member>, b: seq<Member>)
    requires multiset(a) == multiset(b)
    ensures Acceptable(a) <==> Acceptable(b)
  {
    AcceptableIsBag(a);
    AcceptableIsBag(b);
  }

  /** The entry is on record under its text. */
  ghost predicate Recorded(seen: map<string, bool>, m: Member) {
    WellFormed(m) && (m.path != [] ==> Text(m.path) in seen && seen[Text(m.path)] == m.directory)
  }

  ghost predicate Stands(members: seq<Member>, text: string) {
    exists k :: 0 <= k < |members| && members[k].path != [] && Text(members[k].path) == text
  }

  /** The registry `_register_archive_member` fills, by folded text. */
  class Registry {
    var seen: map<string, bool>
    ghost var members: seq<Member>

    ghost predicate Valid()
      reads this
    {
      && (forall k :: 0 <= k < |members| ==> Recorded(seen, members[k]))
      && (forall t :: t in seen ==> Stands(members, t))
      && Acceptable(members)
    }

    constructor ()
      ensures Valid() && members == []
    {
      seen, members := map[], [];
    }

    /** `_register_archive_member`: on failure the archive is refused and the registry dropped. */
    method Register(m: Member) returns (ok: bool)
      requires Valid() && WellFormed(m)
      modifies this
      ensures ok <==> Acceptable(old(members) + [m])
      ensures ok ==> Valid() && members == old(members) + [m]
    {
      hide Acceptable, Compatible, Text, Canonical;
      AcceptableGrows(members, m);
      StandsMore(members, m);
      if m.path == [] {
        members := members + [m];
        return true;
      }
      var folded := Text(m.path);
      ok := CheckAgainst(m, folded);
      if ok {
        seen := seen[folded := m.directory];
        members := members + [m];
        ok := m.safe;
      }
    }

    /** Every entry seen so far is compatible with the new one. */
    method CheckAgainst(m: Member, folded: string) returns (ok: bool)
      requires Valid() && Canonical(m.path) && folded == Text(m.path)
      ensures ok <==> forall k :: 0 <= k < |members| && members[k].path != [] ==> Compatible(members[k], m)
      ensures ok ==> folded !in seen
    {
      hide Acceptable, Compatible, Text, Canonical, Under;
      Tested(m);
      if folded in seen {
        assert Stands(members, folded);
        return false;
      }
      var rest := seen.Keys;
      while rest != {}
        invariant rest <= seen.Keys
        invariant forall t :: t in seen && t !in rest ==>
                    !(Under(t, folded) && !seen[t]) && !(Under(folded, t) && !m.directory)
      {
        var prior :| prior in rest;
        if (Under(prior, folded) && !seen[prior]) || (Under(folded, prior) && !m.directory) {
          assert Stands(members, prior);
          return false;
        }
        rest := rest - {prior};
      }
      ok := true;
    }

    /** Compatibility of the new entry with each old one, read off the texts on record. */
    lemma Tested(m: Member)
      requires Valid() && Canonical(m.path)
      ensures forall k :: 0 <= k < |members| && members[k].path != [] ==>
                var t := Text(members[k].path);
                && t in seen
                && (Compatible(members[k], m) <==>
                      t != Text(m.path) && !(Under(t, Text(m.path)) && !seen[t])
                      && !(Under(Text(m.path), t) && !m.directory))
    {
      hide Acceptable, Compatible, Text, Canonical, Under;
      forall k | 0 <= k < |members| && members[k].path != []
        ensures var t := Text(members[k].path);
                && t in seen
                && (Compatible(members[k], m) <==>
                      t != Text(m.path) && !(Under(t, Text(m.path)) && !seen[t])
                      && !(Under(Text(m.path), t) && !m.directory))
      {
        assert Recorded(seen, members[k]);
        CompatibleText(members[k], m);
      }
    }
  }

  lemma {:induction false} StandsMore(members: seq<Member>, m: Member)
    ensures forall t :: Stands(members, t) ==> Stands(members + [m], t)
    ensures m.path != [] ==> Stands(members + [m], Text(m.path))
  {
    hide Text;
    var more := members + [m];
    assert more[|members|] == m;
    forall t | Stands(members, t)
      ensures Stands(more, t)
    {
      var k :| 0 <= k < |members| && members[k].path != [] && Text(members[k].path) == t;
      assert more[k] == members[k];
    }
  }

  /** An archive's listing is accepted exactly when its entries are safe and pairwise compatible. */
  method RegisterAll(members: seq<Member>) returns (ok: bool)
    requires forall k :: 0 <= k < |members| ==> WellFormed(members[k])
    ensures ok <==> Acceptable(members)
  {
    hide Acceptable;
    var registry := new Registry();
    ok := true;
    for k := 0 to |members|
      invariant registry.Valid() && registry.members == members[..k]
    {
      ok := registry.Register(members[k]);
      assert members[..k] + [members[k]] == members[..k + 1];
      PrefixAcceptable(members, k + 1);
      if !ok {
        return;
      }
    }
    assert Acceptable(registry.members);
    assert members[..|members|] == members;
    ok := true;
  }

  lemma {:induction false} PrefixAcceptable(members: seq<Member>, n: nat)
    requires n <= |members|
    ensures Acceptable(members) ==> Acceptable(members[..n])
  {
  }

  // ------------------------------------------------------------- reservations

  /** Neither path is the other or lies under it. */
  predicate Apart(a: Path, b: Path) {
    !(a <= b) && !(b <= a)
  }

  lemma {:induction false} ApartText(a: Path, b: Path)
    requires Canonical(a) && Canonical(b)
    ensures Apart(a, b) <==> Text(a) != Text(b) && !Under(Text(a), Text(b)) && !Under(Text(b), Text(a))
  {
    hide Text, Under, Canonical;
    UnderIsPrefix(a, b);
    UnderIsPrefix(b, a);
    assert a <= b ==> a < b || a == b;
    assert b <= a ==> b < a || a == b;
    if Text(a) == Text(b) {
      TextTells(a, b);
    }
  }

  ghost predicate Names(paths: seq<Path>, text: string) {
    exists k :: 0 <= k < |paths| && Text(paths[k]) == text
  }

  /** The registry `_reserve_bundle_path` fills: bundle paths are files, so none may lie under another. */
  class Reservations {
    var taken: set<string>
    ghost var paths: seq<Path>

    ghost predicate Valid()
      reads this
    {
      && (forall k :: 0 <= k < |paths| ==> Canonical(paths[k]) && Text(paths[k]) in taken)
      && (forall t :: t in taken ==> Names(paths, t))
      && (forall i, j :: 0 <= i < j < |paths| ==> Apart(paths[i], paths[j]))
    }

    constructor ()
      ensures Valid() && paths == []
    {
      taken, paths := {}, [];
    }

    /** A path is reserved exactly when it stays apart from every reserved one. */
    method Reserve(p: Path) returns (ok: bool)
      requires Valid() && Canonical(p)
      modifies this
      ensures Valid() && paths == if ok then old(paths) + [p] else old(paths)
      ensures ok <==> forall k :: 0 <= k < |old(paths)| ==> Apart(old(paths)[k], p)
    {
      hide Apart, Text, Canonical, Under;
      forall k | 0 <= k < |paths|
        ensures Apart(paths[k], p) <==>
                  Text(paths[k]) != Text(p) && !Under(Text(paths[k]), Text(p)) && !Under(Text(p), Text(paths[k]))
      {
        ApartText(paths[k], p);
      }
      var folded := Text(p);
      if folded in taken {
        assert Names(paths, folded);
        return false;
      }
      var rest := taken;
      while rest != {}
        invariant rest <= taken
        invariant forall t :: t in taken && t !in rest ==> !Under(t, folded) && !Under(folded, t)
      {
        var prior :| prior in rest;
        if Under(prior, folded) || Under(folded, prior) {
          assert Names(paths, prior);
          return false;
        }
        rest := rest - {prior};
      }
      NamesMore(paths, p);
      taken, paths := taken + {folded}, paths + [p];
      ok := true;
    }
  }

  lemma {:induction false} NamesMore(paths: seq<Path>, p: Path)
    ensures forall t :: Names(paths, t) ==> Names(paths + [p], t)
    ensures Names(paths + [p], Text(p))
  {
    hide Text;
    var more := paths + [p];
    assert more[|paths|] == p;
    forall t | Names(paths, t)
      ensures Names(more, t)
    {
      var k :| 0 <= k < |paths| && Text(paths[k]) == t;
      assert more[k] == paths[k];
    }
  }
}
