/** The files a bundle cites: when a reference is intact, and when the citations so far leave room for it. */
module BundleFiles {
  import opened Wrappers

  type Path = string
  type Digest = string

  /** A cited file: where it lies, its recorded digest, and its size where that is recorded. */
  datatype Reference = Reference(path: Path, digest: Digest, size: Option<nat>)

  datatype Stored = Stored(digest: Digest, size: nat)

  /**
    A bundle as the verifier sees it: its files, which paths stay inside it without a symbolic link, and how a path
    is folded to compare spellings.
   */
  datatype Bundle = Bundle(files: map<Path, Stored>, resolves: Path -> bool, fold: Path -> Path)

  /** `SHA256_RE`. */
  predicate IsDigest(s: Digest) {
    |s| == 64 && forall k :: 0 <= k < |s| ==> '0' <= s[k] <= '9' || 'a' <= s[k] <= 'f'
  }

  /** The reference can be followed to a file, whatever that file holds. */
  predicate Readable(b: Bundle, r: Reference) {
    b.resolves(r.path) && IsDigest(r.digest) && r.path in b.files
  }

  /** The file is there with its recorded digest and size. */
  predicate Intact(b: Bundle, r: Reference) {
    && Readable(b, r)
    && b.files[r.path].digest == r.digest
    && (r.size.Some? ==> b.files[r.path].size == r.size.value)
  }

  /** What the citations so far have fixed: one spelling for each folded path, one digest for each path. */
  datatype Seen = Seen(spellings: map<Path, Path>, checksums: map<Path, Digest>)

  predicate Fits(b: Bundle, seen: Seen, r: Reference) {
    && (b.fold(r.path) in seen.spellings ==> seen.spellings[b.fold(r.path)] == r.path)
    && (r.path in seen.checksums ==> seen.checksums[r.path] == r.digest)
  }

  function Saw(b: Bundle, seen: Seen, r: Reference): Seen {
    Seen(seen.spellings[b.fold(r.path) := r.path], seen.checksums[r.path := r.digest])
  }

  function SawAll(b: Bundle, seen: Seen, refs: seq<Reference>): Seen {
    if |refs| == 0 then seen else Saw(b, SawAll(b, seen, refs[..|refs| - 1]), refs[|refs| - 1])
  }

  /** One after the other, every reference is intact and fits what came before it. */
  predicate AllClean(b: Bundle, seen: Seen, refs: seq<Reference>) {
    |refs| > 0 ==>
      && AllClean(b, seen, refs[..|refs| - 1])
      && Intact(b, refs[|refs| - 1])
      && Fits(b, SawAll(b, seen, refs[..|refs| - 1]), refs[|refs| - 1])
  }

  /** In no order at all: every one is intact and fits the start, and no two are spelled apart in case only. */
  predicate Sound(b: Bundle, seen: Seen, refs: seq<Reference>) {
    && (forall r :: r in refs ==> Intact(b, r) && Fits(b, seen, r))
    && (forall r, q :: r in refs && q in refs ==> SameSpelling(b, r, q))
  }

  predicate SameSpelling(b: Bundle, r: Reference, q: Reference) {
    b.fold(r.path) == b.fold(q.path) ==> r.path == q.path
  }

  lemma {:induction false} CleanMore(b: Bundle, seen: Seen, refs: seq<Reference>, r: Reference)
    ensures SawAll(b, seen, refs + [r]) == Saw(b, SawAll(b, seen, refs), r)
    ensures AllClean(b, seen, refs + [r])
            <==> AllClean(b, seen, refs) && Intact(b, r) && Fits(b, SawAll(b, seen, refs), r)
  {
    assert (refs + [r])[..|refs|] == refs;
  }

  lemma {:induction false} CleanJoined(b: Bundle, seen: Seen, x: seq<Reference>, y: seq<Reference>)
    ensures SawAll(b, seen, x + y) == SawAll(b, SawAll(b, seen, x), y)
    ensures AllClean(b, seen, x + y) <==> AllClean(b, seen, x) && AllClean(b, SawAll(b, seen, x), y)
    decreases |y|
  {
    hide Intact, Fits, Saw;
    if |y| == 0 {
      assert x + y == x;
    } else {
      var front, last := y[..|y| - 1], y[|y| - 1];
      assert x + y == (x + front) + [last] && y == front + [last];
      CleanJoined(b, seen, x, front);
      CleanMore(b, seen, x + front, last);
      CleanMore(b, SawAll(b, seen, x), front, last);
    }
  }

  /** One more citation asks no more of the next than its spelling: two intact references to one file agree. */
  lemma {:induction false} SawFits(b: Bundle, seen: Seen, q: Reference, r: Reference)
    requires Intact(b, q) && Intact(b, r) && Fits(b, seen, q)
    ensures Fits(b, Saw(b, seen, q), r) <==> Fits(b, seen, r) && SameSpelling(b, q, r)
  {
  }

  /** After clean citations the next one fits exactly if it fits the start and is spelled like all of them. */
  lemma {:induction false} FitsLater(b: Bundle, seen: Seen, refs: seq<Reference>, r: Reference)
    requires (forall q :: q in refs ==> Intact(b, q)) && Intact(b, r)
    requires forall q :: q in refs ==> Fits(b, seen, q)
    requires forall p, q :: p in refs && q in refs ==> SameSpelling(b, p, q)
    ensures Fits(b, SawAll(b, seen, refs), r) <==> Fits(b, seen, r) && forall q :: q in refs ==> SameSpelling(b, q, r)
    decreases |refs|
  {
    hide Intact, Fits, SameSpelling, Saw;
    if |refs| > 0 {
      var front, last := refs[..|refs| - 1], refs[|refs| - 1];
      assert refs == front + [last];
      assert forall q :: q in refs <==> q in front || q == last;
      FitsLater(b, seen, front, last);
      FitsLater(b, seen, front, r);
      SawFits(b, SawAll(b, seen, front), last, r);
    }
  }

  /** The order of the citations does not matter: checked one by one they are clean exactly when they are sound. */
  lemma {:induction false} CleanIsSound(b: Bundle, seen: Seen, refs: seq<Reference>)
    ensures AllClean(b, seen, refs) <==> Sound(b, seen, refs)
    decreases |refs|
  {
    hide Intact, Fits, SameSpelling, SawAll;
    if |refs| > 0 {
      var front, last := refs[..|refs| - 1], refs[|refs| - 1];
      assert refs == front + [last];
      assert forall q :: q in refs <==> q in front || q == last;
      CleanIsSound(b, seen, front);
      if Sound(b, seen, front) && Intact(b, last) {
        FitsLater(b, seen, front, last);
        Symmetric(b, front, last);
      }
    }
  }

  lemma {:induction false} Symmetric(b: Bundle, refs: seq<Reference>, r: Reference)
    ensures SameSpelling(b, r, r)
    ensures (forall q :: q in refs ==> SameSpelling(b, q, r)) <==> (forall q :: q in refs ==> SameSpelling(b, r, q))
  {
  }
}
