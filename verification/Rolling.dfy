/** Residency of complete exchanges: what one eviction removes, and where a rotation stops. */
module Rolling {
  import opened Wrappers
  import opened OwnedRun

  datatype Policy = Policy(high: nat, low: nat, keep: nat, chunk: nat, attempts: nat)

  predicate Validates(p: Policy, maxInput: nat) {
    && 0 < p.low < p.high < maxInput
    && 1 <= p.keep <= 32
    && 1 <= p.chunk <= 16
    && 1 <= p.attempts <= 8
  }

  /** How many groups at the front are complete. */
  function LeadingComplete(groups: seq<Group>): (n: nat)
    ensures n <= |groups|
    ensures forall k :: 0 <= k < n ==> groups[k].complete
    ensures n < |groups| ==> !groups[n].complete
  {
    if |groups| == 0 || !groups[0].complete then 0 else 1 + LeadingComplete(groups[1..])
  }

  /** Complete groups beyond those the policy keeps. */
  function Eligible(groups: seq<Group>, p: Policy): (n: nat)
    ensures n <= |groups|
  {
    if LeadingComplete(groups) > p.keep then LeadingComplete(groups) - p.keep else 0
  }

  /** What one eviction removes. */
  function EvictCount(groups: seq<Group>, p: Policy): nat {
    if Eligible(groups, p) < p.chunk then Eligible(groups, p) else p.chunk
  }

  /**
    Evicting at most what is eligible drops complete groups only: the open group survives, and so do as
    many complete ones as the policy keeps, or all of them if there were fewer.
   */
  lemma {:induction false} EvictionKeeps(groups: seq<Group>, p: Policy, n: nat)
    requires n <= Eligible(groups, p)
    ensures DropsComplete(groups, groups[n..])
    ensures Eligible(groups[n..], p) == Eligible(groups, p) - n
    ensures n > 0 ==> LeadingComplete(groups[n..]) >= p.keep
    ensures n == 0 ==> groups[n..] == groups
    ensures !LastComplete(groups) ==> !LastComplete(groups[n..])
  {
  }

  /** The measured-cache policy changes when a rotation starts, never what an eviction removes. */
  lemma {:induction false} HighDoesNotEvict(groups: seq<Group>, p: Policy, high: nat)
    ensures EvictCount(groups, p.(high := high)) == EvictCount(groups, p)
    ensures Eligible(groups, p.(high := high)) == Eligible(groups, p)
  {
  }

  /** A full window of complete groups always has one to evict under a validated policy. */
  lemma {:induction false} FullWindowEvicts(groups: seq<Group>, p: Policy, maxInput: nat)
    requires Validates(p, maxInput) && |groups| == MAX_GROUPS && OnlyLastOpen(groups) && LastComplete(groups)
    ensures 1 <= EvictCount(groups, p) < |groups|
  {
  }

  // --------------------------------------------------------------- rotation

  /** Groups removed after `k` evictions, counted from the start. */
  function Cut(eligible: nat, chunk: nat, k: nat): (r: nat)
    ensures r <= eligible
  {
    if k == 0 then 0
    else
      var before := Cut(eligible, chunk, k - 1);
      if eligible - before < chunk then eligible else before + chunk
  }

  /** Where a triggered rotation may stop: the count has come down, or nothing more may leave. */
  predicate Stops(groups: seq<Group>, count: seq<Group> -> Option<nat>, p: Policy, removed: nat)
    requires removed <= |groups|
  {
    || (count(groups[removed..]).Some? && count(groups[removed..]).value <= p.low)
    || Eligible(groups, p) == removed
    || p.chunk == 0
  }

  /** A rotation stops at the first cut where it may, and removes nothing unless the count passed the high mark. */
  ghost predicate Rotated(groups: seq<Group>, count: seq<Group> -> Option<nat>, p: Policy, removed: nat) {
    && removed <= Eligible(groups, p)
    && count(groups).Some?
    && if count(groups).value <= p.high || count(groups).value <= p.low then removed == 0
       else exists k: nat :: StopsFirst(groups, count, p, k) && removed == Cut(Eligible(groups, p), p.chunk, k)
  }

  ghost predicate StopsFirst(groups: seq<Group>, count: seq<Group> -> Option<nat>, p: Policy, k: nat) {
    && Stops(groups, count, p, Cut(Eligible(groups, p), p.chunk, k))
    && forall j: nat :: j < k ==> !Stops(groups, count, p, Cut(Eligible(groups, p), p.chunk, j))
  }

  /** One eviction is one cut. */
  lemma {:induction false} NextCut(groups: seq<Group>, p: Policy, k: nat)
    ensures var removed := Cut(Eligible(groups, p), p.chunk, k);
            && removed <= |groups|
            && Eligible(groups[removed..], p) == Eligible(groups, p) - removed
            && Cut(Eligible(groups, p), p.chunk, k + 1) == removed + EvictCount(groups[removed..], p)
  {
  }

  datatype Rotation = Settled | Unreadable | TooManyGroups

  /**
    `rotate`: recount after every eviction. The count may fail at any time (the originals it re-reads may be
    unavailable); the groups already evicted stay evicted.
   */
  method Rotate(groups: seq<Group>, count: seq<Group> -> Option<nat>, p: Policy)
    returns (kept: seq<Group>, removed: nat, result: Rotation)
    ensures removed <= Eligible(groups, p) && kept == groups[removed..]
    ensures result.Settled? ==> Rotated(groups, count, p, removed) && |kept| <= MAX_GROUPS
    ensures result.TooManyGroups? ==> |kept| > MAX_GROUPS
    ensures result.Unreadable? ==> count(kept).None?
  {
    hide Eligible, LeadingComplete;
    kept, removed := groups, 0;
    ghost var k: nat := 0;
    var tokens := count(kept);
    if tokens.None? {
      result := Unreadable;
      return;
    }
    if tokens.value > p.high {
      while tokens.value > p.low
        invariant removed == Cut(Eligible(groups, p), p.chunk, k) <= |groups| && kept == groups[removed..]
        invariant count(kept) == tokens && tokens.Some?
        invariant forall j: nat :: j < k ==> !Stops(groups, count, p, Cut(Eligible(groups, p), p.chunk, j))
        decreases |kept|
      {
        NextCut(groups, p, k);
        var chunk := EvictCount(kept, p);
        if chunk == 0 {
          break;
        }
        assert !Stops(groups, count, p, removed);
        kept, removed, k := kept[chunk..], removed + chunk, k + 1;
        tokens := count(kept);
        if tokens.None? {
          result := Unreadable;
          return;
        }
      }
      NextCut(groups, p, k);
      assert StopsFirst(groups, count, p, k);
    }
    result := if |kept| > MAX_GROUPS then TooManyGroups else Settled;
  }

  /** With a deterministic count, rotating again at once removes nothing. */
  lemma {:induction false} RotateAgain(groups: seq<Group>, count: seq<Group> -> Option<nat>, p: Policy, removed: nat)
    requires Rotated(groups, count, p, removed) && p.low <= p.high
    requires removed <= |groups| && count(groups[removed..]).Some?
    ensures Rotated(groups[removed..], count, p, 0)
  {
    var rest := groups[removed..];
    assert rest[0..] == rest;
    EvictionKeeps(groups, p, removed);
    if count(groups).value <= p.high {
      assert rest == groups;
    } else {
      assert StopsFirst(rest, count, p, 0);
    }
  }
}
