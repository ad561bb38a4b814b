/** Scoped obligations of a run: closing one, and which closed ones stay in working state. */
module Obligations {
  import opened Wrappers
  import opened OwnedRun
  import opened Bounds

  /** The first obligation of that identity. */
  predicate FirstAt(items: seq<Obligation>, id: Name, k: nat) {
    k < |items| && items[k].id == id && forall j :: 0 <= j < k ==> items[j].id != id
  }

  /** No obligation has that identity yet. */
  predicate New(items: seq<Obligation>, id: Name) {
    forall k :: 0 <= k < |items| ==> items[k].id != id
  }

  /** A terminal obligation may be closed again the same way, and never rewritten. */
  predicate Closable(item: Obligation, status: ObligationStatus) {
    !status.Open? && (item.status.Open? || item.status == status)
  }

  ghost predicate CanClose(items: seq<Obligation>, id: Name, status: ObligationStatus) {
    exists k: nat :: FirstAt(items, id, k) && Closable(items[k], status)
  }

  method Find(items: seq<Obligation>, id: Name) returns (at: Option<nat>)
    ensures at.Some? ==> FirstAt(items, id, at.value)
    ensures at.None? ==> New(items, id)
  {
    for k := 0 to |items|
      invariant forall j :: 0 <= j < k ==> items[j].id != id
    {
      if items[k].id == id {
        return Some(k);
      }
    }
    at := None;
  }

  /** The open ones, or the terminal ones, in order. */
  function Only(items: seq<Obligation>, open: bool): seq<Obligation> {
    if |items| == 0 then []
    else
      var last := items[|items| - 1];
      Only(items[..|items| - 1], open) + if last.status.Open? == open then [last] else []
  }

  function LastOf(items: seq<Obligation>, n: nat): seq<Obligation> {
    if n < |items| then items[|items| - n..] else items
  }

  /** Counting from the newest, every open obligation and the first `n` terminal ones. */
  function Newest(items: seq<Obligation>, n: nat): seq<Obligation> {
    if |items| == 0 then []
    else
      var rest, last := items[..|items| - 1], items[|items| - 1];
      if last.status.Open? then Newest(rest, n) + [last]
      else if n > 0 then Newest(rest, n - 1) + [last]
      else Newest(rest, 0)
  }

  /** `close_obligation` keeps working state: the reversed, counted, reversed-back retention. */
  method RetainNewest(items: seq<Obligation>, limit: nat) returns (kept: seq<Obligation>)
    ensures kept == Newest(items, limit)
  {
    var i, retained := |items|, 0;
    kept := [];
    assert items[..i] == items;
    while i > 0
      invariant 0 <= i <= |items|
      invariant Newest(items, limit)
                == Newest(items[..i], if retained < limit then limit - retained else 0) + kept
    {
      i := i - 1;
      var item := items[i];
      assert items[..i + 1][..i] == items[..i];
      if item.status.Open? {
        kept := [item] + kept;
      } else {
        retained := retained + 1;
        if retained <= limit {
          kept := [item] + kept;
        }
      }
    }
  }

  lemma {:induction false} OnlyAppended(items: seq<Obligation>, item: Obligation, open: bool)
    ensures Only(items + [item], open) == Only(items, open) + if item.status.Open? == open then [item] else []
  {
  }

  lemma {:induction false} LastAppended(items: seq<Obligation>, item: Obligation, n: nat)
    requires n > 0
    ensures LastOf(items + [item], n) == LastOf(items, n - 1) + [item]
  {
  }

  lemma {:induction false} LastOfNothing(items: seq<Obligation>)
    ensures LastOf(items, 0) == []
  {
  }

  lemma {:induction false} LastOfNone(n: nat)
    ensures LastOf([], n) == []
  {
  }

  /** Every open obligation stays, in order, and of the terminal ones exactly the newest `n` do. */
  lemma {:induction false} NewestKeeps(items: seq<Obligation>, n: nat)
    ensures Only(Newest(items, n), true) == Only(items, true)
    ensures Only(Newest(items, n), false) == LastOf(Only(items, false), n)
  {
    hide LastOf;
    if |items| == 0 {
      assert LastOf([], n) == [] by {
        LastOfNone(n);
      }
    } else {
      var rest, last := items[..|items| - 1], items[|items| - 1];
      if last.status.Open? {
        NewestKeeps(rest, n);
        OnlyAppended(Newest(rest, n), last, true);
        OnlyAppended(Newest(rest, n), last, false);
        assert Only(items, false) == Only(rest, false);
      } else if n > 0 {
        NewestKeeps(rest, n - 1);
        OnlyAppended(Newest(rest, n - 1), last, true);
        OnlyAppended(Newest(rest, n - 1), last, false);
        LastAppended(Only(rest, false), last, n);
      } else {
        NewestKeeps(rest, 0);
        LastOfNothing(Only(rest, false));
        LastOfNothing(Only(items, false));
      }
    }
  }

  /** Cancellation releases what is still open. */
  function Released(items: seq<Obligation>): seq<Obligation> {
    seq(|items|, k requires 0 <= k < |items| =>
          if items[k].status.Open? then items[k].(status := Dropped) else items[k])
  }

  lemma {:induction false} NoneOpenNoBytes(items: seq<Obligation>)
    requires OpenObligations(items) == 0
    ensures OpenBytes(items) == 0
  {
    if |items| > 0 {
      NoneOpenNoBytes(items[..|items| - 1]);
    }
  }

  lemma {:induction false} ReleasedNoneOpen(items: seq<Obligation>)
    requires forall k :: 0 <= k < |items| ==> !items[k].status.Open?
    ensures OpenObligations(items) == 0
  {
    if |items| > 0 {
      ReleasedNoneOpen(items[..|items| - 1]);
    }
  }

  /** Releasing changes statuses only, so what was sound stays sound. */
  lemma {:induction false} ReleasedSound(identity: Identity, items: seq<Obligation>)
    requires ObligationsSound(identity, items) && OpenObligations(Released(items)) == 0
    ensures ObligationsSound(identity, Released(items))
  {
    hide OpenObligations;
  }
}
