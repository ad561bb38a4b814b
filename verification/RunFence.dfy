/** Every model call of a run passed its fence: which step admitted it, and what that step saw. */
module RunFence {
  import opened Wrappers
  import opened OwnedRun
  import opened RunSteps
  import opened RunSafety
  import opened RunProofs
  import opened RunInvariant

  /** Step `j` is process `who` being admitted, with nothing retained and in exactly the state `x`. */
  ghost predicate AdmittedAt(first: Checkpoint, steps: seq<Step>, j: nat, who: nat, x: Instance) {
    && j < |steps| && Legal(first, steps[..j])
    && steps[j].who == who && steps[j].action.Admit?
    && (forall m :: j < m < |steps| ==> steps[m].who != who)
    && var w := After(first, steps[..j]);
       && who in w.live && w.live[who] == x
       && Idle(x) && x.phase.Captured? && x.state.model.Some?
       && (steps[j].action.native ==>
             Admits(w.log, x.receipt, x.state.model.value.call, x.phase.receipt, x.phase.wire))
  }

  lemma {:induction false} AdmittedLater(first: Checkpoint, steps: seq<Step>, last: Step, j: nat, who: nat, x: Instance)
    requires AdmittedAt(first, steps, j, who, x) && last.who != who
    ensures AdmittedAt(first, steps + [last], j, who, x)
  {
    hide Legal, After, Admits;
    var more := steps + [last];
    assert more[..j] == steps[..j];
    assert forall m :: 0 <= m < |steps| ==> more[m] == steps[m];
  }

  /** An admission a process holds is its own last action, taken in the state it is still in. */
  lemma {:induction false} AdmissionTraced(first: Checkpoint, steps: seq<Step>, who: nat) returns (j: nat)
    requires Legal(first, steps)
    requires var w := After(first, steps); who in w.live && who in w.admitted
    ensures AdmittedAt(first, steps, j, who, After(first, steps).live[who])
    decreases |steps|
  {
    hide InstInv, Moved, Appended, Admits, Resumed, Recover, InstanceEnabled;
    var prior, last := steps[..|steps| - 1], steps[|steps| - 1];
    assert steps == prior + [last];
    var w := After(first, prior);
    if last.who == who {
      j := |prior|;
      AdmitSound(w, w.live[who], last.action);
    } else {
      j := AdmissionTraced(first, prior, who);
      AdmittedLater(first, prior, last, j, who, w.live[who]);
    }
  }

  lemma {:induction false} AdmitSound(w: World, x: Instance, a: Action)
    requires InstanceEnabled(w, x, a) && a.Admit?
    ensures Moved(w, x, a) == x && Idle(x) && x.phase.Captured? && x.state.model.Some?
    ensures a.native ==> Admits(w.log, x.receipt, x.state.model.value.call, x.phase.receipt, x.phase.wire)
  {
    hide Admits;
  }

  /**
    Step `i` sends `d` from a process that retains nothing, and step `j` admitted that process, in that very state and
    so for that call and that request, with no action of its own in between.
   */
  ghost predicate SentUnder(first: Checkpoint, steps: seq<Step>, i: nat, j: nat, d: Dispatch) {
    && j < i < |steps| && Legal(first, steps[..i])
    && steps[i].action.Send?
    && var w := After(first, steps[..i]);
       && steps[i].who in w.live
       && var x := w.live[steps[i].who];
          && Idle(x) && Sent(x, Send) == [d]
          && AdmittedAt(first, steps[..i], j, steps[i].who, x)
  }

  ghost predicate Fenced(first: Checkpoint, steps: seq<Step>, d: Dispatch) {
    exists i: nat, j: nat :: SentUnder(first, steps, i, j, d)
  }

  lemma {:induction false} FencedLater(first: Checkpoint, steps: seq<Step>, last: Step, d: Dispatch)
    requires Fenced(first, steps, d)
    ensures Fenced(first, steps + [last], d)
  {
    hide Legal, After, AdmittedAt;
    var i: nat, j: nat :| SentUnder(first, steps, i, j, d);
    assert (steps + [last])[..i] == steps[..i];
    assert SentUnder(first, steps + [last], i, j, d);
  }

  /** Every call that ever left the machine was accepted by its fence for that call and request, in the same breath. */
  lemma {:induction false} DispatchFenced(first: Checkpoint, steps: seq<Step>, k: nat)
    requires Legal(first, steps) && k < |After(first, steps).sent|
    ensures Fenced(first, steps, After(first, steps).sent[k])
    decreases |steps|
  {
    hide InstInv, Moved, Appended, Admits, Resumed, Recover, InstanceEnabled, AdmittedAt;
    var prior, last := steps[..|steps| - 1], steps[|steps| - 1];
    assert steps == prior + [last];
    var w := After(first, prior);
    if k < |w.sent| {
      DispatchFenced(first, prior, k);
      FencedLater(first, prior, last, w.sent[k]);
    } else {
      SendSound(w, w.live[last.who], last.action);
      var j := AdmissionTraced(first, prior, last.who);
      AdmittedBefore(first, prior, j, last.who, w.live[last.who]);
      assert SentUnder(first, steps, |prior|, j, After(first, steps).sent[k]);
    }
  }

  lemma {:induction false} AdmittedBefore(first: Checkpoint, steps: seq<Step>, j: nat, who: nat, x: Instance)
    requires AdmittedAt(first, steps, j, who, x)
    ensures j < |steps|
  {
  }

  lemma {:induction false} SendSound(w: World, x: Instance, a: Action)
    requires InstanceEnabled(w, x, a) && Sent(x, a) != []
    ensures a.Send? && Idle(x)
  {
  }

  /**
    Where the owner's own fence is used, no process sends that had been overtaken when it was admitted: its checkpoint
    was the head of the log then, and its request the next event after it.
   */
  lemma {:induction false} FencedByOwner(first: Checkpoint, steps: seq<Step>, i: nat, j: nat, d: Dispatch)
    requires SentUnder(first, steps, i, j, d) && steps[j].action.native
    ensures Legal(first, steps[..j])
    ensures var log := After(first, steps[..j]).log;
            && Head(log) == d.receipt && HeadState(log).status.Active?
            && 0 < d.request <= |log| && log[d.request - 1].position == HeadState(log).next
            && log[d.request - 1].body == ModelRequested(Manifest(d.call, d.wire.digest, d.wire.length))
  {
    hide Legal, After;
    assert steps[..i][..j] == steps[..j] && steps[..i][j] == steps[j];
  }
}
