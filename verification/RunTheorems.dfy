/** What holds of every run of the owned runtime, however its processes crash, resume and overlap. */
module RunTheorems {
  import opened Wrappers
  import opened OwnedRun
  import opened Bounds
  import opened RunSteps
  import opened RunSafety
  import opened RunProofs
  import opened RunInvariant

  // ---------------------------------------------------------- model dispatch

  /** No call identity leaves the machine twice, and whatever leaves it was durably captured first. */
  lemma {:induction false} DispatchedAtMostOnce(first: Checkpoint, steps: seq<Step>)
    requires Legal(first, steps)
    ensures var w := After(first, steps);
            && (forall i, j :: 0 <= i < j < |w.sent| ==> w.sent[i].call != w.sent[j].call)
            && (forall k :: 0 <= k < |w.sent| ==> Backed(w.log, w.sent[k]))
  {
    hide Publishable, InstInv, After, Legal;
    RunKeeps(first, steps);
  }

  /** Nobody alive can still dispatch this call. */
  ghost predicate Orphaned(w: World, call: CallId) {
    && call < w.issued
    && forall i :: i in w.live && Holds(w.live[i]) ==> w.live[i].state.model.value.call != call
  }

  lemma {:induction false} OrphanStays(w: World, step: Step, call: CallId)
    requires Inv(w) && Enabled(w, step) && Orphaned(w, call)
    ensures Orphaned(Do(w, step), call)
    ensures WasSent(Do(w, step), call) ==> WasSent(w, call)
  {
    hide Publishable, Inv, InstInv, Moved, InstanceEnabled, Resumed, Recover;
    var v := Do(w, step);
    if step.action.Resume? {
      ResumedIdle(w);
      assert v.sent == w.sent;
    } else {
      forall i | i in v.live && Holds(v.live[i]) ensures v.live[i].state.model.value.call != call {
        HolderKept(w, step, i);
      }
      if WasSent(v, call) {
        assert WasSent(w.(sent := w.sent + Sent(w.live[step.who], step.action)), call);
        SentByHolder(w, w.live[step.who], step.action, call);
      }
    }
  }

  lemma {:induction false} ResumedIdle(w: World)
    requires Inv(w) && Head(w.log) > 0 && Recover(w.log, w.issued).Some?
    ensures !Holds(Resumed(w.log, w.issued))
  {
    hide Publishable;
    ResumeHoldsNothing(w.log, w.issued);
  }

  /**
    Once the process that planned a call is gone, the call is settled: if it was never sent it never will
    be, by any process, in any continuation of the run.
   */
  lemma {:induction false} OrphanNeverDispatched(first: Checkpoint, steps: seq<Step>, more: seq<Step>, call: CallId)
    requires Legal(first, steps + more) && Legal(first, steps) && Orphaned(After(first, steps), call)
    ensures Orphaned(After(first, steps + more), call)
    ensures WasSent(After(first, steps + more), call) ==> WasSent(After(first, steps), call)
    decreases |more|
  {
    hide Publishable, Inv, Do, Enabled, Orphaned, WasSent;
    if |more| == 0 {
      assert steps + more == steps;
    } else {
      var all := steps + more;
      var prior := more[..|more| - 1];
      assert all[..|all| - 1] == steps + prior;
      OrphanNeverDispatched(first, steps, prior, call);
      RunKeeps(first, steps + prior);
      OrphanStays(After(first, steps + prior), all[|all| - 1], call);
    }
  }

  // ------------------------------------------------------------ tool effects

  /** An intent is executed once, unless its target itself made the repetition safe. */
  lemma {:induction false} ExecutedAtMostOnce(first: Checkpoint, steps: seq<Step>)
    requires Legal(first, steps)
    ensures var w := After(first, steps);
            && (forall i, j :: 0 <= i < j < |w.runs| && w.runs[i].replay.None? && w.runs[j].replay.None?
                  ==> w.runs[i].intent != w.runs[j].intent)
            && (forall k :: 0 <= k < |w.runs| ==> IdLogged(w.log, w.runs[k].intent))
            && (forall k :: 0 <= k < |w.runs| && w.runs[k].replay.Some?
                  ==> SafeReplay(w.runs[k].replay.value) && !w.runs[k].replay.value.safety.NoAutomaticReplay?)
  {
    hide Publishable, InstInv, After, Legal;
    RunKeeps(first, steps);
  }

  // ------------------------------------------------------------- the log

  /** The producer sequence never has a gap, and recovery never meets more than two events. */
  lemma {:induction false} LogIsContiguous(first: Checkpoint, steps: seq<Step>)
    requires Legal(first, steps)
    ensures var log := After(first, steps).log;
            && (forall k :: 0 <= k < |log| ==> log[k].position == k + 1)
            && |log| <= Head(log) + 2
  {
    hide Publishable, InstInv, After, Legal;
    RunKeeps(first, steps);
  }

  lemma {:induction false} TerminalStep(w: World, step: Step)
    requires Inv(w) && Enabled(w, step) && !HeadState(w.log).status.Active?
    ensures Do(w, step).log == w.log
  {
    hide Publishable, InstInv, LogInv, HoldersInv, SentInv, PermitsInv, RunsInv, LogIssued, Moved, Resumed;
    if !step.action.Resume? {
      var x := w.live[step.who];
      assert Head(w.log) == |w.log|;
      if Appended(w, x, step.action) != [] {
        NoneAppends(w.log, x);
      }
    }
  }

  /** At a terminal head no process retains anything that could still be accepted. */
  lemma {:induction false} NoneAppends(log: seq<Event>, x: Instance)
    requires LogInv(log) && InstInv(log, x) && Head(log) == |log| && !HeadState(log).status.Active?
    ensures x.save.Some? ==> !AcceptsSave(log, x.save.value)
    ensures x.capture.Some? ==> !Accepts(log, x.capture.value.event)
    ensures x.toolCapture.Some? ==> !Accepts(log, x.toolCapture.value)
    ensures Idle(x) && x.state.tool.Some? ==> !Accepts(log, IntentEvent(x.state.tool.value))
  {
    hide GroupsInv, RequestLogged, DropsComplete, Publishable, ReplyFits;
    if x.capture.Some? && Accepts(log, x.capture.value.event) {
      FreePosition(log, x.capture.value.event);
      CurrentHead(log, x);
    } else if x.toolCapture.Some? && Accepts(log, x.toolCapture.value) {
      FreePosition(log, x.toolCapture.value);
      if x.state.next == |log| + 1 {
        CurrentHead(log, x);
      }
    } else if Idle(x) && x.state.tool.Some? && Accepts(log, IntentEvent(x.state.tool.value)) {
      FreePosition(log, IntentEvent(x.state.tool.value));
      CurrentHead(log, x);
    }
  }

  /** A terminal run never becomes active again: its log is final. */
  lemma {:induction false} TerminalIsFinal(first: Checkpoint, steps: seq<Step>, more: seq<Step>)
    requires Legal(first, steps + more) && Legal(first, steps)
    requires Head(After(first, steps).log) > 0 && !HeadState(After(first, steps).log).status.Active?
    ensures After(first, steps + more).log == After(first, steps).log
    decreases |more|
  {
    hide Publishable, Inv, Do, Enabled, Head, HeadState;
    if |more| == 0 {
      assert steps + more == steps;
    } else {
      var all := steps + more;
      var prior := more[..|more| - 1];
      assert all[..|all| - 1] == steps + prior;
      TerminalIsFinal(first, steps, prior);
      RunKeeps(first, steps + prior);
      TerminalStep(After(first, steps + prior), all[|all| - 1]);
    }
  }
}
