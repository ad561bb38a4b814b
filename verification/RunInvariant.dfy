/** The invariant of the owned run: every action of every process keeps it, so every run has it. */
module RunInvariant {
  import opened Wrappers
  import opened OwnedRun
  import opened Bounds
  import opened RunSteps
  import opened RunSafety
  import opened RunProofs

  // ------------------------------------------------------ what an append keeps

  lemma {:induction false} LogGrows(log: seq<Event>, e: Event)
    requires LogInv(log) && e.position == |log| + 1
    requires e.body.Checkpointed? ==> CheckpointInv(log + [e], e)
    ensures LogInv(log + [e])
  {
    hide StateInv, Publishable;
    var grown := log + [e];
    forall k | 0 <= k < |grown| && grown[k].body.Checkpointed? ensures CheckpointInv(grown, grown[k]) {
      if k < |log| {
        var cp := log[k].body.checkpoint;
        StateStable(log, [e], cp, cp.next);
      }
    }
  }

  lemma {:induction false} HeadGrows(log: seq<Event>, e: Event)
    requires Head(log) > 0 && !e.body.Checkpointed?
    ensures Head(log + [e]) == Head(log) && HeadState(log + [e]) == HeadState(log)
  {
    hide Publishable;
  }

  lemma {:induction false} TailGrows(log: seq<Event>, e: Event)
    requires TailInv(log) && !e.body.Checkpointed?
    requires |log| == Head(log) ==> FirstFits(HeadState(log), e)
    requires |log| == Head(log) + 1 ==> SecondFits(HeadState(log), log[Head(log)], e)
    requires |log| <= Head(log) + 1
    ensures TailInv(log + [e])
  {
    hide Publishable;
  }

  lemma {:induction false} CommitSaveKeeps(log: seq<Event>, x: Instance)
    requires LogInv(log) && InstInv(log, x) && x.save.Some? && AcceptsSave(log, x.save.value)
    ensures LogInv(log + [x.save.value]) && TailInv(log + [x.save.value])
  {
    hide Publishable, DropsComplete, CaptureFits, OutcomeFits, StableInv;
    var e := x.save.value;
    FreePosition(log, e);
    StateStable(log, [e], x.state, x.state.next + 1);
    assert StateInv(log + [e], Bump(x.state), x.state.next + 1);
    LogGrows(log, e);
    HeadIs(log + [e], |log| + 1);
  }

  /** A process whose next position is free has seen the whole log, up to an intent it may not have applied. */
  lemma {:induction false} CurrentHead(log: seq<Event>, x: Instance)
    requires LogInv(log) && InstInv(log, x) && x.save.None? && x.state.next == |log| + 1
    ensures Head(log) == x.receipt
  {
    hide Publishable, StateInv, DropsComplete, CaptureFits, OutcomeFits, CheckpointInv;
    HeadIs(log, x.receipt);
  }

  lemma {:induction false} CommitCaptureKeeps(log: seq<Event>, x: Instance)
    requires LogInv(log) && TailInv(log) && InstInv(log, x) && x.capture.Some? && Accepts(log, x.capture.value.event)
    ensures LogInv(log + [x.capture.value.event]) && TailInv(log + [x.capture.value.event])
  {
    hide Publishable, GroupsInv, RequestLogged, ReplyFits, OutcomeFits, CheckpointInv;
    var e := x.capture.value.event;
    FreePosition(log, e);
    CurrentHead(log, x);
    LogGrows(log, e);
    TailGrows(log, e);
  }

  lemma {:induction false} CommitIntentKeeps(log: seq<Event>, x: Instance)
    requires LogInv(log) && TailInv(log) && InstInv(log, x) && Idle(x) && x.phase.Ready? && x.state.tool.Some?
    requires Accepts(log, IntentEvent(x.state.tool.value))
    ensures LogInv(log + [IntentEvent(x.state.tool.value)]) && TailInv(log + [IntentEvent(x.state.tool.value)])
  {
    hide GroupsInv, RequestLogged, DropsComplete, CaptureFits, OutcomeFits, Publishable;
    var e := IntentEvent(x.state.tool.value);
    assert CheckpointInv(log, log[x.receipt - 1]);
    FreePosition(log, e);
    CurrentHead(log, x);
    LogGrows(log, e);
    TailGrows(log, e);
  }

  lemma {:induction false} CommitOutcomeKeeps(log: seq<Event>, x: Instance)
    requires LogInv(log) && TailInv(log) && InstInv(log, x) && x.toolCapture.Some? && Accepts(log, x.toolCapture.value)
    ensures LogInv(log + [x.toolCapture.value]) && TailInv(log + [x.toolCapture.value])
  {
    hide GroupsInv, RequestLogged, DropsComplete, CaptureFits, Publishable;
    var e := x.toolCapture.value;
    var t := x.state.tool.value;
    assert CheckpointInv(log, log[x.receipt - 1]);
    FreePosition(log, e);
    if x.state.next == t.requestAt {
      HeadIs(log, x.receipt);
    } else {
      CurrentHead(log, x);
    }
    LogGrows(log, e);
    TailGrows(log, e);
  }

  // ------------------------------------------------------ what each action keeps

  lemma {:induction false} LogKeeps(w: World, x: Instance, a: Action)
    requires LogInv(w.log) && TailInv(w.log) && InstInv(w.log, x) && InstanceEnabled(w, x, a)
    ensures LogInv(w.log + Appended(w, x, a)) && TailInv(w.log + Appended(w, x, a))
  {
    hide Publishable, InstInv, LogInv, TailInv;
    if a.CommitSave? {
      CommitSaveKeeps(w.log, x);
    } else if a.CommitCapture? {
      CommitCaptureKeeps(w.log, x);
    } else if a.CommitIntent? {
      CommitIntentKeeps(w.log, x);
    } else if a.CommitOutcome? {
      CommitOutcomeKeeps(w.log, x);
    } else {
      assert w.log + [] == w.log;
    }
  }

  predicate MovesModel(a: Action) {
    || a.Plan? || a.Evict? || a.QueueUser? || a.QueueRequest? || a.RejectFence? || a.Send? || a.QueueReply?
    || a.QueueAbort? || a.NotAccepted? || a.Revise?
  }

  predicate MovesTool(a: Action) {
    || a.PlanTool? || a.CommitIntent? || a.RunTool? || a.ReplayTool? || a.Forget? || a.QueueOutcome?
    || a.ReleaseOutcome? || a.AckIntent? || a.AckOutcome?
  }

  lemma {:induction false} ModelMoverKeeps(w: World, x: Instance, a: Action)
    requires LogInv(w.log) && InstInv(w.log, x) && InstanceEnabled(w, x, a) && MovesModel(a)
    ensures InstInv(w.log, Moved(w, x, a))
  {
    hide Publishable, InstInv, LogInv;
    match a {
      case Plan => PlanKeeps(w.log, x, PendingModel(w.issued, w.issued + 1, None, None), w.issued + 2);
      case Evict(count) => EvictKeeps(w.log, x, count);
      case QueueUser(size, count) =>
        QueueUserKeeps(w.log, x, Event(w.issued, x.state.next, UserMessage(size)), count);
      case QueueRequest(_, wire) => QueueRequestKeeps(w.log, x, wire);
      case RejectFence | NotAccepted(_) => DropCallKeeps(w.log, x, w.issued + 2);
      case Send => SendKeeps(w.log, x);
      case QueueReply(_, _, _) | QueueAbort(_) => OutputKeeps(w.log, x, Moved(w, x, a).capture.value.event);
      case Revise(t) => ReviseKeeps(w.log, x, t, w.issued + 2);
    }
  }

  lemma {:induction false} ToolMoverKeeps(w: World, x: Instance, a: Action)
    requires LogInv(w.log) && InstInv(w.log, x) && InstanceEnabled(w, x, a) && MovesTool(a)
    ensures InstInv(w.log, Moved(w, x, a))
  {
    hide Publishable, InstInv, LogInv, Settle;
    if a.PlanTool? {
      var t := PendingTool(a.call, a.digest, w.issued, x.state.next + 1, w.issued + 1, x.state.next + 2);
      PlanToolKeeps(w.log, x, t, w.issued + 2);
    } else if a.QueueOutcome? {
      QueueOutcomeKeeps(w.log, x, a.outcome, a.bytes);
    } else if a.ReleaseOutcome? {
      ReleaseKeeps(w.log, x);
    } else if a.AckIntent? {
      AckIntentKeeps(w.log, x);
    } else if a.AckOutcome? {
      AckOutcomeKeeps(w.log, x, w.issued, w.issued + 2);
    } else {
      PermitKeeps(w.log, x, Moved(w, x, a).permit);
    }
  }

  lemma {:induction false} MoverKeeps(w: World, x: Instance, a: Action)
    requires LogInv(w.log) && InstInv(w.log, x) && InstanceEnabled(w, x, a)
    ensures InstInv(w.log, Moved(w, x, a))
  {
    hide Publishable, InstInv, LogInv;
    if MovesModel(a) {
      ModelMoverKeeps(w, x, a);
    } else if MovesTool(a) {
      ToolMoverKeeps(w, x, a);
    } else if a.QueueSave? {
      QueueSaveKeeps(w.log, x, w.issued + 2);
    } else if a.AckSave? {
      AckSaveKeeps(w.log, x);
    } else if a.AckCapture? {
      if x.capture.value.prepared.Some? {
        AckRequestKeeps(w.log, x, w.issued);
      } else {
        AckEventKeeps(w.log, x, w.issued, w.issued + 2);
      }
    }
  }

  /** What a process retains carries its own state and its own slots. */
  lemma {:induction false} RetainedOwn(log: seq<Event>, x: Instance)
    requires InstInv(log, x)
    ensures x.save.Some? ==> x.save.value.body == Checkpointed(Bump(x.state)) && x.save.value.position == x.state.next
    ensures x.capture.Some? ==> !x.capture.value.event.body.Checkpointed?
    ensures x.toolCapture.Some? ==>
              && x.state.tool.Some? && x.toolCapture.value.id == x.state.tool.value.outcome
              && !x.toolCapture.value.body.Checkpointed?
  {
    hide Publishable, StateInv, GroupsInv, DropsComplete, ReplyFits;
  }

  /** Applying an event introduces no identity but the slot. */
  lemma {:induction false} ApplyIds(r: Recovered, e: Event, slot: EventId)
    requires Apply(r, e, slot).Some?
    ensures var t := Apply(r, e, slot).value.state;
            && (t.model.Some? ==> r.state.model.Some? && t.model.value.call == r.state.model.value.call
                                  && t.model.value.request == r.state.model.value.request)
            && (t.tool.Some? ==> r.state.tool.Some? && t.tool.value.request == r.state.tool.value.request
                                 && (t.tool.value.outcome == r.state.tool.value.outcome
                                     || t.tool.value.outcome == slot))
  {
    hide Publishable;
  }

  lemma {:induction false} IdsKeep(w: World, x: Instance, a: Action)
    requires InstInv(w.log, x) && IdsIssued(x, w.issued) && InstanceEnabled(w, x, a)
    ensures IdsIssued(Moved(w, x, a), w.issued + 3)
  {
    hide Publishable, InstInv, Apply, Accepts, AcceptsSave, ReplyFits, HasOutstanding, Waiting, SafeReplay,
         LastComplete, OpenObligations, Settle;
    RetainedOwn(w.log, x);
    if a.AckCapture? {
      ApplyIds(Recovered(x.state, x.phase), x.capture.value.event, w.issued);
    } else if a.AckOutcome? {
      SettleIds(w.log, x.state, w.issued);
    }
  }

  lemma {:induction false} SettleIds(log: seq<Event>, s: Checkpoint, issued: nat)
    requires s.tool.Some? && IntentLogged(log, s.tool.value) && OutcomeLogged(log, s.tool.value)
    requires Settle(log, s, issued).Some? && IdsIssued(Instance(s, 0, Ready, None, None, None, None), issued)
    ensures IdsIssued(Instance(Settle(log, s, issued).value.state, 0, Ready, None, None, None, None), issued + 3)
  {
    hide Apply;
    var t := s.tool.value;
    var r := Recovered(s, Ready);
    if s.next == t.requestAt {
      ApplyIds(r, log[t.requestAt - 1], issued);
      r := Apply(r, log[t.requestAt - 1], issued).value;
    }
    ApplyIds(r, log[t.outcomeAt - 1], issued);
  }

  lemma {:induction false} LogIdsKeep(w: World, x: Instance, a: Action)
    requires LogIssued(w.log, w.issued) && InstInv(w.log, x) && IdsIssued(x, w.issued) && InstanceEnabled(w, x, a)
    ensures LogIssued(w.log + Appended(w, x, a), w.issued + 3)
  {
    hide Publishable, InstInv, Apply, Accepts, AcceptsSave, ReplyFits, HasOutstanding, Waiting, IntentLogged,
         OutcomeLogged, SafeReplay, LastComplete, OpenObligations, Settle;
    RetainedOwn(w.log, x);
  }

  lemma {:induction false} ResumeIdsKeep(log: seq<Event>, issued: nat)
    requires LogInv(log) && TailInv(log) && LogIssued(log, issued) && Recover(log, issued).Some?
    ensures IdsIssued(Resumed(log, issued), issued + 3)
  {
    hide Publishable, FirstFits, SecondFits, CheckpointInv, Apply;
    RecoverCases(log, issued);
    var h := Head(log);
    var r := Recovered(HeadState(log), ResumePhase(HeadState(log)));
    if |log| > h {
      ApplyIds(r, log[h], issued);
    }
    if |log| > h + 1 {
      ApplyIds(Apply(r, log[h], issued).value, log[h + 1], issued);
    }
  }

  // -------------------------------------------- who may still dispatch a call

  /** Only an acknowledged request leaves a process able to dispatch. */
  lemma {:induction false} AckHolds(log: seq<Event>, x: Instance, slot: EventId)
    requires InstInv(log, x) && x.capture.Some? && Apply(Recovered(x.state, x.phase), x.capture.value.event, slot).Some?
    ensures var r := Apply(Recovered(x.state, x.phase), x.capture.value.event, slot).value;
            if x.capture.value.prepared.Some?
            then Holds(x) && r.state.model.Some? && r.state.model.value.call == x.state.model.value.call
            else r.phase.Ready? || r.phase.Unknown?
  {
    hide Publishable, StateInv, DropsComplete, ReplyFits, TailFits;
  }

  /** Only planning makes a process a holder, and only of a call nobody has seen. */
  lemma {:induction false} HolderMoves(w: World, x: Instance, a: Action)
    requires InstInv(w.log, x) && InstanceEnabled(w, x, a) && Holds(Moved(w, x, a))
    ensures a.Plan? ==> Moved(w, x, a).state.model.value.call == w.issued
    ensures !a.Plan? ==> Holds(x) && !a.Send? && Moved(w, x, a).state.model.value.call == x.state.model.value.call
  {
    hide Publishable, InstInv, Apply, Accepts, AcceptsSave, ReplyFits, HasOutstanding, Waiting, IntentLogged,
         OutcomeLogged, SafeReplay, LastComplete, OpenObligations, Settle;
    RetainedOwn(w.log, x);
    if a.AckCapture? {
      AckHolds(w.log, x, w.issued);
    }
  }

  lemma {:induction false} ResumeHoldsNothing(log: seq<Event>, issued: nat)
    requires LogInv(log) && TailInv(log) && Recover(log, issued).Some?
    ensures !Holds(Resumed(log, issued))
  {
    hide Publishable;
    RecoverCases(log, issued);
  }

  /** A call newly sent was held by its sender. */
  lemma {:induction false} SentByHolder(w: World, x: Instance, a: Action, call: CallId)
    requires WasSent(w.(sent := w.sent + Sent(x, a)), call)
    ensures WasSent(w, call) || (a.Send? && Holds(x) && x.state.model.value.call == call)
  {
    hide Publishable;
  }

  /** A holder after the step held its call before, or has just planned it; either way it was not sent. */
  lemma {:induction false} HolderKept(w: World, step: Step, i: nat)
    requires Inv(w) && Enabled(w, step) && !step.action.Resume?
    requires i in Do(w, step).live && Holds(Do(w, step).live[i])
    ensures var call := Do(w, step).live[i].state.model.value.call;
            && (if i == step.who && step.action.Plan? then call == w.issued
                else i in w.live && Holds(w.live[i]) && w.live[i].state.model.value.call == call)
            && !WasSent(Do(w, step), call)
  {
    hide Publishable, InstInv, Moved, InstanceEnabled, LogInv, TailInv, PermitsInv, RunsInv;
    var x := w.live[step.who];
    var v := Do(w, step);
    var call := v.live[i].state.model.value.call;
    if i == step.who {
      HolderMoves(w, x, step.action);
    }
    if WasSent(v, call) {
      assert WasSent(w.(sent := w.sent + Sent(x, step.action)), call);
      SentByHolder(w, x, step.action, call);
    }
  }

  lemma {:induction false} HoldersKeep(w: World, step: Step)
    requires Inv(w) && Enabled(w, step) && !step.action.Resume?
    ensures HoldersInv(Do(w, step))
  {
    hide Publishable, InstInv, Moved, InstanceEnabled, LogInv, TailInv, PermitsInv, RunsInv, SentInv;
    var v := Do(w, step);
    forall i | i in v.live && Holds(v.live[i])
      ensures !WasSent(v, v.live[i].state.model.value.call)
    {
      HolderKept(w, step, i);
    }
    forall i, j | i in v.live && j in v.live && i != j && Holds(v.live[i]) && Holds(v.live[j])
      ensures v.live[i].state.model.value.call != v.live[j].state.model.value.call
    {
      HolderKept(w, step, i);
      HolderKept(w, step, j);
    }
  }

  // ------------------------------------------------- what left the machine

  /** A process about to send has its request durable, with the wire it is about to send. */
  lemma {:induction false} SenderBacked(log: seq<Event>, x: Instance)
    requires InstInv(log, x) && Idle(x) && x.phase.Captured?
    ensures Sent(x, Send) == [Dispatch(x.state.model.value.call, x.phase.wire, x.phase.receipt, x.receipt)]
    ensures Backed(log, Sent(x, Send)[0])
  {
    hide Publishable;
  }

  lemma {:induction false} SentKeeps(w: World, step: Step)
    requires Inv(w) && Enabled(w, step) && !step.action.Resume?
    ensures SentInv(Do(w, step))
  {
    hide Publishable, InstInv, Moved, LogInv, TailInv, PermitsInv, RunsInv;
    var x := w.live[step.who];
    var v := Do(w, step);
    if step.action.Send? {
      SenderBacked(w.log, x);
      var d := Sent(x, Send)[0];
      assert v.sent == w.sent + [d];
      forall k | 0 <= k < |w.sent| ensures w.sent[k].call != d.call {
        assert Holds(x) && !WasSent(w, x.state.model.value.call);
      }
    } else {
      assert v.sent == w.sent;
    }
  }

  /** Only a newly accepted intent grants a permit. */
  lemma {:induction false} PermitMoves(w: World, x: Instance, a: Action)
    requires InstanceEnabled(w, x, a) && Moved(w, x, a).permit.Some?
    ensures || (Moved(w, x, a).permit == x.permit && !a.RunTool?)
            || (a.CommitIntent? && Moved(w, x, a).permit == Some(IntentEvent(x.state.tool.value).id))
  {
    hide Publishable;
  }

  lemma {:induction false} IdStays(log: seq<Event>, more: seq<Event>, id: EventId)
    requires IdLogged(log, id)
    ensures IdLogged(log + more, id)
  {
    hide Publishable;
    var k :| 0 <= k < |log| && log[k].id == id;
    assert (log + more)[k].id == id;
  }

  lemma {:induction false} IntentNew(w: World, x: Instance, a: Action)
    requires a.CommitIntent? && InstanceEnabled(w, x, a)
    ensures Appended(w, x, a) == [IntentEvent(x.state.tool.value)]
    ensures !IdLogged(w.log, IntentEvent(x.state.tool.value).id)
    ensures IdLogged(w.log + Appended(w, x, a), IntentEvent(x.state.tool.value).id)
  {
    hide Publishable;
    assert (w.log + Appended(w, x, a))[|w.log|].id == IntentEvent(x.state.tool.value).id;
  }

  /** A permit after the step was there before, or names an intent the log had never seen. */
  lemma {:induction false} PermitKept(w: World, step: Step, i: nat)
    requires Inv(w) && Enabled(w, step) && !step.action.Resume?
    requires i in Do(w, step).live && Do(w, step).live[i].permit.Some?
    ensures var id := Do(w, step).live[i].permit.value;
            && IdLogged(Do(w, step).log, id)
            && (|| (i in w.live && w.live[i].permit == Some(id) && !(i == step.who && step.action.RunTool?))
                || (i == step.who && step.action.CommitIntent? && !IdLogged(w.log, id)))
  {
    hide Publishable, InstInv, Moved, InstanceEnabled, LogInv, TailInv, HoldersInv, SentInv, RunsInv;
    var x := w.live[step.who];
    var id := Do(w, step).live[i].permit.value;
    if i == step.who {
      PermitMoves(w, x, step.action);
    }
    if i in w.live && w.live[i].permit == Some(id) {
      IdStays(w.log, Appended(w, x, step.action), id);
    } else {
      IntentNew(w, x, step.action);
    }
  }

  lemma {:induction false} PermitsKeep(w: World, step: Step)
    requires Inv(w) && Enabled(w, step) && !step.action.Resume?
    ensures PermitsInv(Do(w, step))
  {
    hide Publishable, InstInv, Moved, InstanceEnabled, LogInv, TailInv, HoldersInv, SentInv;
    var v := Do(w, step);
    var x := w.live[step.who];
    forall i | i in v.live && v.live[i].permit.Some? ensures IdLogged(v.log, v.live[i].permit.value) {
      PermitKept(w, step, i);
    }
    forall i, j | i in v.live && j in v.live && i != j && v.live[i].permit.Some? && v.live[j].permit.Some?
      ensures v.live[i].permit.value != v.live[j].permit.value
    {
      PermitKept(w, step, i);
      PermitKept(w, step, j);
    }
    forall i, k | i in v.live && v.live[i].permit.Some? && 0 <= k < |v.runs|
      ensures !FirstRun(v.runs[k], v.live[i].permit.value)
    {
      PermitKept(w, step, i);
      NewRun(w, x, step.action);
    }
  }

  /** A first execution spends its process's permit; a repetition has its ground. */
  lemma {:induction false} NewRun(w: World, x: Instance, a: Action)
    requires InstanceEnabled(w, x, a)
    ensures |Ran(x, a)| <= 1
    ensures |Ran(x, a)| == 1 && Ran(x, a)[0].replay.None? ==> a.RunTool? && x.permit == Some(Ran(x, a)[0].intent)
    ensures |Ran(x, a)| == 1 && Ran(x, a)[0].replay.Some? ==>
              SafeReplay(Ran(x, a)[0].replay.value) && IdLogged(w.log, Ran(x, a)[0].intent)
  {
    hide Publishable;
  }

  lemma {:induction false} RunsKeep(w: World, step: Step)
    requires Inv(w) && Enabled(w, step) && !step.action.Resume?
    ensures RunsInv(Do(w, step))
  {
    hide Publishable, InstInv, Moved, InstanceEnabled, LogInv, TailInv, HoldersInv, SentInv;
    var v := Do(w, step);
    var x := w.live[step.who];
    NewRun(w, x, step.action);
    forall k | 0 <= k < |v.runs| ensures IdLogged(v.log, v.runs[k].intent) {
      assert k < |w.runs| ==> v.runs[k] == w.runs[k];
      IdStays(w.log, Appended(w, x, step.action), v.runs[k].intent);
    }
  }

  // ----------------------------------------------------------- every run

  lemma {:induction false} ActKeeps(w: World, step: Step)
    requires Inv(w) && Enabled(w, step) && !step.action.Resume?
    ensures Inv(Do(w, step))
  {
    hide Publishable, InstInv, Moved, InstanceEnabled, LogInv, TailInv, HoldersInv, SentInv, PermitsInv, RunsInv,
         LogIssued;
    var x := w.live[step.who];
    var v := Do(w, step);
    LogKeeps(w, x, step.action);
    LogIdsKeep(w, x, step.action);
    forall i | i in v.live ensures InstInv(v.log, v.live[i]) && IdsIssued(v.live[i], v.issued) {
      if i == step.who {
        MoverKeeps(w, x, step.action);
        IdsKeep(w, x, step.action);
      }
      var y := if i == step.who then Moved(w, x, step.action) else w.live[i];
      InstStable(w.log, Appended(w, x, step.action), y);
    }
    HoldersKeep(w, step);
    SentKeeps(w, step);
    PermitsKeep(w, step);
    RunsKeep(w, step);
  }

  /** A world that differs by one more process, and by what the invariant does not speak of. */
  predicate Joined(w: World, v: World, i: nat, x: Instance) {
    && v.log == w.log && v.sent == w.sent && v.runs == w.runs
    && v.live == w.live[i := x] && v.issued == w.issued + 3
  }

  /** A process that holds no call and no permit joins without disturbing anyone. */
  lemma {:induction false} JoinsHolders(w: World, v: World, i: nat, x: Instance)
    requires HoldersInv(w) && i !in w.live && !Holds(x) && Joined(w, v, i, x)
    ensures HoldersInv(v)
  {
  }

  lemma {:induction false} JoinsPermits(w: World, v: World, i: nat, x: Instance)
    requires PermitsInv(w) && RunsInv(w) && SentInv(w) && LogIssued(w.log, w.issued) && i !in w.live && x.permit.None?
    requires Joined(w, v, i, x)
    ensures PermitsInv(v) && RunsInv(v) && SentInv(v) && LogIssued(v.log, v.issued)
  {
    hide Backed;
  }

  lemma {:induction false} ResumptionKeeps(w: World, step: Step)
    requires Inv(w) && Enabled(w, step) && step.action.Resume?
    ensures Inv(Do(w, step))
  {
    hide Publishable, InstInv, LogInv, TailInv, Resumed, Recover, InstanceEnabled, HoldersInv, PermitsInv, RunsInv,
         SentInv, LogIssued;
    ResumeKeeps(w.log, w.issued);
    ResumeIdsKeep(w.log, w.issued);
    ResumeHoldsNothing(w.log, w.issued);
    ResumedBare(w.log, w.issued);
    JoinsHolders(w, Do(w, step), step.who, Resumed(w.log, w.issued));
    JoinsPermits(w, Do(w, step), step.who, Resumed(w.log, w.issued));
  }

  lemma {:induction false} ResumedBare(log: seq<Event>, issued: nat)
    requires Head(log) > 0 && Recover(log, issued).Some?
    ensures Resumed(log, issued).permit.None?
  {
    hide Publishable;
  }

  lemma {:induction false} StepKeeps(w: World, step: Step)
    requires Inv(w) && Enabled(w, step)
    ensures Inv(Do(w, step))
  {
    hide Publishable, Inv, Do, Enabled;
    if step.action.Resume? {
      ResumptionKeeps(w, step);
    } else {
      ActKeeps(w, step);
    }
  }

  lemma {:induction false} BeginHolds(first: Checkpoint)
    requires FirstState(first)
    ensures Inv(Begin(first))
  {
    FirstPublishable(first);
    hide Publishable;
  }

  lemma {:induction false} FirstPublishable(first: Checkpoint)
    requires FirstState(first)
    ensures Publishable(first)
  {
  }

  /** Every world any run reaches is sound, whatever crashes, resumes and lost acknowledgements it went through. */
  lemma {:induction false} RunKeeps(first: Checkpoint, steps: seq<Step>)
    requires Legal(first, steps)
    ensures Inv(After(first, steps))
    decreases |steps|
  {
    hide Publishable;
    if |steps| == 0 {
      BeginHolds(first);
    } else {
      RunKeeps(first, steps[..|steps| - 1]);
      StepKeeps(After(first, steps[..|steps| - 1]), steps[|steps| - 1]);
    }
  }
}
