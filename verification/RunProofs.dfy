/** Every action of the owned run keeps its invariants. */
module RunProofs {
  import opened Wrappers
  import opened OwnedRun
  import opened Bounds
  import opened RunSteps
  import opened RunSafety

  // ------------------------------------------------ appending disturbs nobody

  lemma {:induction false} StateStable(log: seq<Event>, more: seq<Event>, s: Checkpoint, n: nat)
    requires StateInv(log, s, n)
    ensures StateInv(log + more, s, n)
  {
    hide Publishable;
    if s.model.Some? && s.model.value.wire.Some? {
      var k :| 0 <= k < |log| && IsRequest(log[k], s.model.value);
      assert (log + more)[k] == log[k];
    }
  }

  lemma {:induction false} InstStable(log: seq<Event>, more: seq<Event>, x: Instance)
    requires InstInv(log, x)
    ensures InstInv(log + more, x)
  {
    hide Publishable;
    if x.save.Some? {
      StateStable(log, more, x.state, x.state.next + 1);
    } else {
      StateStable(log, more, x.state, x.state.next);
    }
  }

  lemma {:induction false} PositionTaken(log: seq<Event>, p: nat)
    requires LogInv(log) && 0 < p <= |log|
    ensures log[p - 1].position == p
  {
    hide Publishable;
  }

  /** A position that is free is the next one, for any process that has not been overtaken. */
  lemma {:induction false} FreePosition(log: seq<Event>, e: Event)
    requires LogInv(log) && Accepts(log, e) && 0 < e.position <= |log| + 1
    ensures e.position == |log| + 1
  {
    hide Publishable;
    if e.position <= |log| {
      PositionTaken(log, e.position);
    }
  }

  /** An acknowledged event is found at its own position. */
  lemma {:induction false} FoundAt(log: seq<Event>, e: Event)
    requires LogInv(log) && e in log
    ensures 0 < e.position <= |log| && log[e.position - 1] == e
  {
    hide Publishable;
  }

  // ------------------------------------------------------ outstanding tool calls

  /** A message without proposals leaves a settled exchange settled. */
  lemma {:induction false} PlainMessageSettled(g: Group, m: Message)
    requires !HasWaiting(g) && m.toolCalls == []
    ensures !HasWaiting(WithMessage(g, m))
  {
    hide Publishable;
    forall call: ToolId ensures !Waiting(WithMessage(g, m), call) {
      assert !Waiting(g, call);
      if Asks(WithMessage(g, m), call) {
        assert Asks(g, call);
        var k :| 0 <= k < |g.messages| && g.messages[k].toolResult == Some(call);
        assert WithMessage(g, m).messages[k] == g.messages[k];
      }
    }
  }

  /** Closing an exchange changes no message of it. */
  lemma {:induction false} CompletionKeepsWaiting(g: Group, complete: bool)
    ensures HasWaiting(g.(complete := complete)) == HasWaiting(g)
  {
    hide Publishable;
    var h := g.(complete := complete);
    assert forall call: ToolId :: Waiting(g, call) == Waiting(h, call);
  }

  lemma {:induction false} ReplySettled(r: Recovered, e: Event)
    requires e.body.ModelCompleted? && ApplyReply(r, e).Some? && GroupsInv(r.state)
    ensures GroupsInv(ApplyReply(r, e).value.state)
  {
    hide Publishable;
    var s := r.state;
    var last := s.groups[|s.groups| - 1];
    var t := ApplyReply(r, e).value.state;
    if e.body.toolCalls == [] {
      PlainMessageSettled(last, Message(e.id, Assistant, e.body.toolCalls, None, e.body.size, true));
      var told := if e.body.size == 0 then last
                  else WithMessage(last, Message(e.id, Assistant, e.body.toolCalls, None, e.body.size, true));
      CompletionKeepsWaiting(told, true);
    }
  }

  /** A model event, or a user message, applied to a sound state gives a sound state. */
  lemma {:induction false} ApplySound(log: seq<Event>, r: Recovered, e: Event, slot: EventId)
    requires StateInv(log, r.state, r.state.next) && e in log && r.state.tool.None? && r.state.status.Active?
    requires Apply(r, e, slot).Some?
    ensures var t := Apply(r, e, slot).value.state;
            t.tool.None? && t.status.Active? && forall n :: StateInv(log, t, n)
  {
    hide Publishable;
    if e.body.ModelCompleted? {
      ReplySettled(r, e);
    } else if e.body.ModelRequested? {
      var t := Apply(r, e, slot).value.state;
      assert IsRequest(e, t.model.value);
    }
  }

  // ------------------------------------------------ the acting process, by action

  lemma {:induction false} PlanKeeps(log: seq<Event>, x: Instance, m: PendingModel, id: EventId)
    requires InstInv(log, x) && Idle(x) && x.phase.Ready? && x.state.tool.None?
    requires !LastComplete(x.state.groups) && !HasOutstanding(x.state.groups)
    requires m.wire.None? && m.interrupted.None?
    ensures InstInv(log, WithSave(x.(state := x.state.(model := Some(m)), phase := Planned), id))
  {
  }

  lemma {:induction false} EvictKeeps(log: seq<Event>, x: Instance, count: nat)
    requires InstInv(log, x) && Idle(x) && x.phase.Planned? && count <= |x.state.groups|
    requires forall k :: 0 <= k < count ==> x.state.groups[k].complete
    ensures InstInv(log, x.(state := x.state.(groups := x.state.groups[count..])))
  {
    hide Publishable;
  }

  lemma {:induction false} QueueSaveKeeps(log: seq<Event>, x: Instance, id: EventId)
    requires InstInv(log, x) && Idle(x) && (x.phase.Planned? || x.phase.Unknown?)
    ensures InstInv(log, WithSave(x, id))
  {
    hide Publishable;
  }

  lemma {:induction false} AckSaveKeeps(log: seq<Event>, x: Instance)
    requires LogInv(log) && InstInv(log, x) && x.save.Some? && x.save.value in log
    ensures InstInv(log, x.(state := x.save.value.body.checkpoint, receipt := x.save.value.position, save := None))
  {
    hide Publishable;
  }

  lemma {:induction false} QueueUserKeeps(log: seq<Event>, x: Instance, e: Event, count: nat)
    requires LogInv(log) && InstInv(log, x) && Idle(x) && x.phase.Ready? && LastComplete(x.state.groups)
    requires count <= |x.state.groups| && |x.state.groups| - count < MAX_GROUPS
    requires e.position == x.state.next && e.body.UserMessage? && FitsMessage(e.body.size)
    ensures InstInv(log, x.(state := x.state.(groups := x.state.groups[count..]), capture := Some(Capture(e, None))))
  {
    hide Publishable;
  }

  lemma {:induction false} QueueRequestKeeps(log: seq<Event>, x: Instance, wire: Wire)
    requires InstInv(log, x) && Idle(x) && x.phase.Planned?
    ensures var m := x.state.model.value;
            var e := Event(m.request, x.state.next, ModelRequested(Manifest(m.call, wire.digest, wire.length)));
            InstInv(log, x.(capture := Some(Capture(e, Some(wire)))))
  {
    hide Publishable;
  }

  /** An acknowledged request makes its call ready for the fence. */
  lemma {:induction false} AckRequestKeeps(log: seq<Event>, x: Instance, slot: EventId)
    requires LogInv(log) && InstInv(log, x) && x.capture.Some? && x.capture.value.prepared.Some?
    requires x.capture.value.event in log
    ensures var c := x.capture.value;
            var r := Apply(Recovered(x.state, x.phase), c.event, slot);
            && r.Some?
            && InstInv(log, x.(state := r.value.state, phase := Captured(c.prepared.value, c.event.position),
                               capture := None))
  {
    hide Publishable;
  }

  /** An acknowledged message or output is applied and its checkpoint retained. */
  lemma {:induction false} AckEventKeeps(log: seq<Event>, x: Instance, slot: EventId, id: EventId)
    requires LogInv(log) && InstInv(log, x) && x.capture.Some? && x.capture.value.prepared.None?
    requires x.capture.value.event in log && Apply(Recovered(x.state, x.phase), x.capture.value.event, slot).Some?
    ensures var r := Apply(Recovered(x.state, x.phase), x.capture.value.event, slot).value;
            InstInv(log, WithSave(x.(state := r.state, phase := r.phase, capture := None), id))
  {
    hide Publishable;
    ApplySound(log, Recovered(x.state, x.phase), x.capture.value.event, slot);
    FoundAt(log, x.capture.value.event);
  }

  /** A refused or never accepted call is dropped, and the drop is checkpointed. */
  lemma {:induction false} DropCallKeeps(log: seq<Event>, x: Instance, id: EventId)
    requires InstInv(log, x) && Idle(x) && (x.phase.Captured? || x.phase.Unknown?)
    ensures InstInv(log, WithSave(x.(state := x.state.(model := None), phase := Ready), id))
  {
    hide Publishable;
  }

  lemma {:induction false} SendKeeps(log: seq<Event>, x: Instance)
    requires InstInv(log, x) && Idle(x) && x.phase.Captured?
    ensures InstInv(log, x.(phase := Unknown))
  {
    hide Publishable;
  }

  lemma {:induction false} OutputKeeps(log: seq<Event>, x: Instance, e: Event)
    requires InstInv(log, x) && Idle(x) && x.phase.Unknown? && e.position == x.state.next
    requires RepliesTo(e, x.state.model.value)
    requires e.body.ModelCompleted? ==> ReplyFits(x.state.groups, e.body.toolCalls, e.body.size)
    ensures InstInv(log, x.(capture := Some(Capture(e, None))))
  {
    hide Publishable;
  }

  lemma {:induction false} ReviseKeeps(log: seq<Event>, x: Instance, t: Checkpoint, id: EventId)
    requires InstInv(log, x) && Idle(x) && x.phase.Ready? && x.state.tool.None? && Revises(x.state, t)
    ensures InstInv(log, WithSave(x.(state := t), id))
  {
    hide StateInv, GroupsInv, Revises, TailFits, DropsComplete, CaptureFits, OutcomeFits;
    BoundaryState(log, x);
    RevisedState(x.state, t);
    RevisedGroups(log, x.state, t);
  }

  /** At a known boundary nothing is pending, and the state is sound. */
  lemma {:induction false} BoundaryState(log: seq<Event>, x: Instance)
    requires InstInv(log, x) && Clear(x) && x.phase.Ready?
    ensures x.state.model.None? && GroupsInv(x.state)
  {
    hide GroupsInv, TailFits, DropsComplete, CaptureFits, OutcomeFits, ToolSlots, RequestLogged;
  }

  lemma {:induction false} RevisedState(s: Checkpoint, t: Checkpoint)
    requires Revises(s, t)
    ensures t == s.(profile := t.profile, obligations := t.obligations, groups := t.groups,
                    lastOutput := t.lastOutput, status := t.status)
    ensures t.groups == s.groups || t.groups == []
  {
    hide OpenObligations;
  }

  lemma {:induction false} RevisedGroups(log: seq<Event>, s: Checkpoint, t: Checkpoint)
    requires GroupsInv(s) && s.model.None? && s.tool.None? && t.model.None? && t.tool.None?
    requires t.groups == s.groups || t.groups == []
    ensures StateInv(log, t, t.next + 1)
  {
    hide HasWaiting;
  }

  lemma {:induction false} PlanToolKeeps(log: seq<Event>, x: Instance, t: PendingTool, id: EventId)
    requires InstInv(log, x) && Idle(x) && x.phase.Ready? && x.state.tool.None? && |x.state.groups| > 0
    requires Waiting(x.state.groups[|x.state.groups| - 1], t.call)
    requires t.requestAt == x.state.next + 1 && t.outcomeAt == x.state.next + 2
    ensures InstInv(log, WithSave(x.(state := x.state.(tool := Some(t))), id))
  {
  }

  lemma {:induction false} PermitKeeps(log: seq<Event>, x: Instance, permit: Option<EventId>)
    requires InstInv(log, x)
    ensures InstInv(log, x.(permit := permit))
  {
    hide Publishable;
  }

  lemma {:induction false} QueueOutcomeKeeps(log: seq<Event>, x: Instance, outcome: ToolOutcome, bytes: Option<Content>)
    requires InstInv(log, x) && Idle(x) && x.phase.Ready? && x.state.tool.Some?
    requires IntentLogged(log, x.state.tool.value)
    ensures InstInv(log, x.(toolCapture := Some(OutcomeEvent(x.state.tool.value, outcome, bytes)), permit := None))
  {
    hide Publishable;
  }

  lemma {:induction false} ReleaseKeeps(log: seq<Event>, x: Instance)
    requires InstInv(log, x) && x.toolCapture.Some?
    ensures InstInv(log, x.(toolCapture := None))
  {
  }

  lemma {:induction false} AckIntentKeeps(log: seq<Event>, x: Instance)
    requires LogInv(log) && InstInv(log, x) && x.phase.Ready? && x.state.tool.Some? && x.save.None? && x.capture.None?
    requires x.state.next == x.state.tool.value.requestAt && IntentLogged(log, x.state.tool.value)
    ensures InstInv(log, x.(state := x.state.(next := x.state.next + 1)))
  {
  }

  lemma {:induction false} ToolResultSettled(r: Recovered, e: Event, slot: EventId)
    requires e.body.ToolObserved? && ApplyToolOutcome(r, e, slot).Some? && GroupsInv(r.state)
    ensures GroupsInv(ApplyToolOutcome(r, e, slot).value.state)
  {
    hide Publishable;
  }

  /** The settled state carries no slot of the past: its tool is done, or its outcome has a new slot. */
  lemma {:induction false} SettleFits(log: seq<Event>, x: Instance, slot: EventId)
    requires InstInv(log, x) && x.phase.Ready? && x.state.tool.Some?
    requires x.save.None? && x.capture.None?
    requires IntentLogged(log, x.state.tool.value) && OutcomeLogged(log, x.state.tool.value)
    requires Settle(log, x.state, slot).Some?
    ensures var t := Settle(log, x.state, slot).value.state;
            && t.next == x.state.tool.value.outcomeAt + 1
            && t.revision == x.state.revision && t.model.None?
            && StateInv(log, t, t.next + 1)
  {
    hide Publishable;
  }

  lemma {:induction false} AckOutcomeKeeps(log: seq<Event>, x: Instance, slot: EventId, id: EventId)
    requires InstInv(log, x) && x.phase.Ready? && x.state.tool.Some?
    requires x.save.None? && x.capture.None?
    requires IntentLogged(log, x.state.tool.value) && OutcomeLogged(log, x.state.tool.value)
    requires Settle(log, x.state, slot).Some?
    ensures InstInv(log, WithSave(x.(state := Settle(log, x.state, slot).value.state, toolCapture := None), id))
  {
    hide Publishable;
    SettleFits(log, x, slot);
  }

  // ------------------------------------------------------------- resumption

  lemma {:induction false} ApplyAllTwo(r: Recovered, first: Event, second: Event, slot: EventId)
    ensures ApplyAll(r, [first], slot) == Apply(r, first, slot)
    ensures ApplyAll(r, [first, second], slot)
            == if Apply(r, first, slot).None? then None else Apply(Apply(r, first, slot).value, second, slot)
  {
    hide Publishable;
    assert [first, second][1..] == [second] && [first][1..] == [];
    if Apply(r, first, slot).Some? {
      assert ApplyAll(Apply(r, first, slot).value, [second], slot) == Apply(Apply(r, first, slot).value, second, slot);
    }
  }

  /** The replay of a run's tail, written out: it is never longer than a request and its result. */
  lemma {:induction false} RecoverCases(log: seq<Event>, slot: EventId)
    requires LogInv(log) && TailInv(log)
    ensures var h := Head(log);
            var r := Recovered(HeadState(log), ResumePhase(HeadState(log)));
            Recover(log, slot)
            == if |log| == h then Some(r)
               else if |log| == h + 1 then Apply(r, log[h], slot)
               else if Apply(r, log[h], slot).None? then None
               else Apply(Apply(r, log[h], slot).value, log[h + 1], slot)
  {
    hide Publishable;
    var h := Head(log);
    var r := Recovered(HeadState(log), ResumePhase(HeadState(log)));
    if |log| == h + 1 {
      assert log[h..] == [log[h]];
      ApplyAllTwo(r, log[h], log[h], slot);
    } else if |log| == h + 2 {
      assert log[h..] == [log[h], log[h + 1]];
      ApplyAllTwo(r, log[h], log[h + 1], slot);
    }
  }

  /** A replayed run with nothing reserved: whatever was replayed is retained for a checkpoint. */
  lemma {:induction false} ResumedSaving(log: seq<Event>, slot: EventId, r: Recovered)
    requires Head(log) > 0 && Recover(log, slot) == Some(r) && Head(log) < |log|
    requires r.state.next == |log| + 1 && r.state.revision == HeadState(log).revision && HeadState(log).status.Active?
    requires r.phase.Ready? ==> r.state.model.None?
    requires r.phase.Unknown? ==> r.state.model.Some? && r.state.model.value.wire.Some?
    requires r.phase.Ready? || r.phase.Unknown?
    requires StateInv(log, r.state, r.state.next + 1) && PositionAvailable(r.state)
    ensures InstInv(log, Resumed(log, slot))
  {
    hide Publishable;
  }

  lemma {:induction false} ResumeKeeps(log: seq<Event>, slot: EventId)
    requires LogInv(log) && TailInv(log) && Recover(log, slot).Some?
    ensures InstInv(log, Resumed(log, slot))
  {
    hide Publishable;
    var h := Head(log);
    var cp := HeadState(log);
    assert CheckpointInv(log, log[h - 1]);
    RecoverCases(log, slot);
    var r := Recovered(cp, ResumePhase(cp));
    if |log| == h {
    } else if cp.tool.None? {
      ApplySound(log, r, log[h], slot);
      if |log| == h + 2 {
        ApplySound(log, Apply(r, log[h], slot).value, log[h + 1], slot);
      }
      var done := Recover(log, slot).value;
      assert StateInv(log, done.state, done.state.next + 1);
      ResumedSaving(log, slot, done);
    } else {
      ResumeToolKeeps(log, slot);
    }
  }

  lemma {:induction false} ResumeToolKeeps(log: seq<Event>, slot: EventId)
    requires LogInv(log) && TailInv(log) && Recover(log, slot).Some?
    requires HeadState(log).tool.Some? && |log| > Head(log)
    ensures InstInv(log, Resumed(log, slot))
  {
    hide Publishable;
    var h := Head(log);
    var cp := HeadState(log);
    assert CheckpointInv(log, log[h - 1]);
    RecoverCases(log, slot);
    var r := Recovered(cp, Ready);
    var done := Recover(log, slot).value;
    if log[h].body.ToolRequested? && |log| == h + 1 {
      assert done == Recovered(cp.(next := cp.next + 1), Ready);
      assert Resumed(log, slot) == Instance(done.state, h, Ready, None, None, None, None);
    } else {
      var ready := if log[h].body.ToolObserved? then r else Apply(r, log[h], slot).value;
      ToolResultSettled(ready, log[|log| - 1], slot);
      assert StateInv(log, done.state, done.state.next + 1);
      ResumedSaving(log, slot, done);
    }
  }
}
