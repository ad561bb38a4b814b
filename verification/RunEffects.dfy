/** When each action is enabled and what it does to the process that takes it, one lemma to an action. */
module RunEffects {
  import opened Wrappers
  import opened OwnedRun
  import opened Bounds
  import opened RunSteps
  import opened RunSafety
  import RunProofs

  lemma {:induction false} CrashEffect(w: World, x: Instance)
    ensures InstanceEnabled(w, x, Crash) && Appended(w, x, Crash) == []
  {
  }

  /** What a process has retained, and the action that makes it durable. */
  predicate Retains(x: Instance, a: Action, e: Event) {
    || (a.CommitSave? && x.save == Some(e))
    || (a.CommitCapture? && x.capture.Some? && x.capture.value.event == e)
    || (a.CommitOutcome? && x.toolCapture == Some(e))
  }

  lemma {:induction false} CommitEffect(w: World, x: Instance, a: Action, e: Event)
    requires Retains(x, a, e) && (if a.CommitSave? then AcceptsSave(w.log, e) else Accepts(w.log, e))
    ensures InstanceEnabled(w, x, a) && Moved(w, x, a) == x && Appended(w, x, a) == [e]
  {
  }

  lemma {:induction false} AckSaveEffect(w: World, x: Instance)
    requires x.save.Some? && x.save.value in w.log && x.save.value.body.Checkpointed?
    ensures InstanceEnabled(w, x, AckSave) && Appended(w, x, AckSave) == []
    ensures Moved(w, x, AckSave)
            == x.(state := x.save.value.body.checkpoint, receipt := x.save.value.position, save := None)
  {
  }

  lemma {:induction false} AckCaptureEffect(w: World, x: Instance)
    requires x.capture.Some? && x.capture.value.event in w.log
    requires Apply(Recovered(x.state, x.phase), x.capture.value.event, w.issued).Some?
    ensures InstanceEnabled(w, x, AckCapture) && Appended(w, x, AckCapture) == []
    ensures var c := x.capture.value;
            var r := Apply(Recovered(x.state, x.phase), c.event, w.issued).value;
            Moved(w, x, AckCapture)
            == if c.prepared.Some? then x.(state := r.state, phase := Captured(c.prepared.value, c.event.position),
                                           capture := None)
               else WithSave(x.(state := r.state, phase := r.phase, capture := None), w.issued + 2)
  {
  }

  /** What applying a retained event does to the state that retained it. */
  lemma {:induction false} CaptureApplies(log: seq<Event>, x: Instance, slot: EventId)
    requires InstInv(log, x) && x.capture.Some?
    ensures x.save.None? && x.toolCapture.None? && x.state.tool.None? && x.state.status.Active?
    ensures x.capture.value.event.position == x.state.next
    ensures var r := Apply(Recovered(x.state, x.phase), x.capture.value.event, slot);
            r.Some? ==>
              && r.value.state.tool.None? && r.value.state.status.Active?
              && (x.capture.value.prepared.Some? ==>
                    && x.phase.Planned? && r.value.state.model.Some?
                    && r.value.state == x.state.(model := r.value.state.model, next := x.state.next + 1))
  {
    hide DropsComplete, ReplyFits, TailFits, RequestLogged, HasOutstanding, OutcomeFits;
  }

  lemma {:induction false} PlanEffect(w: World, x: Instance)
    requires Idle(x) && x.phase.Ready? && x.state.tool.None?
    requires !LastComplete(x.state.groups) && !HasOutstanding(x.state.groups)
    ensures InstanceEnabled(w, x, Plan) && Appended(w, x, Plan) == []
    ensures var model := Some(PendingModel(w.issued, w.issued + 1, None, None));
            Moved(w, x, Plan) == WithSave(x.(state := x.state.(model := model), phase := Planned), w.issued + 2)
  {
  }

  lemma {:induction false} EvictEffect(w: World, x: Instance, count: nat)
    requires Idle(x) && x.phase.Planned? && count <= |x.state.groups|
    requires DropsComplete(x.state.groups, x.state.groups[count..])
    ensures InstanceEnabled(w, x, Evict(count)) && Appended(w, x, Evict(count)) == []
    ensures Moved(w, x, Evict(count)) == x.(state := x.state.(groups := x.state.groups[count..]))
  {
  }

  lemma {:induction false} QueueSaveEffect(w: World, x: Instance)
    requires Idle(x) && (x.phase.Planned? || x.phase.Unknown?)
    ensures InstanceEnabled(w, x, QueueSave) && Appended(w, x, QueueSave) == []
    ensures Moved(w, x, QueueSave) == WithSave(x, w.issued + 2)
  {
  }

  lemma {:induction false} QueueUserEffect(w: World, x: Instance, size: nat, count: nat)
    requires Idle(x) && x.phase.Ready? && LastComplete(x.state.groups) && 1 <= size <= MAX_TEXT
    requires count <= |x.state.groups| && |x.state.groups| - count < MAX_GROUPS
    ensures InstanceEnabled(w, x, QueueUser(size, count)) && Appended(w, x, QueueUser(size, count)) == []
    ensures Moved(w, x, QueueUser(size, count))
            == x.(state := x.state.(groups := x.state.groups[count..]),
                  capture := Some(Capture(Event(w.issued, x.state.next, UserMessage(size)), None)))
  {
  }

  lemma {:induction false} QueueRequestEffect(w: World, x: Instance, manifest: Manifest, wire: Wire)
    requires Idle(x) && x.phase.Planned? && x.state.model.Some?
    requires manifest == Manifest(x.state.model.value.call, wire.digest, wire.length)
    ensures var a := QueueRequest(manifest, wire);
            && InstanceEnabled(w, x, a) && Appended(w, x, a) == []
            && var e := Event(x.state.model.value.request, x.state.next, ModelRequested(manifest));
               Moved(w, x, a) == x.(capture := Some(Capture(e, Some(wire))))
  {
  }

  lemma {:induction false} AdmitEffect(w: World, x: Instance, native: bool)
    requires Idle(x) && x.phase.Captured? && x.state.model.Some?
    requires native ==> Admits(w.log, x.receipt, x.state.model.value.call, x.phase.receipt, x.phase.wire)
    ensures InstanceEnabled(w, x, Admit(native)) && Appended(w, x, Admit(native)) == []
            && Moved(w, x, Admit(native)) == x
  {
    hide Admits;
  }

  lemma {:induction false} OpenEffect(w: World, x: Instance)
    requires x.save.None? && Legible(x.state)
    ensures InstanceEnabled(w, x, Action.Open) && Appended(w, x, Action.Open) == [] && Moved(w, x, Action.Open) == x
  {
    hide Legible;
  }

  /** A rejected fence and a provider that never accepted the request both drop the call. */
  lemma {:induction false} DropCallEffect(w: World, x: Instance, a: Action)
    requires Idle(x)
    requires || (a.RejectFence? && x.phase.Captured?)
             || (a.NotAccepted? && x.phase.Unknown? && HasWire(x.state, a.digest)
                 && x.state.model.value.interrupted.None?)
    ensures InstanceEnabled(w, x, a) && Appended(w, x, a) == []
    ensures Moved(w, x, a) == WithSave(x.(state := x.state.(model := None), phase := Ready), w.issued + 2)
  {
  }

  lemma {:induction false} SendEffect(w: World, x: Instance)
    requires Idle(x) && x.phase.Captured? && x.state.model.Some?
    ensures InstanceEnabled(w, x, Send) && Appended(w, x, Send) == []
    ensures Moved(w, x, Send) == x.(phase := Unknown)
  {
  }

  lemma {:induction false} QueueReplyEffect(w: World, x: Instance, digest: Digest, calls: seq<ToolId>, size: nat)
    requires Idle(x) && x.phase.Unknown? && HasWire(x.state, digest) && ReplyFits(x.state.groups, calls, size)
    ensures var a := QueueReply(digest, calls, size);
            && InstanceEnabled(w, x, a) && Appended(w, x, a) == []
            && var m := x.state.model.value;
               var e := Event(w.issued, x.state.next, ModelCompleted(m.call, m.request, calls, size));
               Moved(w, x, a) == x.(capture := Some(Capture(e, None)))
  {
  }

  lemma {:induction false} QueueAbortEffect(w: World, x: Instance, output: Digest)
    requires Idle(x) && x.phase.Unknown? && x.state.model.Some?
    ensures InstanceEnabled(w, x, QueueAbort(output)) && Appended(w, x, QueueAbort(output)) == []
    ensures var m := x.state.model.value;
            var e := Event(w.issued, x.state.next, ModelAborted(m.call, m.request, output));
            Moved(w, x, QueueAbort(output)) == x.(capture := Some(Capture(e, None)))
  {
  }

  lemma {:induction false} ReviseEffect(w: World, x: Instance, t: Checkpoint)
    requires Idle(x) && x.phase.Ready? && x.state.tool.None? && Revises(x.state, t)
    ensures InstanceEnabled(w, x, Revise(t)) && Appended(w, x, Revise(t)) == []
    ensures Moved(w, x, Revise(t)) == WithSave(x.(state := t), w.issued + 2)
  {
  }

  lemma {:induction false} PlanToolEffect(w: World, x: Instance, call: ToolId, digest: Digest)
    requires Idle(x) && x.phase.Ready? && x.state.tool.None? && |x.state.groups| > 0
    requires Waiting(x.state.groups[|x.state.groups| - 1], call)
    ensures InstanceEnabled(w, x, PlanTool(call, digest)) && Appended(w, x, PlanTool(call, digest)) == []
    ensures var t := PendingTool(call, digest, w.issued, x.state.next + 1, w.issued + 1, x.state.next + 2);
            Moved(w, x, PlanTool(call, digest)) == WithSave(x.(state := x.state.(tool := Some(t))), w.issued + 2)
  {
  }

  lemma {:induction false} CommitIntentEffect(w: World, x: Instance, granted: bool)
    requires Idle(x) && x.phase.Ready? && x.state.tool.Some? && Accepts(w.log, IntentEvent(x.state.tool.value))
    ensures InstanceEnabled(w, x, CommitIntent(granted))
    ensures Appended(w, x, CommitIntent(granted)) == [IntentEvent(x.state.tool.value)]
    ensures Moved(w, x, CommitIntent(granted))
            == x.(permit := if granted then Some(x.state.tool.value.request) else None)
  {
  }

  lemma {:induction false} RunToolEffect(w: World, x: Instance)
    requires Idle(x) && x.phase.Ready? && x.state.tool.Some? && x.permit == Some(x.state.tool.value.request)
    ensures InstanceEnabled(w, x, RunTool) && Appended(w, x, RunTool) == []
    ensures Moved(w, x, RunTool) == x.(permit := None)
  {
  }

  lemma {:induction false} ReplayToolEffect(w: World, x: Instance, ground: Ground)
    requires Idle(x) && x.phase.Ready? && x.state.tool.Some? && IntentLogged(w.log, x.state.tool.value)
    requires SafeReplay(ground)
    ensures InstanceEnabled(w, x, ReplayTool(ground)) && Appended(w, x, ReplayTool(ground)) == []
    ensures Moved(w, x, ReplayTool(ground)) == x
  {
  }

  lemma {:induction false} QueueOutcomeEffect(w: World, x: Instance, outcome: ToolOutcome, bytes: Option<Content>)
    requires Idle(x) && x.phase.Ready? && x.state.tool.Some? && IntentLogged(w.log, x.state.tool.value)
    ensures InstanceEnabled(w, x, QueueOutcome(outcome, bytes)) && Appended(w, x, QueueOutcome(outcome, bytes)) == []
    ensures Moved(w, x, QueueOutcome(outcome, bytes))
            == x.(toolCapture := Some(OutcomeEvent(x.state.tool.value, outcome, bytes)), permit := None)
  {
  }

  lemma {:induction false} ReleaseOutcomeEffect(w: World, x: Instance)
    requires x.toolCapture.Some? && x.toolCapture.value in w.log
    ensures InstanceEnabled(w, x, ReleaseOutcome) && Appended(w, x, ReleaseOutcome) == []
    ensures Moved(w, x, ReleaseOutcome) == x.(toolCapture := None)
  {
  }

  lemma {:induction false} AckIntentEffect(w: World, x: Instance)
    requires x.phase.Ready? && x.state.tool.Some? && x.save.None? && x.capture.None?
    requires x.state.next == x.state.tool.value.requestAt && IntentLogged(w.log, x.state.tool.value)
    ensures InstanceEnabled(w, x, AckIntent) && Appended(w, x, AckIntent) == []
    ensures Moved(w, x, AckIntent) == x.(state := x.state.(next := x.state.next + 1))
  {
  }

  lemma {:induction false} AckOutcomeEffect(w: World, x: Instance)
    requires x.phase.Ready? && x.state.tool.Some? && x.save.None? && x.capture.None?
    requires IntentLogged(w.log, x.state.tool.value) && OutcomeLogged(w.log, x.state.tool.value)
    requires Settle(w.log, x.state, w.issued).Some?
    ensures InstanceEnabled(w, x, AckOutcome) && Appended(w, x, AckOutcome) == []
    ensures Moved(w, x, AckOutcome)
            == WithSave(x.(state := Settle(w.log, x.state, w.issued).value.state, toolCapture := None), w.issued + 2)
  {
  }

  // --------------------------------------------------- what a quiet process knows

  lemma {:induction false} ReadyFits(log: seq<Event>, x: Instance)
    requires InstInv(log, x) && Clear(x) && x.phase.Ready?
    ensures x.state.model.None? && OnlyLastOpen(x.state.groups)
    ensures LastComplete(x.state.groups) ==> x.state.tool.None? && !HasOutstanding(x.state.groups)
    ensures x.state.tool.Some? && !IntentLogged(log, x.state.tool.value) ==>
              x.state.next == x.state.tool.value.requestAt
  {
    hide HasOutstanding, RequestLogged, OnlyLastOpen, DropsComplete, TailFits, LastComplete, IntentLogged;
  }

  lemma {:induction false} PhaseKnown(log: seq<Event>, x: Instance)
    requires InstInv(log, x)
    ensures PhaseFits(x)
    ensures x.state.model.Some? ==>
              x.state.tool.None? && !LastComplete(x.state.groups) && !HasOutstanding(x.state.groups)
  {
    hide HasOutstanding, RequestLogged, TailFits, DropsComplete, CaptureFits, OutcomeFits;
  }

  /** A retained checkpoint is retained alone. */
  lemma {:induction false} RetainedAlone(log: seq<Event>, x: Instance)
    requires InstInv(log, x) && x.save.Some?
    ensures x.capture.None? && x.toolCapture.None?
  {
    hide StateInv, PhaseFits;
  }

  /** A retained outcome belongs to the pending tool, whose intent is durable; once accepted it fills its slot. */
  lemma {:induction false} OutcomeKnown(log: seq<Event>, x: Instance)
    requires LogInv(log) && InstInv(log, x) && x.toolCapture.Some? && x.toolCapture.value in log
    ensures x.phase.Ready? && x.state.tool.Some? && x.state.status.Active? && x.save.None? && x.capture.None?
    ensures IntentLogged(log, x.state.tool.value) && OutcomeLogged(log, x.state.tool.value)
    ensures log[x.state.tool.value.outcomeAt - 1] == x.toolCapture.value
  {
    hide StateInv, StableInv, PhaseFits, CheckpointInv;
    OutcomeRetained(log, x);
  }

  lemma {:induction false} OutcomeRetained(log: seq<Event>, x: Instance)
    requires InstInv(log, x) && x.toolCapture.Some?
    ensures x.save.None? && x.capture.None? && OutcomeFits(log, x)
  {
    hide StateInv, OutcomeFits;
  }

  /** After a settled or unknown outcome the next position is free for a checkpoint. */
  lemma {:induction false} SettledRoom(log: seq<Event>, x: Instance, slot: EventId)
    requires x.state.tool.Some? && IntentLogged(log, x.state.tool.value) && OutcomeLogged(log, x.state.tool.value)
    requires Settle(log, x.state, slot).Some?
    ensures PositionAvailable(Settle(log, x.state, slot).value.state)
    ensures Settle(log, x.state, slot).value.state.status == x.state.status
    ensures TookOutcome(x.state, Bump(Settle(log, x.state, slot).value.state), log[x.state.tool.value.outcomeAt - 1])
  {
  }

  /**
    A known outcome adds its one message to the open exchange and frees the tool; an unknown one keeps the same
    intent and reserves the position after the checkpoint for the next observation.
   */
  ghost predicate TookOutcome(s: Checkpoint, t: Checkpoint, e: Event) {
    && s.tool.Some? && e.body.ToolObserved? && e.position == s.tool.value.outcomeAt
    && var at := e.position;
       if e.body.outcome.ToolUnknown? then
         && t.tool.Some?
         && t == s.(tool := Some(s.tool.value.(outcome := t.tool.value.outcome, outcomeAt := at + 2)),
                    revision := s.revision + 1, next := at + 2)
       else
         && |s.groups| > 0 && e.body.bytes.Some?
         && var last := s.groups[|s.groups| - 1];
            var message := Message(e.id, Tool, [], Some(s.tool.value.call), e.body.bytes.value.size,
                                   e.body.bytes.value.text);
            t == s.(groups := s.groups[..|s.groups| - 1] + [last.(messages := last.messages + [message])],
                    tool := None, revision := s.revision + 1, next := at + 2)
  }
}
