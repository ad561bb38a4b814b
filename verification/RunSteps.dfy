/**
  The owned run as a transition system. A world is one native owner's log, every
  process that currently believes it owns the run, and two records no process can
  see: the model calls that left the machine and the tool executions that did.
  Each action is one durable or remote effect, or one change of volatile state; a
  process may crash between any two actions, and a new one may resume while an
  older one is still alive. A resumed process is opening until its originals have been
  rendered again; until then all it can do is publish the checkpoint it resumed with.
 */
module RunSteps {
  import opened Wrappers
  import opened OwnedRun
  import opened Bounds

  /** A capture request kept until acknowledged; `prepared` is set for model requests. */
  datatype Capture = Capture(event: Event, prepared: Option<Wire>)

  /** Volatile state of one process; `permit` says its tool intent was newly accepted. */
  datatype Instance = Instance(
    state: Checkpoint, receipt: nat, phase: Phase,
    capture: Option<Capture>, save: Option<Event>, toolCapture: Option<Event>, permit: Option<EventId>)

  /** A model call handed to the provider: its bytes, its captured request and the checkpoint it ran under. */
  datatype Dispatch = Dispatch(call: CallId, wire: Wire, request: nat, receipt: nat)

  datatype ReplaySafety = TargetIdempotency | VersionCompareAndSwap | NoAutomaticReplay

  /** What a target reported before an execution was repeated. */
  datatype Ground = Ground(safety: ReplaySafety, expected: Option<nat>, current: Option<nat>)

  datatype ToolRun = ToolRun(intent: EventId, replay: Option<Ground>)

  /** A fence accepted this call under this captured request; `native` if it was the owner's own fence. */
  datatype Admission = Admission(call: CallId, request: nat, native: bool)

  datatype World = World(
    log: seq<Event>, live: map<nat, Instance>, issued: nat, sent: seq<Dispatch>, runs: seq<ToolRun>,
    opening: set<nat>, admitted: map<nat, Admission>)

  datatype Action =
    | Resume | Open | Crash
    | Plan | Evict(count: nat) | QueueSave | CommitSave | AckSave
    | QueueUser(size: nat, count: nat)
    | QueueRequest(manifest: Manifest, wire: Wire) | CommitCapture | AckCapture
    | Admit(native: bool) | RejectFence | Send
    | QueueReply(digest: Digest, toolCalls: seq<ToolId>, size: nat) | QueueAbort(output: Digest)
    | NotAccepted(digest: Digest)
    | Revise(state: Checkpoint)
    | PlanTool(call: ToolId, digest: Digest)
    | CommitIntent(granted: bool) | RunTool | ReplayTool(ground: Ground) | Forget
    | QueueOutcome(outcome: ToolOutcome, bytes: Option<Content>) | CommitOutcome | ReleaseOutcome
    | AckIntent | AckOutcome

  /** One step of a run: which process acts, and how. */
  datatype Step = Step(who: nat, action: Action)

  // ---------------------------------------------------------------- the owner

  /** A new event is accepted at an unused position under an unused identity. */
  predicate Accepts(log: seq<Event>, e: Event) {
    forall k :: 0 <= k < |log| ==> log[k].id != e.id && log[k].position != e.position
  }

  /** A checkpoint is published by compare-and-swap on the revision of an active head. */
  predicate AcceptsSave(log: seq<Event>, e: Event) {
    && Accepts(log, e)
    && e.body.Checkpointed?
    && Head(log) > 0
    && HeadState(log).status.Active?
    && HeadState(log).revision + 1 == e.body.checkpoint.revision
    && Publishable(e.body.checkpoint)
  }

  /** The owner's fence for a model call, without its lease and capability checks. */
  predicate Admits(log: seq<Event>, receipt: nat, call: CallId, at: nat, wire: Wire) {
    && receipt == Head(log) > 0
    && 0 < at <= |log|
    && HeadState(log).status.Active?
    && HeadState(log).model == Some(PendingModel(call, log[at - 1].id, None, None))
    && log[at - 1].position == HeadState(log).next
    && log[at - 1].body == ModelRequested(Manifest(call, wire.digest, wire.length))
  }

  // --------------------------------------------------------------- the process

  predicate Clear(x: Instance) {
    x.capture.None? && x.save.None? && x.toolCapture.None?
  }

  /** `ensure_active`: nothing retained and the run not terminal. */
  predicate Idle(x: Instance) {
    Clear(x) && x.state.status.Active?
  }

  function SaveEvent(s: Checkpoint, id: EventId): Event {
    Event(id, s.next, Checkpointed(Bump(s)))
  }

  function WithSave(x: Instance, id: EventId): Instance {
    x.(save := Some(SaveEvent(x.state, id)))
  }

  /** A reply may propose at most 32 calls, none of them already resident. */
  predicate ReplyFits(groups: seq<Group>, calls: seq<ToolId>, size: nat) {
    && |calls| <= MAX_CALLS
    && Distinct(calls)
    && (forall g, c :: 0 <= g < |groups| && c in calls ==> !Asks(groups[g], c))
    && (calls != [] ==> size > 0)
  }

  function IntentEvent(t: PendingTool): Event {
    Event(t.request, t.requestAt, ToolRequested(t.call, t.request, t.action))
  }

  function OutcomeEvent(t: PendingTool, outcome: ToolOutcome, bytes: Option<Content>): Event {
    Event(t.outcome, t.outcomeAt, ToolObserved(t.call, t.request, t.action, outcome, bytes))
  }

  predicate IntentLogged(log: seq<Event>, t: PendingTool) {
    0 < t.requestAt <= |log| && log[t.requestAt - 1] == IntentEvent(t)
  }

  predicate OutcomeLogged(log: seq<Event>, t: PendingTool) {
    && 0 < t.outcomeAt <= |log|
    && log[t.outcomeAt - 1].id == t.outcome
    && log[t.outcomeAt - 1].body.ToolObserved?
  }

  /** When an accepted intent may run again: the target promises to deduplicate, or its version still matches. */
  predicate SafeReplay(g: Ground) {
    || g.safety.TargetIdempotency?
    || (g.safety.VersionCompareAndSwap? && g.expected.Some? && g.expected == g.current)
  }

  /** The changes a host may make at a known boundary: reader, obligations, or the end of the run. */
  predicate Revises(s: Checkpoint, t: Checkpoint) {
    && t == s.(profile := t.profile, obligations := t.obligations, groups := t.groups,
               lastOutput := t.lastOutput, status := t.status)
    && (t.status.Active? ==> t.groups == s.groups && t.lastOutput == s.lastOutput)
    && (!t.status.Active? ==> t.groups == [] && t.lastOutput.None? && OpenObligations(t.obligations) == 0)
  }

  /** The state after applying a captured tool outcome, and its intent when that is still unapplied. */
  function Settle(log: seq<Event>, s: Checkpoint, slot: EventId): Option<Recovered>
    requires s.tool.Some? && IntentLogged(log, s.tool.value) && OutcomeLogged(log, s.tool.value)
  {
    var t := s.tool.value;
    var r := Recovered(s, Ready);
    var ready := if s.next == t.requestAt then Apply(r, log[t.requestAt - 1], slot) else Some(r);
    if ready.None? then None else Apply(ready.value, log[t.outcomeAt - 1], slot)
  }

  // ----------------------------------------------------------------- actions

  /** What a process may do while it is still opening. */
  predicate Opens(a: Action) {
    a.Open? || a.Crash? || a.CommitSave? || a.AckSave?
  }

  ghost predicate Enabled(w: World, step: Step) {
    if step.action.Resume? then
      step.who !in w.live && Head(w.log) > 0 && Recover(w.log, w.issued).Some?
    else
      && step.who in w.live && InstanceEnabled(w, w.live[step.who], step.action)
      && (step.who in w.opening ==> Opens(step.action))
      && (step.action.Open? ==> step.who in w.opening)
      && (step.action.Send? ==> HoldsAdmission(w, step.who))
  }

  /** The last thing this process did was to have this very call and request accepted by its fence. */
  predicate HoldsAdmission(w: World, who: nat) {
    && who in w.live && who in w.admitted
    && w.live[who].phase.Captured? && w.live[who].state.model.Some?
    && w.admitted[who].call == w.live[who].state.model.value.call
    && w.admitted[who].request == w.live[who].phase.receipt
  }

  ghost predicate InstanceEnabled(w: World, x: Instance, a: Action) {
    var s := x.state;
    match a
    case Resume => false
    case Crash => true
    case Open => x.save.None? && Legible(s)
    case Plan =>
      Idle(x) && x.phase.Ready? && s.tool.None? && !LastComplete(s.groups) && !HasOutstanding(s.groups)
    case Evict(count) =>
      && Idle(x) && x.phase.Planned? && count <= |s.groups|
      && forall k :: 0 <= k < count ==> s.groups[k].complete
    case QueueSave => Idle(x) && (x.phase.Planned? || x.phase.Unknown?)
    case CommitSave => x.save.Some? && AcceptsSave(w.log, x.save.value)
    case AckSave => x.save.Some? && x.save.value in w.log && x.save.value.body.Checkpointed?
    case QueueUser(size, count) =>
      && Idle(x) && x.phase.Ready? && LastComplete(s.groups) && 1 <= size <= MAX_TEXT
      && count <= |s.groups| && |s.groups| - count < MAX_GROUPS
    case QueueRequest(manifest, wire) =>
      && Idle(x) && x.phase.Planned? && s.model.Some?
      && manifest.call == s.model.value.call && manifest.digest == wire.digest && manifest.length == wire.length
    case CommitCapture => x.capture.Some? && Accepts(w.log, x.capture.value.event)
    case AckCapture =>
      && x.capture.Some? && x.capture.value.event in w.log
      && Apply(Recovered(s, x.phase), x.capture.value.event, w.issued).Some?
    case Admit(native) =>
      && Idle(x) && x.phase.Captured? && s.model.Some?
      && (native ==> Admits(w.log, x.receipt, s.model.value.call, x.phase.receipt, x.phase.wire))
    case RejectFence => Idle(x) && x.phase.Captured?
    case Send => Idle(x) && x.phase.Captured? && s.model.Some?
    case QueueReply(digest, calls, size) =>
      Idle(x) && x.phase.Unknown? && HasWire(s, digest) && ReplyFits(s.groups, calls, size)
    case QueueAbort(_) => Idle(x) && x.phase.Unknown? && s.model.Some?
    case NotAccepted(digest) =>
      Idle(x) && x.phase.Unknown? && HasWire(s, digest) && s.model.value.interrupted.None?
    case Revise(t) => Idle(x) && x.phase.Ready? && s.tool.None? && Revises(s, t)
    case PlanTool(call, _) =>
      && Idle(x) && x.phase.Ready? && s.tool.None? && |s.groups| > 0
      && Waiting(s.groups[|s.groups| - 1], call)
    case CommitIntent(_) =>
      Idle(x) && x.phase.Ready? && s.tool.Some? && Accepts(w.log, IntentEvent(s.tool.value))
    case RunTool => Idle(x) && x.phase.Ready? && s.tool.Some? && x.permit == Some(s.tool.value.request)
    case ReplayTool(ground) =>
      Idle(x) && x.phase.Ready? && s.tool.Some? && IntentLogged(w.log, s.tool.value) && SafeReplay(ground)
    case Forget => true
    case QueueOutcome(_, _) =>
      Idle(x) && x.phase.Ready? && s.tool.Some? && IntentLogged(w.log, s.tool.value)
    case CommitOutcome => x.toolCapture.Some? && Accepts(w.log, x.toolCapture.value)
    case ReleaseOutcome => x.toolCapture.Some? && x.toolCapture.value in w.log
    case AckIntent =>
      && x.phase.Ready? && s.tool.Some? && x.save.None? && x.capture.None?
      && s.next == s.tool.value.requestAt && IntentLogged(w.log, s.tool.value)
    case AckOutcome =>
      && x.phase.Ready? && s.tool.Some? && x.save.None? && x.capture.None?
      && IntentLogged(w.log, s.tool.value) && OutcomeLogged(w.log, s.tool.value)
      && Settle(w.log, s, w.issued).Some?
  }

  predicate HasWire(s: Checkpoint, digest: Digest) {
    s.model.Some? && s.model.value.wire == Some(digest)
  }

  /** The process a resume creates: an uncaptured plan is dropped, and anything replayed is checkpointed. */
  function Resumed(log: seq<Event>, issued: nat): Instance
    requires Head(log) > 0 && Recover(log, issued).Some?
  {
    var r := Recover(log, issued).value;
    var x := Instance(r.state, Head(log), r.phase, None, None, None, None);
    if r.phase.Planned? then
      WithSave(x.(state := r.state.(model := None), phase := Ready), issued + 2)
    else if Head(log) < |log| && PositionAvailable(r.state) then WithSave(x, issued + 2)
    else x
  }

  /** The acting process after the action. */
  function Moved(w: World, x: Instance, a: Action): Instance
    requires InstanceEnabled(w, x, a)
  {
    var s := x.state;
    match a
    case Crash | Resume | Open | Admit(_) | CommitSave | CommitCapture | CommitOutcome | ReplayTool(_) => x
    case Plan =>
      WithSave(x.(state := s.(model := Some(PendingModel(w.issued, w.issued + 1, None, None))), phase := Planned),
               w.issued + 2)
    case Evict(count) => x.(state := s.(groups := s.groups[count..]))
    case QueueSave => WithSave(x, w.issued + 2)
    case AckSave => x.(state := x.save.value.body.checkpoint, receipt := x.save.value.position, save := None)
    case QueueUser(size, count) =>
      x.(state := s.(groups := s.groups[count..]),
         capture := Some(Capture(Event(w.issued, s.next, UserMessage(size)), None)))
    case QueueRequest(manifest, wire) =>
      var e := Event(s.model.value.request, s.next, ModelRequested(manifest));
      x.(capture := Some(Capture(e, Some(wire))))
    case AckCapture =>
      var c := x.capture.value;
      var r := Apply(Recovered(s, x.phase), c.event, w.issued).value;
      if c.prepared.Some? then
        x.(state := r.state, phase := Captured(c.prepared.value, c.event.position), capture := None)
      else WithSave(x.(state := r.state, phase := r.phase, capture := None), w.issued + 2)
    case RejectFence | NotAccepted(_) => WithSave(x.(state := s.(model := None), phase := Ready), w.issued + 2)
    case Send => x.(phase := Unknown)
    case QueueReply(_, calls, size) =>
      var m := s.model.value;
      x.(capture := Some(Capture(Event(w.issued, s.next, ModelCompleted(m.call, m.request, calls, size)), None)))
    case QueueAbort(output) =>
      var m := s.model.value;
      x.(capture := Some(Capture(Event(w.issued, s.next, ModelAborted(m.call, m.request, output)), None)))
    case Revise(t) => WithSave(x.(state := t), w.issued + 2)
    case PlanTool(call, digest) =>
      var t := PendingTool(call, digest, w.issued, s.next + 1, w.issued + 1, s.next + 2);
      WithSave(x.(state := s.(tool := Some(t))), w.issued + 2)
    case CommitIntent(granted) => x.(permit := if granted then Some(s.tool.value.request) else None)
    case RunTool | Forget => x.(permit := None)
    case QueueOutcome(outcome, bytes) =>
      x.(toolCapture := Some(OutcomeEvent(s.tool.value, outcome, bytes)), permit := None)
    case ReleaseOutcome => x.(toolCapture := None)
    case AckIntent => x.(state := s.(next := s.next + 1))
    case AckOutcome =>
      WithSave(x.(state := Settle(w.log, s, w.issued).value.state, toolCapture := None), w.issued + 2)
  }

  /** What the owner appends, if the action is a durable one. */
  function Appended(w: World, x: Instance, a: Action): seq<Event>
    requires InstanceEnabled(w, x, a)
  {
    match a
    case CommitSave => [x.save.value]
    case CommitCapture => [x.capture.value.event]
    case CommitIntent(_) => [IntentEvent(x.state.tool.value)]
    case CommitOutcome => [x.toolCapture.value]
    case _ => []
  }

  function Sent(x: Instance, a: Action): seq<Dispatch> {
    if a.Send? && x.phase.Captured? && x.state.model.Some?
    then [Dispatch(x.state.model.value.call, x.phase.wire, x.phase.receipt, x.receipt)] else []
  }

  function Ran(x: Instance, a: Action): seq<ToolRun> {
    if x.state.tool.None? then []
    else if a.RunTool? then [ToolRun(x.state.tool.value.request, None)]
    else if a.ReplayTool? then [ToolRun(x.state.tool.value.request, Some(a.ground))]
    else []
  }

  /** An admission is the acting process's last action or it is gone. */
  function Admitted(w: World, step: Step): map<nat, Admission>
    requires Enabled(w, step)
  {
    if step.action.Admit? then
      var x := w.live[step.who];
      w.admitted[step.who := Admission(x.state.model.value.call, x.phase.receipt, step.action.native)]
    else w.admitted - {step.who}
  }

  function Do(w: World, step: Step): World
    requires Enabled(w, step)
  {
    var opening := if step.action.Resume? then w.opening + {step.who}
                   else if step.action.Open? || step.action.Crash? then w.opening - {step.who} else w.opening;
    if step.action.Resume? then
      w.(live := w.live[step.who := Resumed(w.log, w.issued)], issued := w.issued + 3, opening := opening,
         admitted := Admitted(w, step))
    else
      var x := w.live[step.who];
      World(w.log + Appended(w, x, step.action),
            if step.action.Crash? then w.live - {step.who}
            else w.live[step.who := Moved(w, x, step.action)],
            w.issued + 3,
            w.sent + Sent(x, step.action),
            w.runs + Ran(x, step.action),
            opening, Admitted(w, step))
  }

  // -------------------------------------------------------------------- runs

  /** A run begins once its first checkpoint is durable: nothing resident, nothing pending. */
  predicate FirstState(s: Checkpoint) {
    && s.revision == 1 && s.next == 2 && s.groups == [] && s.obligations == []
    && 0 < |s.identity.scopes| <= MAX_SCOPES
    && s.model.None? && s.tool.None? && s.lastOutput.None? && s.status.Active?
    && EncodedSize(s) <= MAX_ENCODED
  }

  function Begin(first: Checkpoint): World {
    World([Event(0, 1, Checkpointed(first))], map[], 1, [], [], {}, map[])
  }

  ghost predicate Legal(first: Checkpoint, steps: seq<Step>)
    decreases |steps|, 0
  {
    && FirstState(first)
    && (|steps| > 0 ==>
          && Legal(first, steps[..|steps| - 1])
          && Enabled(After(first, steps[..|steps| - 1]), steps[|steps| - 1]))
  }

  /** The world a legal run reaches. */
  ghost function After(first: Checkpoint, steps: seq<Step>): World
    requires Legal(first, steps)
    decreases |steps|, 1
  {
    if |steps| == 0 then Begin(first)
    else Do(After(first, steps[..|steps| - 1]), steps[|steps| - 1])
  }
}
