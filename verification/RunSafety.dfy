/**
  What every step of a run keeps. The facts about one process are facts about the
  prefix of the log it has seen, so appending never disturbs them: that is why a
  process left behind by a newer one can do no harm.
 */
module RunSafety {
  import opened Wrappers
  import opened OwnedRun
  import opened Bounds
  import opened RunSteps

  // --------------------------------------------------- facts about one state

  /** Resident exchanges: one open at most, none closed with work outstanding, none pending once terminal. */
  ghost predicate GroupsInv(s: Checkpoint) {
    && OnlyLastOpen(s.groups)
    && (LastComplete(s.groups) ==> !HasOutstanding(s.groups))
    && (s.model.Some? ==> !LastComplete(s.groups) && !HasOutstanding(s.groups) && s.tool.None?)
    && (s.tool.Some? ==> !LastComplete(s.groups))
    && (!s.status.Active? ==> s.model.None? && s.tool.None?)
  }

  /** The request a pending call names is durable, with the wire it claims. */
  ghost predicate RequestLogged(log: seq<Event>, m: PendingModel) {
    exists k :: 0 <= k < |log| && IsRequest(log[k], m)
  }

  predicate IsRequest(e: Event, m: PendingModel) {
    && e.id == m.request
    && e.body.ModelRequested?
    && e.body.manifest.call == m.call
    && m.wire == Some(e.body.manifest.digest)
  }

  /** Where a tool's reserved positions lie for a state whose next free position is `n`. */
  predicate ToolSlots(log: seq<Event>, t: PendingTool, n: nat) {
    || (t.requestAt == n && t.outcomeAt == n + 1)
    || (t.requestAt < n && t.outcomeAt == n && IntentLogged(log, t))
  }

  ghost predicate StateInv(log: seq<Event>, s: Checkpoint, n: nat) {
    && GroupsInv(s)
    && (s.model.Some? && s.model.value.wire.Some? ==> RequestLogged(log, s.model.value))
    && (s.model.Some? && s.model.value.wire.None? ==> s.model.value.interrupted.None?)
    && (s.tool.Some? ==> ToolSlots(log, s.tool.value, n))
  }

  // ------------------------------------------------- facts about one process

  predicate PhaseFits(x: Instance) {
    match x.phase
    case Ready => x.state.model.None?
    case Planned => x.state.model.Some? && x.state.model.value.wire.None?
    case Captured(wire, _) =>
      x.state.model.Some? && x.state.model.value.wire == Some(wire.digest) && x.state.model.value.interrupted.None?
    case Unknown => x.state.model.Some? && x.state.model.value.wire.Some?
  }

  /** While a checkpoint is retained, nothing else is, and it is a checkpoint of the current state. */
  ghost predicate SavingInv(log: seq<Event>, x: Instance, cp: Checkpoint)
    requires x.save.Some?
  {
    && x.capture.None? && x.toolCapture.None? && !x.phase.Captured?
    && cp.status.Active?
    && x.save.value.position == x.state.next
    && x.save.value.body == Checkpointed(Bump(x.state))
    && StateInv(log, x.state, x.state.next + 1)
  }

  /** How far the state has moved past its last checkpoint: not at all, past a request, or past an intent. */
  predicate TailFits(log: seq<Event>, x: Instance, cp: Checkpoint)
    requires 1 <= x.receipt < x.state.next <= |log| + 1
  {
    var s := x.state;
    if s.next == x.receipt + 1 then
      !x.phase.Captured? && s.model == cp.model
    else
      && s.next == x.receipt + 2
      && ((x.phase.Ready? && s.tool.Some? && log[x.receipt] == IntentEvent(s.tool.value))
          || PastRequest(log[x.receipt], x, cp))
  }

  predicate PastRequest(e: Event, x: Instance, cp: Checkpoint) {
    && (x.phase.Captured? || x.phase.Unknown?)
    && x.state.model.Some?
    && IsRequest(e, x.state.model.value)
    && x.state.model.value.interrupted.None?
    && cp.model == Some(x.state.model.value.(wire := None))
    && (x.phase.Captured? ==>
          && x.phase.receipt == x.receipt + 1
          && e.body.manifest.length == x.phase.wire.length)
  }

  ghost predicate CaptureFits(x: Instance)
    requires x.capture.Some?
  {
    var s := x.state;
    var c := x.capture.value;
    && x.toolCapture.None?
    && s.status.Active?
    && c.event.position == s.next
    && match x.phase
       case Ready =>
         && s.next == x.receipt + 1 && s.tool.None? && c.prepared.None?
         && c.event.body.UserMessage? && FitsMessage(c.event.body.size)
         && LastComplete(s.groups) && |s.groups| < MAX_GROUPS
       case Planned =>
         && s.model.Some? && c.prepared.Some?
         && c.event.id == s.model.value.request
         && c.event.body == ModelRequested(Manifest(s.model.value.call, c.prepared.value.digest,
                                                    c.prepared.value.length))
       case Captured(_, _) => false
       case Unknown =>
         && s.model.Some? && c.prepared.None?
         && (|| (&& c.event.body.ModelCompleted?
                 && c.event.body.call == s.model.value.call && c.event.body.request == s.model.value.request
                 && ReplyFits(s.groups, c.event.body.toolCalls, c.event.body.size))
             || (&& c.event.body.ModelAborted?
                 && c.event.body.call == s.model.value.call && c.event.body.request == s.model.value.request))
  }

  predicate OutcomeFits(log: seq<Event>, x: Instance)
    requires x.toolCapture.Some?
  {
    && x.phase.Ready? && x.state.tool.Some? && x.state.status.Active?
    && IntentLogged(log, x.state.tool.value)
    && x.toolCapture.value.body.ToolObserved?
    && x.toolCapture.value
       == OutcomeEvent(x.state.tool.value, x.toolCapture.value.body.outcome, x.toolCapture.value.body.bytes)
  }

  /** With no checkpoint retained, the state is the last checkpoint moved by its tail and by eviction alone. */
  ghost predicate StableInv(log: seq<Event>, x: Instance, cp: Checkpoint)
    requires 1 <= x.receipt < x.state.next <= |log| + 1
  {
    var s := x.state;
    && StateInv(log, s, s.next)
    && s == cp.(next := s.next, model := s.model, groups := s.groups)
    && TailFits(log, x, cp)
    && DropsComplete(cp.groups, s.groups)
    && (x.phase.Ready? && x.capture.None? ==> s.groups == cp.groups)
    && (x.capture.Some? ==> CaptureFits(x))
    && (x.toolCapture.Some? ==> OutcomeFits(log, x))
    && (s.status.Active? || Clear(x))
  }

  ghost predicate InstInv(log: seq<Event>, x: Instance) {
    && 1 <= x.receipt < x.state.next <= |log| + 1
    && log[x.receipt - 1].body.Checkpointed?
    && var cp := log[x.receipt - 1].body.checkpoint;
    && x.state.revision == cp.revision
    && PhaseFits(x)
    && if x.save.Some? then SavingInv(log, x, cp) else StableInv(log, x, cp)
  }

  /** Every identity a process holds was issued before. */
  predicate IdsIssued(x: Instance, issued: nat) {
    && (x.state.model.Some? ==> x.state.model.value.call < issued && x.state.model.value.request < issued)
    && (x.state.tool.Some? ==> x.state.tool.value.request < issued && x.state.tool.value.outcome < issued)
    && (x.save.Some? ==> x.save.value.id < issued)
    && (x.capture.Some? ==> x.capture.value.event.id < issued)
  }

  // ---------------------------------------------------- facts about the log

  ghost predicate CheckpointInv(log: seq<Event>, e: Event)
    requires e.body.Checkpointed?
  {
    && e.body.checkpoint.next == e.position + 1
    && Publishable(e.body.checkpoint)
    && StateInv(log, e.body.checkpoint, e.body.checkpoint.next)
  }

  /** Positions run without a gap, and every checkpoint ever published is sound. */
  ghost predicate LogInv(log: seq<Event>) {
    && |log| > 0
    && log[0].body.Checkpointed?
    && (forall k :: 0 <= k < |log| ==> log[k].position == k + 1)
    && (forall k :: 0 <= k < |log| && log[k].body.Checkpointed? ==> CheckpointInv(log, log[k]))
  }

  predicate LogIssued(log: seq<Event>, issued: nat) {
    forall k :: 0 <= k < |log| ==> log[k].id < issued && (log[k].body.Checkpointed? ==>
      && (log[k].body.checkpoint.model.Some? ==>
            log[k].body.checkpoint.model.value.call < issued && log[k].body.checkpoint.model.value.request < issued)
      && (log[k].body.checkpoint.tool.Some? ==>
            log[k].body.checkpoint.tool.value.request < issued && log[k].body.checkpoint.tool.value.outcome < issued))
  }

  predicate RepliesTo(e: Event, m: PendingModel) {
    (e.body.ModelCompleted? || e.body.ModelAborted?) && e.body.call == m.call && e.body.request == m.request
  }

  predicate ObservesTool(e: Event, t: PendingTool) {
    e.body.ToolObserved? && e == OutcomeEvent(t, e.body.outcome, e.body.bytes)
  }

  /** The first event that may follow a checkpoint. */
  predicate FirstFits(cp: Checkpoint, e: Event) {
    && cp.status.Active?
    && match e.body
       case UserMessage(size) =>
         cp.model.None? && cp.tool.None? && LastComplete(cp.groups) && FitsMessage(size)
       case ModelRequested(m) => cp.model == Some(PendingModel(m.call, e.id, None, None))
       case ModelCompleted(_, _, _, _) =>
         cp.model.Some? && cp.model.value.wire.Some? && RepliesTo(e, cp.model.value)
       case ModelAborted(_, _, _) =>
         cp.model.Some? && cp.model.value.wire.Some? && RepliesTo(e, cp.model.value)
       case ToolRequested(_, _, _) =>
         cp.tool.Some? && e == IntentEvent(cp.tool.value)
       case ToolObserved(_, _, _, _, _) =>
         cp.tool.Some? && cp.tool.value.requestAt < cp.next && ObservesTool(e, cp.tool.value)
       case Checkpointed(_) => false
  }

  /** The second event that may follow a checkpoint, after a first one that left work open. */
  predicate SecondFits(cp: Checkpoint, first: Event, e: Event) {
    || (first.body.ModelRequested? && cp.model.Some? && RepliesTo(e, cp.model.value))
    || (first.body.ToolRequested? && cp.tool.Some? && ObservesTool(e, cp.tool.value))
  }

  /** What may follow the last checkpoint: nothing, one event, or a request and its result. */
  ghost predicate TailInv(log: seq<Event>) {
    && Head(log) > 0
    && |log| <= Head(log) + 2
    && (|log| > Head(log) ==> FirstFits(HeadState(log), log[Head(log)]))
    && (|log| > Head(log) + 1 ==> SecondFits(HeadState(log), log[Head(log)], log[Head(log) + 1]))
  }

  // --------------------------------------------------- facts about the world

  /** This process may still dispatch the call it holds. */
  predicate Holds(x: Instance) {
    (x.phase.Planned? || x.phase.Captured?) && x.state.model.Some?
  }

  predicate WasSent(w: World, call: CallId) {
    exists k :: 0 <= k < |w.sent| && w.sent[k].call == call
  }

  /** A call has one holder at most, and none once it has left the machine. */
  ghost predicate HoldersInv(w: World) {
    && (forall i, j :: i in w.live && j in w.live && i != j && Holds(w.live[i]) && Holds(w.live[j])
          ==> w.live[i].state.model.value.call != w.live[j].state.model.value.call)
    && (forall i :: i in w.live && Holds(w.live[i]) ==> !WasSent(w, w.live[i].state.model.value.call))
  }

  /**
    A dispatch is backed by the log: the checkpoint that planned the call, with its wire still unknown,
    and right after it the captured request with the same call, the same digest and the same length.
   */
  predicate Backed(log: seq<Event>, d: Dispatch) {
    && 0 < d.receipt < d.request == d.receipt + 1 <= |log|
    && log[d.request - 1].body == ModelRequested(Manifest(d.call, d.wire.digest, d.wire.length))
    && log[d.receipt - 1].body.Checkpointed?
    && log[d.receipt - 1].body.checkpoint.model == Some(PendingModel(d.call, log[d.request - 1].id, None, None))
  }

  ghost predicate SentInv(w: World) {
    && (forall k :: 0 <= k < |w.sent| ==> w.sent[k].call < w.issued && Backed(w.log, w.sent[k]))
    && (forall i, j :: 0 <= i < j < |w.sent| ==> w.sent[i].call != w.sent[j].call)
  }

  predicate IdLogged(log: seq<Event>, id: EventId) {
    exists k :: 0 <= k < |log| && log[k].id == id
  }

  predicate FirstRun(r: ToolRun, intent: EventId) {
    r.replay.None? && r.intent == intent
  }

  /** A permit is unique, belongs to a durable intent, and has not been used. */
  ghost predicate PermitsInv(w: World) {
    && (forall i :: i in w.live && w.live[i].permit.Some? ==> IdLogged(w.log, w.live[i].permit.value))
    && (forall i, j :: i in w.live && j in w.live && i != j && w.live[i].permit.Some? && w.live[j].permit.Some?
          ==> w.live[i].permit.value != w.live[j].permit.value)
    && (forall i, k :: i in w.live && w.live[i].permit.Some? && 0 <= k < |w.runs|
          ==> !FirstRun(w.runs[k], w.live[i].permit.value))
  }

  ghost predicate RunsInv(w: World) {
    && (forall k :: 0 <= k < |w.runs| ==> IdLogged(w.log, w.runs[k].intent))
    && (forall k :: 0 <= k < |w.runs| && w.runs[k].replay.Some? ==> SafeReplay(w.runs[k].replay.value))
    && (forall i, j :: 0 <= i < j < |w.runs| && w.runs[i].replay.None? && w.runs[j].replay.None?
          ==> w.runs[i].intent != w.runs[j].intent)
  }

  ghost predicate Inv(w: World) {
    && LogInv(w.log)
    && LogIssued(w.log, w.issued)
    && TailInv(w.log)
    && (forall i :: i in w.live ==> InstInv(w.log, w.live[i]) && IdsIssued(w.live[i], w.issued))
    && HoldersInv(w)
    && SentInv(w)
    && PermitsInv(w)
    && RunsInv(w)
  }
}
