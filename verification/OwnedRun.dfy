/**
  The durable vocabulary of one owned agent run: captured events, operational
  checkpoints, how one captured event advances a checkpoint, and how a process
  rebuilds its state from the last checkpoint and the events captured after it.
 */
module OwnedRun {
  import opened Wrappers

  type EventId = nat
  type CallId = nat
  type ToolId = nat
  type Digest = nat

  const MAX_TEXT: nat := 1048576
  const MAX_TAIL: nat := 64
  const MAX_GROUPS: nat := 64

  datatype Role = User | Assistant | Tool

  /** Captured bytes: how many, and whether they are valid UTF-8. */
  datatype Content = Content(size: nat, text: bool)

  /** A resident message, named by its captured original, with what that original holds. */
  datatype Message = Message(
    source: EventId, role: Role, toolCalls: seq<ToolId>, toolResult: Option<ToolId>, size: nat, text: bool)

  /** One user/assistant/tool exchange; only a complete one may leave the hot window. */
  datatype Group = Group(sequence: nat, messages: seq<Message>, complete: bool)

  datatype ObligationStatus = Open | Done | Dropped

  /**
    A name as the original checks it: whether trimming leaves nothing, whether it has control characters, its length.
   */
  datatype Name = Name(key: nat, blank: bool, control: bool, bytes: nat)

  /**
    A scoped obligation. `sourced` says that its source can be read under its recorded digests, `text` that it is valid
    UTF-8; `width` is its encoded length apart from its status.
   */
  datatype Obligation =
    Obligation(id: Name, scope: nat, status: ObligationStatus, size: nat, sourced: bool, text: bool, width: nat)

  /** The run's fixed identity: its scopes, and its encoded length. */
  datatype Identity = Identity(scopes: set<nat>, width: nat)

  /** The reader a run is bound to: whether it can represent tool results, and its encoded length. */
  datatype Profile = Profile(key: nat, tools: bool, width: nat)

  datatype PendingModel =
    PendingModel(call: CallId, request: EventId, wire: Option<Digest>, interrupted: Option<EventId>)

  /** A tool intent, with the producer positions reserved for its request and its outcome. */
  datatype PendingTool =
    PendingTool(call: ToolId, action: Digest, request: EventId, requestAt: nat, outcome: EventId, outcomeAt: nat)

  datatype Status = Active | Completed | Cancelled

  datatype Checkpoint = Checkpoint(
    identity: Identity, revision: nat, next: nat, profile: Profile, groups: seq<Group>, obligations: seq<Obligation>,
    model: Option<PendingModel>, tool: Option<PendingTool>, lastOutput: Option<EventId>, status: Status)

  datatype Manifest = Manifest(call: CallId, digest: Digest, length: nat)

  datatype ToolOutcome = ToolCompleted | ToolFailed | ToolUnknown

  datatype Body =
    | UserMessage(size: nat)
    | ModelRequested(manifest: Manifest)
    | ModelCompleted(call: CallId, request: EventId, toolCalls: seq<ToolId>, size: nat)
    | ModelAborted(call: CallId, request: EventId, output: Digest)
    | ToolRequested(tool: ToolId, intent: EventId, action: Digest)
    | ToolObserved(tool: ToolId, intent: EventId, action: Digest, outcome: ToolOutcome, bytes: Option<Content>)
    | Checkpointed(checkpoint: Checkpoint)

  /** An accepted event; `position` is its place in the run's producer sequence. */
  datatype Event = Event(id: EventId, position: nat, body: Body)

  /** The exact bytes prepared for one call: their digest and their length. */
  datatype Wire = Wire(digest: Digest, length: nat)

  datatype Phase = Ready | Planned | Captured(wire: Wire, receipt: nat) | Unknown

  datatype Recovered = Recovered(state: Checkpoint, phase: Phase)

  // ---------------------------------------------------------------- groups

  predicate LastComplete(groups: seq<Group>) {
    |groups| == 0 || groups[|groups| - 1].complete
  }

  /** Only the last exchange may still be open. */
  predicate OnlyLastOpen(groups: seq<Group>) {
    forall k :: 0 <= k < |groups| - 1 ==> groups[k].complete
  }

  /** `kept` is `full` without some of its leading complete groups. */
  predicate DropsComplete(full: seq<Group>, kept: seq<Group>) {
    && |kept| <= |full|
    && kept == full[|full| - |kept|..]
    && forall k :: 0 <= k < |full| - |kept| ==> full[k].complete
  }

  function Replaced(groups: seq<Group>, last: Group): seq<Group>
    requires |groups| > 0
  {
    groups[..|groups| - 1] + [last]
  }

  function WithMessage(group: Group, message: Message): Group {
    group.(messages := group.messages + [message])
  }

  predicate FitsMessage(size: nat) {
    1 <= size <= MAX_TEXT
  }

  predicate FitsContent(bytes: Option<Content>) {
    bytes.Some? && FitsMessage(bytes.value.size)
  }

  // ----------------------------------------------------------- proposed calls

  predicate Distinct(calls: seq<ToolId>) {
    forall i, j :: 0 <= i < j < |calls| ==> calls[i] != calls[j]
  }

  predicate Answers(group: Group, call: ToolId) {
    exists k :: 0 <= k < |group.messages| && group.messages[k].toolResult == Some(call)
  }

  predicate Asks(group: Group, call: ToolId) {
    exists k :: 0 <= k < |group.messages| && call in group.messages[k].toolCalls
  }

  predicate Waiting(group: Group, call: ToolId) {
    Asks(group, call) && !Answers(group, call)
  }

  ghost predicate HasWaiting(group: Group) {
    exists call :: Waiting(group, call)
  }

  /** Some call proposed in the current exchange has no result yet. */
  ghost predicate HasOutstanding(groups: seq<Group>) {
    |groups| > 0 && HasWaiting(groups[|groups| - 1])
  }

  // ----------------------------------------------------------- checkpoints

  /** A checkpoint may not take the producer position a tool outcome has reserved. */
  predicate PositionAvailable(s: Checkpoint) {
    s.tool.Some? ==> s.tool.value.outcomeAt > s.next
  }

  /** The state a checkpoint event carries: it advances the revision and takes one position. */
  function Bump(s: Checkpoint): Checkpoint {
    s.(revision := s.revision + 1, next := s.next + 1)
  }

  // ---------------------------------------------- one captured event applied

  /** `apply_original`: advance the state by one captured event, or refuse it. */
  function Apply(r: Recovered, e: Event, slot: EventId): Option<Recovered> {
    if e.position != r.state.next then None
    else match e.body
      case UserMessage(_) => ApplyUser(r, e)
      case ModelRequested(_) => ApplyRequest(r, e)
      case ModelCompleted(_, _, _, _) => ApplyReply(r, e)
      case ModelAborted(_, _, _) => ApplyAbort(r, e)
      case ToolRequested(_, _, _) => ApplyToolRequest(r, e)
      case ToolObserved(_, _, _, _, _) => ApplyToolOutcome(r, e, slot)
      case Checkpointed(_) => None
  }

  function ApplyUser(r: Recovered, e: Event): Option<Recovered>
    requires e.body.UserMessage?
  {
    var s := r.state;
    if s.model.Some? || !LastComplete(s.groups) || !FitsMessage(e.body.size) then None
    else
      var sequence := if |s.groups| == 0 then 1 else s.groups[|s.groups| - 1].sequence + 1;
      var group := Group(sequence, [Message(e.id, User, [], None, e.body.size, true)], false);
      Some(Recovered(s.(groups := s.groups + [group], next := s.next + 1), r.phase))
  }

  function ApplyRequest(r: Recovered, e: Event): Option<Recovered>
    requires e.body.ModelRequested?
  {
    var s := r.state;
    if s.model.None? || e.id != s.model.value.request || e.body.manifest.call != s.model.value.call then None
    else
      var model := s.model.value.(wire := Some(e.body.manifest.digest));
      Some(Recovered(s.(model := Some(model), next := s.next + 1), Unknown))
  }

  function ApplyReply(r: Recovered, e: Event): Option<Recovered>
    requires e.body.ModelCompleted?
  {
    var s := r.state;
    if || s.model.None? || s.model.value.wire.None?
       || e.body.request != s.model.value.request || e.body.call != s.model.value.call
       || |s.groups| == 0 || e.body.size > MAX_TEXT
    then None
    else
      var last := s.groups[|s.groups| - 1];
      var told := if e.body.size == 0 then last
                  else WithMessage(last, Message(e.id, Assistant, e.body.toolCalls, None, e.body.size, true));
      var groups := Replaced(s.groups, told.(complete := e.body.toolCalls == []));
      Some(Recovered(s.(groups := groups, model := None, lastOutput := Some(e.id), next := s.next + 1), Ready))
  }

  function ApplyAbort(r: Recovered, e: Event): Option<Recovered>
    requires e.body.ModelAborted?
  {
    var s := r.state;
    if || s.model.None? || s.model.value.wire.None?
       || e.body.request != s.model.value.request || e.body.call != s.model.value.call
    then None
    else
      var model := s.model.value.(interrupted := Some(e.id));
      Some(Recovered(s.(model := Some(model), next := s.next + 1), Unknown))
  }

  predicate NamesTool(e: Event, t: PendingTool)
    requires e.body.ToolRequested? || e.body.ToolObserved?
  {
    e.body.tool == t.call && e.body.intent == t.request && e.body.action == t.action
  }

  function ApplyToolRequest(r: Recovered, e: Event): Option<Recovered>
    requires e.body.ToolRequested?
  {
    var s := r.state;
    if || s.tool.None? || !NamesTool(e, s.tool.value)
       || e.id != s.tool.value.request || e.position != s.tool.value.requestAt
    then None
    else Some(r.(state := s.(next := s.next + 1)))
  }

  /** An unknown outcome reserves a new slot, leaving one position for a checkpoint. */
  function ApplyToolOutcome(r: Recovered, e: Event, slot: EventId): Option<Recovered>
    requires e.body.ToolObserved?
  {
    var s := r.state;
    if || s.tool.None? || !NamesTool(e, s.tool.value)
       || e.id != s.tool.value.outcome || e.position != s.tool.value.outcomeAt
    then None
    else if e.body.outcome.ToolUnknown? then
      var tool := s.tool.value.(outcome := slot, outcomeAt := e.position + 2);
      Some(r.(state := s.(tool := Some(tool), next := s.next + 1)))
    else if !FitsContent(e.body.bytes) || |s.groups| == 0 then None
    else
      var last := s.groups[|s.groups| - 1];
      var bytes := e.body.bytes.value;
      var result := Message(e.id, Tool, [], Some(s.tool.value.call), bytes.size, bytes.text);
      var groups := Replaced(s.groups, WithMessage(last, result));
      Some(r.(state := s.(groups := groups, tool := None, next := s.next + 1)))
  }

  function ApplyAll(r: Recovered, events: seq<Event>, slot: EventId): Option<Recovered>
    decreases |events|
  {
    if events == [] then Some(r)
    else
      var first := Apply(r, events[0], slot);
      if first.None? then None else ApplyAll(first.value, events[1..], slot)
  }

  // ------------------------------------------------------------- the log head

  /** Position of the last checkpoint in the log, or 0 when there is none. */
  function Head(log: seq<Event>): (r: nat)
    ensures r <= |log|
    ensures r > 0 ==> log[r - 1].body.Checkpointed?
    ensures forall k :: r <= k < |log| ==> !log[k].body.Checkpointed?
  {
    if |log| == 0 then 0
    else if log[|log| - 1].body.Checkpointed? then |log|
    else Head(log[..|log| - 1])
  }

  lemma HeadIs(log: seq<Event>, r: nat)
    requires 0 < r <= |log| && log[r - 1].body.Checkpointed?
    requires forall k :: r <= k < |log| ==> !log[k].body.Checkpointed?
    ensures Head(log) == r
  {
  }

  function HeadState(log: seq<Event>): Checkpoint
    requires Head(log) > 0
  {
    log[Head(log) - 1].body.checkpoint
  }

  function ResumePhase(s: Checkpoint): Phase {
    if s.model.None? then Ready else if s.model.value.wire.Some? then Unknown else Planned
  }

  /** `resume` up to its first checkpoint: load the head, replay the tail, refuse a long tail. */
  function Recover(log: seq<Event>, slot: EventId): Option<Recovered>
    requires Head(log) > 0
  {
    var tail := log[Head(log)..];
    if |tail| > MAX_TAIL then None
    else ApplyAll(Recovered(HeadState(log), ResumePhase(HeadState(log))), tail, slot)
  }
}
