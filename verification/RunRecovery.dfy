/**
  Recovery of an owned run: exactly when a crashed run can be resumed, and what a resume
  restores.
 */
module RunRecovery {
  import opened Wrappers
  import opened OwnedRun
  import opened Bounds
  import opened RunSteps
  import opened RunSafety
  import opened RunProofs
  import opened RunInvariant
  import opened RunContent

  /**
    A resume completes: the tail replays, the owner accepts the checkpoint this calls for, and every resident
    original can be rendered again.
   */
  ghost predicate Resumable(w: World) {
    && Head(w.log) > 0
    && Recover(w.log, w.issued).Some?
    && var x := Resumed(w.log, w.issued);
       && (x.save.Some? ==> AcceptsSave(w.log, x.save.value))
       && Legible(x.state)
  }

  // -------------------------------------------------- the condition, read from the log

  /** The size rule for captured output: a reply fits one message, and a settled tool result is one. */
  predicate OutputFits(e: Event) {
    && (e.body.ModelCompleted? ==> e.body.size <= MAX_TEXT)
    && (e.body.ToolObserved? && !e.body.outcome.ToolUnknown? ==> FitsContent(e.body.bytes))
  }

  /** A settled tool result is text. */
  predicate OutputText(e: Event) {
    e.body.ToolObserved? && !e.body.outcome.ToolUnknown? && e.body.bytes.Some? ==> e.body.bytes.value.text
  }

  function ResidentBytes(cp: Checkpoint): nat {
    Bytes(Messages(cp.groups)) + OpenBytes(cp.obligations)
  }

  predicate RoomForBytes(cp: Checkpoint, size: nat) {
    |Messages(cp.groups)| < MAX_MESSAGES && ResidentBytes(cp) + size <= MAX_BYTES
  }

  predicate RoomInLast(cp: Checkpoint) {
    |cp.groups| > 0 && |cp.groups[|cp.groups| - 1].messages| < MAX_GROUP_MESSAGES
  }

  /** None of the calls was proposed by a message that the checkpoint still holds. */
  predicate NoneAsked(groups: seq<Group>, calls: seq<ToolId>) {
    forall m, c :: m in Messages(groups) && c in calls ==> c !in m.toolCalls
  }

  /** Whether the checkpointed window has room for the exchange or the message this event brings. */
  predicate RoomFor(cp: Checkpoint, e: Event) {
    match e.body
    case UserMessage(size) => |cp.groups| < MAX_GROUPS && RoomForBytes(cp, size)
    case ModelCompleted(_, _, calls, size) =>
      size > 0 ==> RoomInLast(cp) && RoomForBytes(cp, size) && NoneAsked(cp.groups, calls)
    case ToolObserved(_, _, _, outcome, bytes) =>
      !outcome.ToolUnknown? && bytes.Some? ==> RoomInLast(cp) && RoomForBytes(cp, bytes.value.size)
    case _ => true
  }

  function NewGroup(groups: seq<Group>, e: Event): Group
    requires e.body.UserMessage?
  {
    Group(if |groups| == 0 then 1 else groups[|groups| - 1].sequence + 1,
          [Message(e.id, User, [], None, e.body.size, true)], false)
  }

  function ReplyMessage(e: Event): Message
    requires e.body.ModelCompleted?
  {
    Message(e.id, Assistant, e.body.toolCalls, None, e.body.size, true)
  }

  function ResultMessage(e: Event, call: ToolId): Message
    requires e.body.ToolObserved? && e.body.bytes.Some?
  {
    Message(e.id, Tool, [], Some(call), e.body.bytes.value.size, e.body.bytes.value.text)
  }

  /**
    How long the checkpoint after this event would be, summed up from the checkpoint before it: one revision and
    the positions on, with the message added and the pending call or tool as the event leaves it.
   */
  function EncodedAfter(cp: Checkpoint, e: Event): int {
    var base := FixedWidth(cp) + Digits(cp.revision + 1) + Digits(e.position + 2);
    var groups := ListWidth(|cp.groups|, GroupsWidth(cp.groups));
    var output := if cp.lastOutput.Some? then OUTPUT else 0;
    match e.body
    case UserMessage(_) =>
      base + ListWidth(|cp.groups| + 1, GroupsWidth(cp.groups) + GroupWidth(NewGroup(cp.groups, e)) + 1) + NULL + output
    case ModelRequested(_) => base + groups + MODEL_FRAME + DIGEST + output
    case ModelAborted(_, _, _) => base + groups + MODEL_FRAME + DIGEST + INTERRUPTED + output
    case ModelCompleted(_, _, calls, size) =>
      base + groups + (if size > 0 then MessageWidth(ReplyMessage(e)) + 1 else 0) - (if calls == [] then 1 else 0)
      + NULL + OUTPUT
    case ToolObserved(_, _, _, outcome, bytes) =>
      if outcome.ToolUnknown? && cp.tool.Some? then
        var size := ProposalSize(Messages(cp.groups), cp.tool.value.call);
        base + groups + NULL + TOOL_FRAME + Digits(size) + Digits(cp.tool.value.requestAt) + Digits(e.position + 2)
          + output
      else if bytes.Some? && cp.tool.Some? then
        base + groups + MessageWidth(ResultMessage(e, cp.tool.value.call)) + 1 + NULL + output
      else 0
    case ToolRequested(_, _, _) => 0
    case Checkpointed(_) => 0
  }

  /** The last uncheckpointed event can be replayed, checkpointed and rendered. */
  predicate EventFits(cp: Checkpoint, e: Event) {
    OutputFits(e) && OutputText(e) && RoomFor(cp, e) && EncodedAfter(cp, e) <= MAX_ENCODED
  }

  /**
    Readable from the log alone: what the last checkpoint holds is text, and it has room for the last event after it.
   */
  predicate Recoverable(log: seq<Event>) {
    && Head(log) > 0
    && Legible(HeadState(log))
    && (|log| > Head(log) ==> EventFits(HeadState(log), log[|log| - 1]))
  }

  // -------------------------------------------------------------- one event

  /** This is an event the state is waiting for, whatever its size. */
  ghost predicate Due(s: Checkpoint, e: Event) {
    && e.position == s.next
    && match e.body
       case UserMessage(size) => s.model.None? && s.tool.None? && LastComplete(s.groups) && FitsMessage(size)
       case ModelRequested(m) =>
         s.model.Some? && s.model.value.interrupted.None? && e.id == s.model.value.request
         && m.call == s.model.value.call
       case ModelCompleted(_, _, _, _) => s.model.Some? && s.model.value.wire.Some? && RepliesTo(e, s.model.value)
       case ModelAborted(_, _, _) => s.model.Some? && s.model.value.wire.Some? && RepliesTo(e, s.model.value)
       case ToolRequested(_, _, _) => s.tool.Some? && e == IntentEvent(s.tool.value)
       case ToolObserved(_, _, _, _, _) => s.tool.Some? && ObservesTool(e, s.tool.value)
       case Checkpointed(_) => false
  }

  /** An expected event is refused for its size and for nothing else. */
  lemma {:induction false} DueApplies(r: Recovered, e: Event, slot: EventId)
    requires GroupsInv(r.state) && Due(r.state, e)
    ensures Apply(r, e, slot).Some? <==> OutputFits(e)
  {
  }

  /** A source that is not resident yet. */
  predicate NewSource(groups: seq<Group>, id: EventId) {
    forall m :: m in Messages(groups) ==> m.source != id
  }

  /** What a sound state owes to the run it belongs to. */
  ghost predicate Situated(s: Checkpoint, e: Event) {
    Admissible(s) && GroupsInv(s) && s.status.Active? && ToolWaits(s) && NewSource(s.groups, e.id) && ReplyShaped(e)
  }

  /** One more message keeps the bounds exactly when there is room for its bytes. */
  lemma {:induction false} BoundedMore(s: Checkpoint, t: Checkpoint, m: Message)
    requires Bounded(s) && t.obligations == s.obligations && Messages(t.groups) == Messages(s.groups) + [m]
    ensures Bounded(t) <==> |t.groups| <= MAX_GROUPS && RoomForBytes(s, m.size)
  {
    hide Messages, OpenBytes;
    BytesMore(Messages(s.groups), m);
  }

  /** A message with a new source is coherent with the others exactly when it repeats none of their calls. */
  lemma {:induction false} ApartMore(groups: seq<Group>, m: Message)
    requires Coherent(Messages(groups)) && WellFormed(m) && NewSource(groups, m.source)
    ensures Coherent(Messages(groups) + [m]) <==> NoneAsked(groups, m.toolCalls)
  {
    hide Messages, Coherent, WellFormed;
    var all := Messages(groups);
    CoherentMore(all, m);
    assert forall k :: 0 <= k < |all| ==> all[k] in all;
    if NoneAsked(groups, m.toolCalls) {
      assert forall k :: 0 <= k < |all| ==> Apart(all[k], m);
    } else {
      var e, c :| e in all && c in m.toolCalls && c in e.toolCalls;
      var k :| 0 <= k < |all| && all[k] == e;
      assert !Apart(all[k], m);
    }
  }

  /** The message of the user: a new exchange. */
  lemma {:induction false} UserSound(s: Checkpoint, e: Event)
    requires GroupsSound(s.groups) && NewSource(s.groups, e.id) && LastComplete(s.groups)
    requires e.body.UserMessage? && FitsMessage(e.body.size)
    ensures GroupsSound(s.groups + [NewGroup(s.groups, e)])
    ensures Messages(s.groups + [NewGroup(s.groups, e)]) == Messages(s.groups) + NewGroup(s.groups, e).messages
  {
    hide Messages, Coherent, GroupsSound;
    var g := NewGroup(s.groups, e);
    MessagesMore(s.groups, g);
    SoundParts(s.groups);
    assert WellFormed(g.messages[0]);
    UnansweredMore([], g.messages[0]);
    assert [] + [g.messages[0]] == g.messages;
    ApartMore(s.groups, g.messages[0]);
    AppendedSound(s.groups, g);
  }

  lemma {:induction false} SoundParts(groups: seq<Group>)
    requires GroupsSound(groups)
    ensures Coherent(Messages(groups))
    ensures |groups| > 0 ==> GroupSound(groups[|groups| - 1]) && Coherent(groups[|groups| - 1].messages)
  {
    if |groups| > 0 {
      LastCoherent(groups);
    }
  }

  /** One more message in the open exchange: what must hold of the exchange itself. */
  lemma {:induction false} GrownSound(last: Group, m: Message, complete: bool)
    requires GroupSound(last) && Unanswered(last.messages + [m]).Some?
    requires complete ==> Unanswered(last.messages + [m]) == Some({})
    ensures GroupSound(WithMessage(last, m).(complete := complete)) <==> |last.messages| < MAX_GROUP_MESSAGES
  {
    hide Unanswered;
  }

  /** A reply to a settled exchange leaves exactly its own calls unanswered. */
  lemma {:induction false} ReplyUnanswered(s: Checkpoint, m: Message)
    requires GroupsSound(s.groups) && |s.groups| > 0 && !HasOutstanding(s.groups) && m.toolResult.None?
    ensures Unanswered(s.groups[|s.groups| - 1].messages) == Some({})
    ensures Unanswered(s.groups[|s.groups| - 1].messages + [m]) == Some(CallsOf(m))
  {
    hide GroupsSound, Unanswered, Coherent, Waiting;
    var last := s.groups[|s.groups| - 1];
    SoundParts(s.groups);
    assert Unanswered(last.messages).value == {} by {
      forall c | c in Unanswered(last.messages).value ensures false {
        UnansweredWaits(last, c);
      }
    }
    UnansweredMore(last.messages, m);
  }

  lemma {:induction false} ResultUnanswered(s: Checkpoint, m: Message)
    requires GroupsSound(s.groups) && |s.groups| > 0 && m.toolResult.Some?
    requires Waiting(s.groups[|s.groups| - 1], m.toolResult.value)
    ensures Unanswered(s.groups[|s.groups| - 1].messages + [m]).Some?
  {
    hide GroupsSound, Unanswered, Coherent, Waiting;
    SoundParts(s.groups);
    UnansweredWaits(s.groups[|s.groups| - 1], m.toolResult.value);
    UnansweredMore(s.groups[|s.groups| - 1].messages, m);
  }

  /** One more message in the open exchange keeps the groups sound exactly when there is room and no call repeats. */
  lemma {:induction false} MessageSound(s: Checkpoint, m: Message, complete: bool)
    requires GroupsSound(s.groups) && |s.groups| > 0 && WellFormed(m) && NewSource(s.groups, m.source)
    requires Unanswered(s.groups[|s.groups| - 1].messages + [m]).Some?
    requires complete ==> Unanswered(s.groups[|s.groups| - 1].messages + [m]) == Some({})
    ensures var grown := Replaced(s.groups, WithMessage(s.groups[|s.groups| - 1], m).(complete := complete));
            && Messages(grown) == Messages(s.groups) + [m]
            && (GroupsSound(grown) <==> RoomInLast(s) && NoneAsked(s.groups, m.toolCalls))
  {
    hide GroupsSound, Unanswered, Coherent, WellFormed, GroupSound, Messages, NoneAsked;
    var last := s.groups[|s.groups| - 1];
    var grown := WithMessage(last, m).(complete := complete);
    SoundParts(s.groups);
    GrownSound(last, m, complete);
    ApartMore(s.groups, m);
    MessagesReplaced(s.groups, grown, [m]);
    ReplacedSound(s.groups, grown, [m]);
  }

  // ----------------------------------------- the checkpoint after an expected event

  /** The parts of the profile that only obligations and pending work decide. */
  lemma {:induction false} AdmissibleIs(s: Checkpoint, t: Checkpoint)
    requires Admissible(s) && s.status.Active?
    requires t.status == s.status && t.obligations == s.obligations && t.identity == s.identity
    requires t.revision > 0 && t.next >= 2 && PendingSound(t)
    ensures Admissible(t) <==> Bounded(t) && GroupsSound(t.groups)
  {
    hide Bounded, GroupsSound, ObligationsSound, PendingSound;
  }

  lemma {:induction false} UserRoom(r: Recovered, e: Event)
    requires Situated(r.state, e) && Due(r.state, e) && e.body.UserMessage? && ApplyUser(r, e).Some?
    ensures Admissible(Bump(ApplyUser(r, e).value.state)) <==> RoomFor(r.state, e)
  {
    hide Bounded, GroupsSound, Messages, NewSource, GroupsInv, RoomForBytes, ToolWaits, ReplyShaped, Admissible;
    var s := r.state;
    AdmissibleParts(s);
    var t := Bump(ApplyUser(r, e).value.state);
    var g := NewGroup(s.groups, e);
    assert t.groups == s.groups + [g];
    UserSound(s, e);
    BoundedMore(s, t, g.messages[0]);
    AdmissibleIs(s, t);
  }

  lemma {:induction false} AdmissibleParts(s: Checkpoint)
    requires Admissible(s)
    ensures Bounded(s) && GroupsSound(s.groups) && PendingSound(s) && s.next >= 2
  {
    hide Bounded, GroupsSound, PendingSound, ObligationsSound;
  }

  lemma {:induction false} ReplyRoom(r: Recovered, e: Event)
    requires Situated(r.state, e) && Due(r.state, e) && e.body.ModelCompleted? && ApplyReply(r, e).Some?
    ensures Admissible(Bump(ApplyReply(r, e).value.state)) <==> RoomFor(r.state, e)
  {
    hide Bounded, GroupsSound, Messages, NewSource, RoomForBytes, ToolWaits, Admissible, Unanswered, NoneAsked,
         HasOutstanding, OnlyLastOpen, Coherent, RoomInLast;
    var s, m := r.state, ReplyMessage(e);
    AdmissibleParts(s);
    var t := Bump(ApplyReply(r, e).value.state);
    var last := s.groups[|s.groups| - 1];
    ReplyUnanswered(s, m);
    AdmissibleIs(s, t);
    if e.body.size > 0 {
      NoCalls(m);
      MessageSound(s, m, e.body.toolCalls == []);
      BoundedMore(s, t, m);
      BoundedGroups(s);
    } else {
      var told := last.(complete := true);
      SoundParts(s.groups);
      assert last.messages + [] == last.messages && Messages(s.groups) + [] == Messages(s.groups);
      MessagesReplaced(s.groups, told, []);
      ReplacedSound(s.groups, told, []);
      BoundedSame(s, t);
    }
  }

  lemma {:induction false} NoCalls(m: Message)
    ensures m.toolCalls == [] ==> CallsOf(m) == {}
  {
  }

  lemma {:induction false} BoundedGroups(s: Checkpoint)
    requires Bounded(s)
    ensures |s.groups| <= MAX_GROUPS
  {
  }

  lemma {:induction false} BoundedSame(s: Checkpoint, t: Checkpoint)
    requires Bounded(s) && Messages(t.groups) == Messages(s.groups) && |t.groups| == |s.groups|
    requires t.obligations == s.obligations
    ensures Bounded(t)
  {
  }

  lemma {:induction false} OutcomeRoom(r: Recovered, e: Event, slot: EventId)
    requires Situated(r.state, e) && Due(r.state, e) && e.body.ToolObserved? && ApplyToolOutcome(r, e, slot).Some?
    ensures Admissible(Bump(ApplyToolOutcome(r, e, slot).value.state)) <==> RoomFor(r.state, e)
  {
    hide Bounded, GroupsSound, Messages, NewSource, RoomForBytes, Admissible, Unanswered, NoneAsked, HasOutstanding,
         OnlyLastOpen, Coherent, Waiting, RoomInLast;
    var s := r.state;
    AdmissibleParts(s);
    var t := Bump(ApplyToolOutcome(r, e, slot).value.state);
    AdmissibleIs(s, t);
    if e.body.outcome.ToolUnknown? {
      BoundedSame(s, t);
    } else {
      var m := ResultMessage(e, s.tool.value.call);
      ResultUnanswered(s, m);
      assert s.groups[|s.groups| - 1].complete == false;
      MessageSound(s, m, false);
      NoneAskedNone(s.groups);
      BoundedMore(s, t, m);
      BoundedGroups(s);
    }
  }

  lemma {:induction false} NoneAskedNone(groups: seq<Group>)
    ensures NoneAsked(groups, [])
  {
  }

  lemma {:induction false} CallRoom(r: Recovered, e: Event)
    requires Situated(r.state, e) && Due(r.state, e) && (e.body.ModelRequested? || e.body.ModelAborted?)
    requires Apply(r, e, 0).Some?
    ensures Admissible(Bump(Apply(r, e, 0).value.state))
  {
    hide Bounded, GroupsSound, Messages, NewSource, Admissible, HasOutstanding, OnlyLastOpen;
    AdmissibleParts(r.state);
    AdmissibleIs(r.state, Bump(Apply(r, e, 0).value.state));
    BoundedSame(r.state, Bump(Apply(r, e, 0).value.state));
  }

  /** Whether the state after an expected event meets the profile is readable before it. */
  lemma {:induction false} DueRoom(r: Recovered, e: Event, slot: EventId)
    requires Situated(r.state, e) && Due(r.state, e) && Apply(r, e, slot).Some? && !e.body.ToolRequested?
    ensures Admissible(Bump(Apply(r, e, slot).value.state)) <==> RoomFor(r.state, e)
  {
    hide Admissible, Situated, Due, NoneAsked, RoomForBytes, RoomInLast, ApplyUser, ApplyReply, ApplyToolOutcome;
    if e.body.UserMessage? {
      UserRoom(r, e);
    } else if e.body.ModelCompleted? {
      ReplyRoom(r, e);
    } else if e.body.ToolObserved? {
      OutcomeRoom(r, e, slot);
    } else {
      CallRoom(r, e);
    }
  }

  // -------------------------------------------------------------- its encoding

  lemma {:induction false} ReplacedWidth(groups: seq<Group>, last: Group)
    requires |groups| > 0 && |last.messages| > 0 && |groups[|groups| - 1].messages| > 0
    requires last.sequence == groups[|groups| - 1].sequence && !groups[|groups| - 1].complete
    ensures ListWidth(|groups|, GroupsWidth(Replaced(groups, last)))
            == ListWidth(|groups|, GroupsWidth(groups)) + MessagesWidth(last.messages)
               - MessagesWidth(groups[|groups| - 1].messages) - (if last.complete then 1 else 0)
  {
    GroupsWidthMore(groups[..|groups| - 1], last);
  }

  /** While a call or a tool is pending the last exchange is open and holds something. */
  lemma {:induction false} OpenLast(s: Checkpoint)
    requires Admissible(s) && GroupsInv(s) && (s.model.Some? || s.tool.Some?)
    ensures |s.groups| > 0 && !s.groups[|s.groups| - 1].complete && |s.groups[|s.groups| - 1].messages| > 0
  {
    hide Bounded, ObligationsSound, Coherent, HasOutstanding;
    assert GroupSound(s.groups[|s.groups| - 1]);
  }

  lemma {:induction false} ReplyWidth(r: Recovered, e: Event)
    requires Situated(r.state, e) && Due(r.state, e) && e.body.ModelCompleted? && ApplyReply(r, e).Some?
    ensures EncodedSize(Bump(ApplyReply(r, e).value.state)) == EncodedAfter(r.state, e)
  {
    hide Messages, MessageWidth, MessagesWidth, GroupsWidth, Digits, FixedWidth, Admissible, GroupsInv, NewSource,
         ToolWaits;
    var s := r.state;
    var last := s.groups[|s.groups| - 1];
    var t := ApplyReply(r, e).value.state;
    OpenLast(s);
    NoTool(s);
    ReplacedWidth(s.groups, t.groups[|s.groups| - 1]);
    MessagesWidthMore(last.messages, ReplyMessage(e));
    SameFixed(s, Bump(t));
  }

  lemma {:induction false} NoTool(s: Checkpoint)
    requires GroupsInv(s)
    ensures s.model.None? || s.tool.None?
  {
    hide HasOutstanding, OnlyLastOpen;
  }

  lemma {:induction false} SameFixed(s: Checkpoint, t: Checkpoint)
    requires t.identity == s.identity && t.profile == s.profile && t.obligations == s.obligations
             && t.status == s.status
    ensures FixedWidth(t) == FixedWidth(s)
  {
  }

  lemma {:induction false} OutcomeWidth(r: Recovered, e: Event, slot: EventId)
    requires Situated(r.state, e) && Due(r.state, e) && e.body.ToolObserved? && ApplyToolOutcome(r, e, slot).Some?
    ensures EncodedSize(Bump(ApplyToolOutcome(r, e, slot).value.state)) == EncodedAfter(r.state, e)
  {
    hide Messages, MessageWidth, MessagesWidth, GroupsWidth, Digits, FixedWidth, Admissible, GroupsInv, NewSource,
         ToolWaits, ProposalSize;
    var s := r.state;
    var t := ApplyToolOutcome(r, e, slot).value.state;
    OpenLast(s);
    NoTool(s);
    SameFixed(s, Bump(t));
    if !e.body.outcome.ToolUnknown? {
      var last := s.groups[|s.groups| - 1];
      ReplacedWidth(s.groups, t.groups[|s.groups| - 1]);
      MessagesWidthMore(last.messages, ResultMessage(e, s.tool.value.call));
    }
  }

  lemma {:induction false} UserWidth(r: Recovered, e: Event)
    requires Situated(r.state, e) && Due(r.state, e) && e.body.UserMessage? && ApplyUser(r, e).Some?
    ensures EncodedSize(Bump(ApplyUser(r, e).value.state)) == EncodedAfter(r.state, e)
  {
    hide Messages, GroupWidth, Digits, FixedWidth, GroupsSound, Bounded, HasOutstanding, NewSource, OnlyLastOpen,
         Admissible;
    GroupsWidthMore(r.state.groups, NewGroup(r.state.groups, e));
    SameFixed(r.state, Bump(ApplyUser(r, e).value.state));
  }

  lemma {:induction false} CallWidth(r: Recovered, e: Event)
    requires Situated(r.state, e) && Due(r.state, e) && (e.body.ModelRequested? || e.body.ModelAborted?)
    requires Apply(r, e, 0).Some?
    ensures EncodedSize(Bump(Apply(r, e, 0).value.state)) == EncodedAfter(r.state, e)
  {
    hide Messages, GroupsWidth, Digits, FixedWidth, Bounded, HasOutstanding, NewSource, OnlyLastOpen, Admissible;
    SameFixed(r.state, Bump(Apply(r, e, 0).value.state));
  }

  /** The length of the checkpoint after an expected event is the sum read before it. */
  lemma {:induction false} DueWidth(r: Recovered, e: Event, slot: EventId)
    requires Situated(r.state, e) && Due(r.state, e) && Apply(r, e, slot).Some? && !e.body.ToolRequested?
    ensures EncodedSize(Bump(Apply(r, e, slot).value.state)) == EncodedAfter(r.state, e)
  {
    hide EncodedSize, EncodedAfter, Situated, Due, ApplyUser, ApplyReply, ApplyToolOutcome;
    if e.body.UserMessage? {
      UserWidth(r, e);
    } else if e.body.ModelCompleted? {
      ReplyWidth(r, e);
    } else if e.body.ToolObserved? {
      OutcomeWidth(r, e, slot);
    } else {
      CallWidth(r, e);
    }
  }

  // ------------------------------------------------------------------- legibility

  lemma {:induction false} LegibleMore(s: Checkpoint, t: Checkpoint, more: seq<Message>)
    requires Messages(t.groups) == Messages(s.groups) + more && t.obligations == s.obligations
    ensures Legible(t) <==> Legible(s) && forall m :: m in more ==> m.text
  {
    hide Messages;
    var all := Messages(s.groups);
    assert forall k :: 0 <= k < |all| ==> (all + more)[k] == all[k];
    assert forall k :: 0 <= k < |more| ==> (all + more)[|all| + k] == more[k];
  }

  /** An expected event leaves the state legible exactly when it was, and the event's result is text. */
  lemma {:induction false} DueText(r: Recovered, e: Event, slot: EventId)
    requires Due(r.state, e) && GroupsInv(r.state) && Apply(r, e, slot).Some?
    ensures Legible(Apply(r, e, slot).value.state) <==> Legible(r.state) && OutputText(e)
  {
    hide Messages, Legible, HasOutstanding, OnlyLastOpen;
    var s, t := r.state, Apply(r, e, slot).value.state;
    if e.body.UserMessage? {
      MessagesMore(s.groups, NewGroup(s.groups, e));
      LegibleMore(s, t, NewGroup(s.groups, e).messages);
    } else if e.body.ModelCompleted? && e.body.size > 0 {
      MessagesReplaced(s.groups, t.groups[|s.groups| - 1], [ReplyMessage(e)]);
      LegibleMore(s, t, [ReplyMessage(e)]);
    } else if e.body.ModelCompleted? {
      MessagesReplaced(s.groups, t.groups[|s.groups| - 1], []);
      LegibleMore(s, t, []);
    } else if e.body.ToolObserved? && !e.body.outcome.ToolUnknown? {
      MessagesReplaced(s.groups, t.groups[|s.groups| - 1], [ResultMessage(e, s.tool.value.call)]);
      LegibleMore(s, t, [ResultMessage(e, s.tool.value.call)]);
    } else {
      assert Messages(s.groups) + [] == Messages(s.groups);
      LegibleMore(s, t, []);
    }
  }

  // -------------------------------------------------------- the whole tail

  /** An event that stands after a state's position is not one of its sources. */
  lemma {:induction false} SourceIsNew(log: seq<Event>, groups: seq<Group>, n: nat, k: nat)
    requires UniqueIds(log) && Sourced(log, groups, n) && n - 1 <= k < |log|
    ensures NewSource(groups, log[k].id)
  {
    hide Messages;
    forall m | m in Messages(groups) ensures m.source != log[k].id {
      assert IdBefore(log, m.source, n);
      var j :| 0 <= j < |log| && j < n - 1 && log[j].id == m.source;
    }
  }

  /** A first event of the tail is due at the checkpoint. */
  lemma {:induction false} FirstDue(log: seq<Event>)
    requires LogInv(log) && TailInv(log) && |log| > Head(log)
    ensures var cp := HeadState(log);
            && Due(cp, log[Head(log)]) && cp.status.Active? && Publishable(cp) && GroupsInv(cp)
            && cp.next == Head(log) + 1
  {
    hide Publishable, RequestLogged, HasOutstanding, OnlyLastOpen;
    assert CheckpointInv(log, log[Head(log) - 1]);
  }

  /** A second event follows a request or an intent, which leave the window alone. */
  lemma {:induction false} SecondDue(log: seq<Event>, slot: EventId)
    requires LogInv(log) && TailInv(log) && |log| == Head(log) + 2
    ensures var cp := HeadState(log);
            var r := Apply(Recovered(cp, ResumePhase(cp)), log[Head(log)], slot);
            && (log[Head(log)].body.ModelRequested? || log[Head(log)].body.ToolRequested?)
            && !log[Head(log) + 1].body.ToolRequested?
            && r.Some? && GroupsInv(r.value.state) && PendingSound(r.value.state)
            && Due(r.value.state, log[Head(log) + 1])
            && r.value.state == cp.(model := r.value.state.model, next := cp.next + 1)
  {
    hide Publishable, RequestLogged, HasOutstanding, OnlyLastOpen;
    assert CheckpointInv(log, log[Head(log) - 1]);
    PublishableParts(HeadState(log));
  }

  lemma {:induction false} PublishableParts(s: Checkpoint)
    requires Publishable(s)
    ensures Admissible(s) && PendingSound(s) && s.next >= 2 && s.revision > 0 && EncodedSize(s) <= MAX_ENCODED
    ensures OpenSourced(s.obligations)
  {
    hide Bounded, GroupsSound, ObligationsSound, PendingSound, EncodedSize, OpenSourced;
  }

  lemma {:induction false} FirstSituated(log: seq<Event>)
    requires LogInv(log) && TailInv(log) && LogContent(log) && |log| > Head(log)
    ensures Situated(HeadState(log), log[Head(log)]) && Due(HeadState(log), log[Head(log)])
    ensures HeadState(log).next == Head(log) + 1
  {
    hide Publishable, Admissible, LogInv, TailInv, GroupsInv, Due, Sourced, ToolWaits, ReplyShaped, NewSource,
         UniqueIds;
    HeadFirst(log);
    var cp, h := HeadState(log), Head(log);
    FirstDue(log);
    PublishableParts(cp);
    assert StateContent(log, cp);
    SourceIsNew(log, cp.groups, cp.next, h);
  }

  lemma {:induction false} SecondSituated(log: seq<Event>, slot: EventId)
    requires LogInv(log) && TailInv(log) && LogContent(log) && |log| == Head(log) + 2
    ensures var cp := HeadState(log);
            var r := Apply(Recovered(cp, ResumePhase(cp)), log[Head(log)], slot);
            && r.Some? && Situated(r.value.state, log[Head(log) + 1]) && Due(r.value.state, log[Head(log) + 1])
            && r.value.state == cp.(model := r.value.state.model, next := cp.next + 1)
            && !log[Head(log) + 1].body.ToolRequested? && OutputFits(log[Head(log)]) && OutputText(log[Head(log)])
  {
    hide Publishable, Admissible, LogInv, TailInv, GroupsInv, Due, Sourced, Waiting, ReplyShaped, NewSource, UniqueIds,
         Apply, PendingSound;
    HeadFirst(log);
    var cp, h := HeadState(log), Head(log);
    FirstDue(log);
    SecondDue(log, slot);
    PublishableParts(cp);
    assert StateContent(log, cp);
    SourceIsNew(log, cp.groups, cp.next, h + 1);
    var t := Apply(Recovered(cp, ResumePhase(cp)), log[h], slot).value.state;
    AdmissibleParts(cp);
    BoundedSame(cp, t);
    AdmissibleIs(cp, t);
  }

  /** Room and length depend on what a request or an intent leaves alone. */
  lemma {:induction false} SameRoom(s: Checkpoint, t: Checkpoint, e: Event)
    requires t == s.(model := t.model, next := t.next)
    ensures EventFits(s, e) <==> EventFits(t, e)
    ensures Legible(s) <==> Legible(t)
  {
    hide Messages, Digits, GroupWidth, MessageWidth, GroupsWidth, NoneAsked, Bytes, ProposalSize;
    SameFixed(s, t);
  }

  /** A checkpoint retained by an up-to-date process is accepted exactly when it meets the profile. */
  lemma {:induction false} SaveAccepted(w: World, x: Instance)
    requires LogInv(w.log) && TailInv(w.log) && x.save.Some? && !IdLogged(w.log, x.save.value.id)
             && x.receipt == Head(w.log)
    requires InstInv(w.log, x) && x.state.next == |w.log| + 1
    ensures AcceptsSave(w.log, x.save.value) <==> Publishable(Bump(x.state))
  {
    hide StateInv, StableInv, Publishable, TailInv, CheckpointInv;
    HeadFirst(w.log);
  }

  lemma {:induction false} DigitsNext(n: nat)
    ensures Digits(n) <= Digits(n + 1) <= Digits(n) + 1
  {
    if n >= 9 {
      DigitsNext(n / 10);
    }
  }

  /** Dropping an uncaptured plan makes the checkpoint shorter, whatever its numbers grow by. */
  lemma {:induction false} DroppedPublishable(s: Checkpoint)
    requires Publishable(s) && s.status.Active? && s.model.Some? && s.tool.None?
    ensures Publishable(Bump(s.(model := None)))
  {
    hide Admissible, Messages, Digits, FixedWidth, GroupsWidth;
    var t := Bump(s.(model := None));
    DigitsNext(s.revision);
    DigitsNext(s.next);
    SameFixed(s, t);
    AdmissibleParts(s);
    BoundedSame(s, t);
    AdmissibleIs(s, t);
  }

  /** A run whose tail is empty can be resumed exactly when what it holds can be rendered. */
  lemma {:induction false} EmptyTailResumes(w: World)
    requires Inv(w) && Head(w.log) == |w.log|
    ensures Resumable(w) <==> Legible(HeadState(w.log))
  {
    hide Publishable, InstInv, LogInv, TailInv, HoldersInv, SentInv, PermitsInv, RunsInv, LogIssued, AcceptsSave,
         Messages, IdLogged;
    HeadFirst(w.log);
    var cp := HeadState(w.log);
    HeadCase(w);
    RecoverCases(w.log, w.issued);
    ResumeKeeps(w.log, w.issued);
    if ResumePhase(cp).Planned? {
      DroppedPublishable(cp);
      SaveAccepted(w, Resumed(w.log, w.issued));
    }
  }

  lemma {:induction false} HeadCase(w: World)
    requires LogInv(w.log) && TailInv(w.log) && LogIssued(w.log, w.issued)
    ensures var cp := HeadState(w.log);
            && Publishable(cp) && cp.next == Head(w.log) + 1 && !IdLogged(w.log, w.issued + 2)
            && (cp.model.Some? ==> cp.tool.None? && cp.status.Active?)
  {
    hide Publishable, RequestLogged, HasOutstanding, OnlyLastOpen, ToolSlots;
    assert CheckpointInv(w.log, w.log[Head(w.log) - 1]);
  }

  /** A bare intent leaves its outcome's position reserved: there is nothing to checkpoint. */
  lemma {:induction false} IntentResumes(w: World)
    requires Inv(w) && LogContent(w.log) && |w.log| == Head(w.log) + 1 && w.log[|w.log| - 1].body.ToolRequested?
    ensures Resumable(w) <==> Legible(HeadState(w.log))
    ensures EventFits(HeadState(w.log), w.log[|w.log| - 1])
  {
    hide Publishable, InstInv, LogInv, TailInv, HoldersInv, SentInv, PermitsInv, RunsInv, LogIssued, AcceptsSave,
         Messages, Situated, GroupsInv, LogContent;
    HeadFirst(w.log);
    RecoverCases(w.log, w.issued);
    IntentReserved(w.log, w.issued);
  }

  lemma {:induction false} IntentReserved(log: seq<Event>, slot: EventId)
    requires LogInv(log) && TailInv(log) && |log| == Head(log) + 1 && log[|log| - 1].body.ToolRequested?
    ensures var cp := HeadState(log);
            var r := Apply(Recovered(cp, ResumePhase(cp)), log[Head(log)], slot);
            && r.Some? && !r.value.phase.Planned? && !PositionAvailable(r.value.state)
            && r.value.state == cp.(next := cp.next + 1)
  {
    hide Publishable, RequestLogged, HasOutstanding, OnlyLastOpen;
    assert CheckpointInv(log, log[Head(log) - 1]);
  }

  /** The state in which the last event of the tail is due. */
  function BeforeLast(log: seq<Event>, slot: EventId): Recovered
    requires Head(log) > 0 && |log| > Head(log)
  {
    var r := Recovered(HeadState(log), ResumePhase(HeadState(log)));
    if |log| == Head(log) + 1 then r
    else
      var next := Apply(r, log[Head(log)], slot);
      if next.Some? then next.value else r
  }

  lemma {:induction false} LastSituated(log: seq<Event>, slot: EventId)
    requires LogInv(log) && TailInv(log) && LogContent(log) && |log| > Head(log) && Head(log) > 0
    ensures var s := BeforeLast(log, slot).state;
            && Situated(s, log[|log| - 1]) && Due(s, log[|log| - 1])
            && s == HeadState(log).(model := s.model, next := s.next)
            && (log[|log| - 1].body.ToolRequested? ==> |log| == Head(log) + 1)
    ensures Recover(log, slot) == Apply(BeforeLast(log, slot), log[|log| - 1], slot)
  {
    hide Situated, Due, LogInv, TailInv, LogContent, Recover, Apply;
    HeadFirst(log);
    RecoverCases(log, slot);
    if |log| == Head(log) + 1 {
      FirstSituated(log);
    } else {
      SecondSituated(log, slot);
    }
  }

  /** The last event of the tail decides: its size for the replay, its room and length for the checkpoint, its text. */
  lemma {:induction false} TailResumes(w: World)
    requires Inv(w) && LogContent(w.log) && 0 < Head(w.log) < |w.log| && !w.log[|w.log| - 1].body.ToolRequested?
    ensures Resumable(w) <==> Legible(HeadState(w.log)) && EventFits(HeadState(w.log), w.log[|w.log| - 1])
  {
    hide Publishable, InstInv, LogInv, TailInv, HoldersInv, SentInv, PermitsInv, RunsInv, LogIssued, AcceptsSave,
         Situated, Due, LogContent, Apply, Recover, Legible, RoomFor, EncodedAfter, OutputText, OutputFits, BeforeLast,
         Resumed, IdLogged;
    var e, r := w.log[|w.log| - 1], BeforeLast(w.log, w.issued);
    LastSituated(w.log, w.issued);
    SameRoom(HeadState(w.log), r.state, e);
    SituatedGroups(r.state, e);
    DueApplies(r, e, w.issued);
    if Apply(r, e, w.issued).Some? {
      ResumeKeeps(w.log, w.issued);
      ResumedSaves(w);
      SaveAccepted(w, Resumed(w.log, w.issued));
      DueRoom(r, e, w.issued);
      DueWidth(r, e, w.issued);
      DueText(r, e, w.issued);
      HeadCase(w);
      PublishableParts(HeadState(w.log));
      ApplyNext(r, e, w.issued);
      PublishableIs(Bump(Apply(r, e, w.issued).value.state));
    }
  }

  lemma {:induction false} SituatedGroups(s: Checkpoint, e: Event)
    requires Situated(s, e)
    ensures GroupsInv(s)
  {
    hide Admissible, GroupsInv, NewSource, ToolWaits;
  }

  lemma {:induction false} PublishableIs(s: Checkpoint)
    ensures Publishable(s) <==> Admissible(s) && EncodedSize(s) <= MAX_ENCODED && OpenSourced(s.obligations)
  {
    hide Admissible, EncodedSize, OpenSourced;
  }

  lemma {:induction false} ApplyNext(r: Recovered, e: Event, slot: EventId)
    requires Apply(r, e, slot).Some?
    ensures Apply(r, e, slot).value.state.next == r.state.next + 1
    ensures Apply(r, e, slot).value.state.obligations == r.state.obligations
  {
  }

  /** A replay ends behind the last event. */
  lemma {:induction false} RecoveredNext(log: seq<Event>, slot: EventId)
    requires LogInv(log) && TailInv(log) && Recover(log, slot).Some?
    ensures Recover(log, slot).value.state.next == |log| + 1
  {
    hide Apply, Recover, StateInv, Publishable, FirstFits, SecondFits;
    var h := Head(log);
    assert CheckpointInv(log, log[h - 1]);
    RecoverCases(log, slot);
    if |log| > h {
      var r := Recovered(HeadState(log), ResumePhase(HeadState(log)));
      ApplyNext(r, log[h], slot);
      if |log| == h + 2 {
        ApplyNext(Apply(r, log[h], slot).value, log[h + 1], slot);
      }
    }
  }

  lemma {:induction false} ResumedNext(w: World)
    requires LogInv(w.log) && TailInv(w.log) && LogIssued(w.log, w.issued)
    requires Head(w.log) > 0 && Recover(w.log, w.issued).Some? && Resumed(w.log, w.issued).save.Some?
    ensures var x := Resumed(w.log, w.issued);
            !IdLogged(w.log, x.save.value.id) && x.receipt == Head(w.log) && x.state.next == |w.log| + 1
  {
    hide LogInv, TailInv, Recover;
    RecoveredNext(w.log, w.issued);
  }

  /** After anything but a bare intent the next position is free, and no plan is left over. */
  lemma {:induction false} ReplayedAvailable(log: seq<Event>, slot: EventId)
    requires LogInv(log) && TailInv(log) && Recover(log, slot).Some?
    requires Head(log) < |log| && !log[|log| - 1].body.ToolRequested?
    ensures PositionAvailable(Recover(log, slot).value.state) && !Recover(log, slot).value.phase.Planned?
  {
    hide HasOutstanding, OnlyLastOpen, Publishable, RequestLogged, Recover;
    assert CheckpointInv(log, log[Head(log) - 1]);
    RecoverCases(log, slot);
  }

  /** Anything else replayed is checkpointed at the next position, under the revision after the head's. */
  lemma {:induction false} ResumedSaves(w: World)
    requires LogInv(w.log) && TailInv(w.log) && LogIssued(w.log, w.issued)
    requires 0 < Head(w.log) < |w.log| && !w.log[|w.log| - 1].body.ToolRequested? && Recover(w.log, w.issued).Some?
    ensures var x := Resumed(w.log, w.issued);
            && x.save.Some? && !IdLogged(w.log, x.save.value.id) && x.receipt == Head(w.log)
            && x.state == Recover(w.log, w.issued).value.state && x.state.next == |w.log| + 1
  {
    hide LogInv, TailInv, Recover, LogIssued, IdLogged;
    ReplayedAvailable(w.log, w.issued);
    ResumedNext(w);
  }

  lemma {:induction false} RecoverableIs(w: World)
    requires Inv(w) && LogContent(w.log)
    ensures Resumable(w) <==> Recoverable(w.log)
  {
    hide InstInv, Resumable, Legible, EventFits, LogContent, LogInv, TailInv, HoldersInv, SentInv, PermitsInv, RunsInv,
         LogIssued, BeforeLast, Situated, Due, Recover, Apply;
    HeadFirst(w.log);
    if Head(w.log) == |w.log| {
      EmptyTailResumes(w);
    } else if w.log[|w.log| - 1].body.ToolRequested? {
      LastSituated(w.log, w.issued);
      IntentResumes(w);
    } else {
      TailResumes(w);
    }
  }

  /**
    A crashed run can be resumed exactly when everything its last checkpoint holds can be rendered, as text and under
    its name, and the last event after that checkpoint fits: in size as a message, as text, in the checkpoint's window
    with no call it repeats, and in the length of the checkpoint that must follow.
   */
  lemma {:induction false} RecoveryExact(first: Checkpoint, steps: seq<Step>)
    requires Legal(first, steps)
    ensures Resumable(After(first, steps)) <==> Recoverable(After(first, steps).log)
  {
    hide After, Legal, Resumable, Recoverable, LogContent, StateContent, WindowInv, Inv;
    RunKeeps(first, steps);
    RunContentKeeps(first, steps);
    RecoverableIs(After(first, steps));
  }

  /** If the checkpoint a resume calls for was ever published, the resume met the condition. */
  lemma {:induction false} PublishedRecovers(w: World, later: seq<Event>)
    requires Inv(w) && ContentInv(w) && LogInv(later) && Head(w.log) > 0 && Recover(w.log, w.issued).Some?
    requires var x := Resumed(w.log, w.issued);
             && Legible(x.state)
             && (x.save.Some? ==> exists k :: 0 <= k < |later| && later[k].body == Checkpointed(Bump(x.state)))
    ensures Recoverable(w.log)
  {
    hide InstInv, LogContent, Legible, Recoverable, Recover, Resumed, TailInv, HoldersInv, SentInv, PermitsInv,
         RunsInv, Publishable, StateContent, WindowInv, LogIssued, AcceptsSave;
    var x := Resumed(w.log, w.issued);
    if x.save.Some? {
      var k :| 0 <= k < |later| && later[k].body == Checkpointed(Bump(x.state));
      assert CheckpointInv(later, later[k]);
      ResumedNext(w);
      ResumeKeeps(w.log, w.issued);
      SaveAccepted(w, x);
    }
    RecoverableIs(w);
  }

  // ------------------------------------------------------ what a resume restores

  /**
    For a process that has seen the whole log and retains nothing, a crash loses nothing: at a boundary the
    resumed state is its state; during a call it is the same call, with the groups evicted since restored.
   */
  lemma {:induction false} CrashLosesNothing(log: seq<Event>, x: Instance, slot: EventId)
    requires LogInv(log) && TailInv(log) && InstInv(log, x) && Clear(x) && x.state.next == |log| + 1
    ensures var r := Recover(log, slot);
            && r.Some?
            && (x.phase.Ready? ==> r.value == Recovered(x.state, Ready))
            && (x.phase.Planned? ==> r.value.phase.Planned?)
            && (x.phase.Captured? || x.phase.Unknown? ==> r.value.phase.Unknown?)
            && x.state == r.value.state.(groups := x.state.groups)
            && DropsComplete(r.value.state.groups, x.state.groups)
  {
    hide HasOutstanding, Publishable, RequestLogged, FirstFits, OnlyLastOpen;
    CurrentHead(log, x);
    RecoverCases(log, slot);
  }

  /** The owner admits a captured call exactly while no later checkpoint has replaced the one it ran under. */
  lemma {:induction false} AdmissionExact(log: seq<Event>, x: Instance)
    requires LogInv(log) && InstInv(log, x) && Idle(x) && x.phase.Captured?
    ensures 0 < x.phase.receipt <= |log|
    ensures Admits(log, x.receipt, x.state.model.value.call, x.phase.receipt, x.phase.wire) <==> Head(log) == x.receipt
  {
    hide HasOutstanding, Publishable, OnlyLastOpen, DropsComplete, GroupsInv, Answers, Asks;
    assert CheckpointInv(log, log[x.receipt - 1]);
  }

  /** The ways out of an unknown outcome: a captured reply to the same request, or a denial bound to the same wire. */
  lemma {:induction false} UnknownExits(w: World, x: Instance, a: Action)
    requires InstInv(w.log, x) && InstanceEnabled(w, x, a) && x.phase.Unknown? && !Moved(w, x, a).phase.Unknown?
    ensures || (a.AckCapture? && x.capture.Some? && x.capture.value.event in w.log
                && x.capture.value.event.body.ModelCompleted?
                && RepliesTo(x.capture.value.event, x.state.model.value))
            || (a.NotAccepted? && x.state.model.value.wire == Some(a.digest) && x.state.model.value.interrupted.None?)
  {
    hide StateInv, DropsComplete, ReplyFits, TailFits, Accepts, AcceptsSave, HasOutstanding, Waiting, Settle,
         OutcomeFits;
  }

  // ------------------------------------------------------------ the same, of runs

  lemma {:induction false} ProcessHolds(first: Checkpoint, steps: seq<Step>, i: nat)
    requires Legal(first, steps) && i in After(first, steps).live
    ensures var w := After(first, steps);
            LogInv(w.log) && TailInv(w.log) && InstInv(w.log, w.live[i])
  {
    hide InstInv, After, Legal, LogInv, TailInv;
    RunKeeps(first, steps);
  }

  /**
    If the process that is up to date dies with nothing retained, the run resumes where it was: at a boundary in
    the very same state, and during a call on the same call, as unknown if its request had been captured.
   */
  lemma {:induction false} ResumesWhereItWas(first: Checkpoint, steps: seq<Step>, i: nat)
    requires Legal(first, steps) && i in After(first, steps).live
    requires var w := After(first, steps); Clear(w.live[i]) && w.live[i].state.next == |w.log| + 1
    ensures var w := After(first, steps);
            var x := w.live[i];
            && Head(w.log) > 0 && Recover(w.log, w.issued).Some?
            && var r := Recover(w.log, w.issued).value;
               && (x.phase.Ready? ==> r == Recovered(x.state, Ready))
               && (x.phase.Captured? || x.phase.Unknown? ==> r.phase.Unknown?)
               && x.state == r.state.(groups := x.state.groups)
               && DropsComplete(r.state.groups, x.state.groups)
  {
    hide InstInv, After, Legal, LogInv, TailInv, DropsComplete, Recover;
    var w := After(first, steps);
    ProcessHolds(first, steps, i);
    HeadExists(w.log);
    CrashLosesNothing(w.log, w.live[i], w.issued);
  }

  lemma {:induction false} HeadExists(log: seq<Event>)
    requires TailInv(log)
    ensures Head(log) > 0
  {
  }

  /** The owner admits a captured call of a run exactly while no later checkpoint has been published. */
  lemma {:induction false} AdmittedWhileCurrent(first: Checkpoint, steps: seq<Step>, i: nat)
    requires Legal(first, steps) && i in After(first, steps).live
    requires var x := After(first, steps).live[i]; Idle(x) && x.phase.Captured?
    ensures var w := After(first, steps);
            var x := w.live[i];
            && x.state.model.Some? && 0 < x.phase.receipt <= |w.log|
            && (Admits(w.log, x.receipt, x.state.model.value.call, x.phase.receipt, x.phase.wire)
                <==> Head(w.log) == x.receipt)
  {
    hide InstInv, After, Legal, LogInv, TailInv, Admits;
    var w := After(first, steps);
    ProcessHolds(first, steps, i);
    HeldModel(w.log, w.live[i]);
    AdmissionExact(w.log, w.live[i]);
  }

  lemma {:induction false} HeldModel(log: seq<Event>, x: Instance)
    requires InstInv(log, x) && !x.phase.Ready?
    ensures x.state.model.Some?
  {
    hide StateInv, TailFits, DropsComplete, CaptureFits, OutcomeFits;
  }

  /**
    Once a process of a run is in doubt, it leaves that state only by a durable reply to its own request, or by a
    denial bound to its own wire when none of the output had been seen.
   */
  lemma {:induction false} UnknownUntilReconciled(first: Checkpoint, steps: seq<Step>, step: Step)
    requires Legal(first, steps) && Enabled(After(first, steps), step) && !step.action.Resume? && !step.action.Crash?
    requires After(first, steps).live[step.who].phase.Unknown?
    requires !Do(After(first, steps), step).live[step.who].phase.Unknown?
    ensures var w := After(first, steps);
            var x := w.live[step.who];
            && x.state.model.Some?
            && (|| (&& step.action.AckCapture? && x.capture.Some? && x.capture.value.event in w.log
                    && x.capture.value.event.body.ModelCompleted?
                    && RepliesTo(x.capture.value.event, x.state.model.value))
                || (&& step.action.NotAccepted? && x.state.model.value.wire == Some(step.action.digest)
                    && x.state.model.value.interrupted.None?))
  {
    hide InstInv, After, Legal, LogInv, TailInv, InstanceEnabled, Moved, RepliesTo;
    var w := After(first, steps);
    ProcessHolds(first, steps, step.who);
    HeldModel(w.log, w.live[step.who]);
    UnknownExits(w, w.live[step.who], step.action);
  }
}
