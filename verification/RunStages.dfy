/** The stages of an exchange, each taking a single process from one good state to the next. */
module RunStages {
  import opened Wrappers
  import opened OwnedRun
  import opened Bounds
  import opened RunSteps
  import opened RunSafety
  import opened RunProofs
  import opened RunInvariant
  import opened RunContent
  import opened RunEffects
  import opened RunRecovery
  import opened RunScript
  import Rolling

  /** A state that grew by one short message stays light. */
  lemma {:induction false} LightMore(c: Checkpoint, t: Checkpoint, n: nat, p: nat, q: nat, m: Message)
    requires Light(c, n, p) && Messages(t.groups) == Messages(c.groups) + [m] && m.size <= 1
             && |t.groups| <= |c.groups| + 1
    requires GroupsWidth(t.groups) <= GroupsWidth(c.groups) + 1000 && LastSequence(t.groups) <= n + 1
    requires t.status == c.status && t.obligations == c.obligations && t.identity == c.identity
             && t.profile == c.profile
    requires t.revision <= q && t.next <= q
    requires t.tool.Some? ==> t.tool.value.requestAt <= q && t.tool.value.outcomeAt <= q
    ensures Light(t, n + 1, q)
  {
    hide Messages, GroupsWidth;
    BytesMore(Messages(c.groups), m);
  }

  lemma {:induction false} LightSame(c: Checkpoint, t: Checkpoint, n: nat, p: nat, q: nat)
    requires Light(c, n, p) && Messages(t.groups) == Messages(c.groups) && |t.groups| <= |c.groups|
    requires GroupsWidth(t.groups) <= GroupsWidth(c.groups) && LastSequence(t.groups) <= n
    requires t.status == c.status && t.obligations == c.obligations && t.identity == c.identity
             && t.profile == c.profile
    requires t.revision <= q && t.next <= q
    requires t.tool.Some? ==> t.tool.value.requestAt <= q && t.tool.value.outcomeAt <= q
    ensures Light(t, n, q)
  {
  }

  /** A short message is short in the encoding too. */
  lemma {:induction false} WidthSmall(m: Message)
    requires m.size <= 1 && |m.toolCalls| <= 1
    ensures MessageWidth(m) <= 430
  {
  }

  /** Room for one more short message. */
  lemma {:induction false} LightRoom(c: Checkpoint, n: nat, p: nat)
    requires Light(c, n, p) && n < 140
    ensures RoomForBytes(c, 1) && RoomForBytes(c, 0)
  {
    hide Messages, GroupsWidth, Bytes;
  }

  // --------------------------------------------------------------- the user speaks

  lemma {:induction false} UserState(s: Checkpoint, e: Event, slot: EventId)
    requires Due(s, e) && e.body == UserMessage(1) && LastSequence(s.groups) < 100000
    ensures var r := Apply(Recovered(s, Ready), e, slot);
            && r.Some? && r.value == Recovered(s.(groups := s.groups + [NewGroup(s.groups, e)], next := s.next + 1),
                                               Ready)
            && GroupsWidth(r.value.state.groups) <= GroupsWidth(s.groups) + 1000
  {
    hide GroupsWidth, Digits, MessageWidth;
    var g := NewGroup(s.groups, e);
    GroupsWidthMore(s.groups, g);
    WidthSmall(g.messages[0]);
    MessagesWidthMore([], g.messages[0]);
    assert [] + [g.messages[0]] == g.messages;
    DigitsSmall(g.sequence);
  }

  /** The checkpoint after the user's message is published. */
  lemma {:induction false} UserPublishable(first: Checkpoint, s: Solo, n: nat, p: nat, e: Event, slot: EventId)
    requires Good(first, s, n, p) && n < 139 && p < 99990 && Due(s.x.state, e) && e.body == UserMessage(1)
    requires !IdLogged(s.log, e.id) && |s.x.state.groups| < MAX_GROUPS
    ensures var r := Apply(Recovered(s.x.state, Ready), e, slot);
            && r.Some? && r.value == Recovered(s.x.state.(groups := s.x.state.groups + [NewGroup(s.x.state.groups, e)],
                                                          next := s.x.state.next + 1), Ready)
            && Publishable(Bump(r.value.state)) && Light(Bump(r.value.state), n + 1, p + 2)
            && Legible(Bump(r.value.state))
  {
    hide Reachable, Messages, GroupsWidth, Publishable, Admissible, RoomForBytes, Situated, EncodedSize, Legible,
         ApplyUser;
    var c := s.x.state;
    NotReply(e);
    GoodSituated(first, s, n, p, e);
    UserState(c, e, slot);
    var r := Apply(Recovered(c, Ready), e, slot).value;
    LightRoom(c, n, p);
    DueRoom(Recovered(c, Ready), e, slot);
    MessagesMore(c.groups, NewGroup(c.groups, e));
    LightMore(c, Bump(r.state), n, p, p + 2, NewGroup(c.groups, e).messages[0]);
    LightFits(Bump(r.state), n + 1, p + 2);
    PublishableIs(Bump(r.state));
    LegibleMore(c, Bump(r.state), NewGroup(c.groups, e).messages);
  }

  /** The user's message is captured; the process has yet to hear of it. */
  lemma {:induction false} Spoken(first: Checkpoint, s: Solo) returns (u: Solo)
    requires Still(first, s) && s.x.phase.Ready? && LastComplete(s.x.state.groups) && |s.x.state.groups| < MAX_GROUPS
    ensures var e := Event(s.issued, s.x.state.next, UserMessage(1));
            && !IdLogged(s.log, e.id)
            && u == Solo(s.log + [e], s.x.(capture := Some(Capture(e, None))), s.issued + 6, s.sent, s.runs)
    ensures Reachable(first, Of(u)) && Head(u.log) == Head(s.log)
    ensures s.x.state.model.None? && s.x.state.tool.None? && s.x.receipt == Head(s.log)
  {
    hide Reachable, InstanceEnabled, Moved, Appended, InstInv, LogInv, TailInv, LogContent, StateContent, LastComplete;
    var e := Event(s.issued, s.x.state.next, UserMessage(1));
    Known(first, s);
    ReadyFits(s.log, s.x);
    QueueUserEffect(Of(s), s.x, 1, 0);
    assert s.x.state.groups[0..] == s.x.state.groups;
    u := ActCommit(first, s, QueueUser(1, 0), s.x.(capture := Some(Capture(e, None))));
  }

  /** The user's message is captured, applied and checkpointed: one more exchange, open on that message. */
  lemma {:induction false} Said(first: Checkpoint, s: Solo, n: nat, p: nat) returns (t: Solo)
    requires Good(first, s, n, p) && n < 139 && p < 99990
    requires s.x.phase.Ready? && LastComplete(s.x.state.groups) && |s.x.state.groups| < MAX_GROUPS
    ensures Good(first, t, n + 1, p + 2) && t.x.phase.Ready? && t.x.state.tool.None? && t.x.permit == s.x.permit
    ensures var e := Event(s.issued, s.x.state.next, UserMessage(1));
            t.x.state.groups == s.x.state.groups + [NewGroup(s.x.state.groups, e)]
    ensures 0 < Head(t.log) == |t.log| && HeadState(t.log) == t.x.state
  {
    hide Reachable, InstanceEnabled, Moved, Appended, InstInv, LogInv, TailInv, LogContent, StateContent, Publishable,
         Admissible, Light, Legible, Apply, LastComplete;
    var e := Event(s.issued, s.x.state.next, UserMessage(1));
    var u := Spoken(first, s);
    UserPublishable(first, s, n, p, e, u.issued);
    var r := Apply(Recovered(s.x.state, Ready), e, u.issued).value;
    assert u.log[|s.log|] == e;
    AckCaptureEffect(Of(u), u.x);
    t := ActSave(first, u, AckCapture, u.x.(state := r.state, capture := None));
    PublishableIs(Bump(r.state));
  }

  // ----------------------------------------------------------- the model is asked

  lemma {:induction false} PlanPublishable(c: Checkpoint, n: nat, p: nat, m: PendingModel)
    requires Admissible(c) && Light(c, n, p) && n < 139 && p < 99990 && c.tool.None? && m.interrupted.None?
             && Legible(c)
    ensures var t := Bump(c.(model := Some(m)));
            Publishable(t) && Light(t, n, p + 1) && Legible(t)
  {
    hide Messages, GroupsWidth, GroupsSound, Bounded, Admissible, Light, EncodedSize;
    var t := Bump(c.(model := Some(m)));
    LightNumbers(c, n, p);
    AdmissibleParts(c);
    BoundedSame(c, t);
    AdmissibleIs(c, t);
    LightSame(c, t, n, p, p + 1);
    LightFits(t, n, p + 1);
    PublishableIs(t);
  }

  lemma {:induction false} LightNumbers(c: Checkpoint, n: nat, p: nat)
    requires Light(c, n, p)
    ensures c.revision <= p && c.next <= p && c.status.Active? && LastSequence(c.groups) <= n
  {
  }

  /** A call is planned and its plan checkpointed. */
  lemma {:induction false} Planned(first: Checkpoint, s: Solo, n: nat, p: nat) returns (t: Solo)
    requires Good(first, s, n, p) && n < 139 && p < 99990 && s.x.phase.Ready? && s.x.state.tool.None?
    requires !LastComplete(s.x.state.groups) && !HasOutstanding(s.x.state.groups)
    ensures Good(first, t, n, p + 1) && t.x.phase.Planned? && t.x.state.groups == s.x.state.groups
            && t.x.state.tool.None?
    ensures t.x.state.model == Some(PendingModel(s.issued, s.issued + 1, None, None))
    ensures !IdLogged(t.log, s.issued + 1)
    ensures 0 < Head(t.log) == |t.log| && HeadState(t.log) == t.x.state
  {
    hide Reachable, InstanceEnabled, Moved, Appended, InstInv, LogInv, TailInv, LogContent, StateContent, Publishable,
         Admissible, Light, Legible, LastComplete, HasOutstanding;
    var m := PendingModel(s.issued, s.issued + 1, None, None);
    Known(first, s);
    PlanEffect(Of(s), s.x);
    PlanPublishable(s.x.state, n, p, m);
    var y := s.x.(state := s.x.state.(model := Some(m)), phase := OwnedRun.Phase.Planned);
    t := ActSave(first, s, Plan, y);
    PublishableIs(Bump(y.state));
    AppendUnlogged(s.log, SaveEvent(y.state, s.issued + 2), s.issued + 1);
    StillActive(s.x.state, n, p);
  }

  lemma {:induction false} StillActive(c: Checkpoint, n: nat, p: nat)
    requires Light(c, n, p)
    ensures c.status.Active?
  {
  }

  lemma {:induction false} AppendUnlogged(log: seq<Event>, e: Event, id: EventId)
    requires !IdLogged(log, id) && e.id != id
    ensures !IdLogged(log + [e], id)
  {
  }

  lemma {:induction false} WireAdmissible(c: Checkpoint, n: nat, p: nat, m: PendingModel)
    requires Admissible(c) && Light(c, n, p) && c.tool.None? && m.interrupted.None? && Legible(c)
    ensures var t := c.(model := Some(m), next := c.next + 1);
            Admissible(t) && Light(t, n, p + 1) && Legible(t)
  {
    hide Messages, GroupsWidth, GroupsSound, Bounded, Admissible, Light;
    var t := c.(model := Some(m), next := c.next + 1);
    LightNumbers(c, n, p);
    AdmissibleParts(c);
    BoundedSame(c, t);
    AdmissibleRevision(c);
    AdmissibleIs(c, t);
    LightSame(c, t, n, p, p + 1);
  }

  lemma {:induction false} AdmissibleRevision(c: Checkpoint)
    requires Admissible(c)
    ensures c.revision > 0
  {
    hide Bounded, GroupsSound, PendingSound, ObligationsSound;
  }

  /** The exact request is captured and acknowledged: the call may be sent. */
  lemma {:induction false} Requested(first: Checkpoint, s: Solo, n: nat, p: nat) returns (t: Solo)
    requires Still(first, s) && s.x.phase.Planned? && s.x.state.model.Some? && s.x.state.tool.None?
    requires !IdLogged(s.log, s.x.state.model.value.request) && s.x.state.model.value.interrupted.None?
    ensures Still(first, t) && t.x.phase.Captured? && HasWire(t.x.state, 0)
    ensures Good(first, s, n, p) ==> Good(first, t, n, p + 1)
    ensures t.x.state.groups == s.x.state.groups && t.x.state.tool.None? && t.x.state.model.value.interrupted.None?
    ensures Head(t.log) == Head(s.log) > 0 && HeadState(t.log) == HeadState(s.log)
  {
    hide Reachable, InstanceEnabled, Moved, Appended, InstInv, LogInv, TailInv, LogContent, StateContent, Admissible,
         Light, Legible;
    var m := s.x.state.model.value;
    var manifest, wire := Manifest(m.call, 0, 0), Wire(0, 0);
    var e := Event(m.request, s.x.state.next, ModelRequested(manifest));
    QueueRequestEffect(Of(s), s.x, manifest, wire);
    var u := ActCommit(first, s, QueueRequest(manifest, wire), s.x.(capture := Some(Capture(e, Some(wire)))));
    var r := Recovered(s.x.state.(model := Some(m.(wire := Some(0))), next := s.x.state.next + 1), Unknown);
    assert Apply(Recovered(s.x.state, s.x.phase), e, u.issued) == Some(r);
    assert u.log[|s.log|] == e;
    AckCaptureEffect(Of(u), u.x);
    Act(first, u, AckCapture);
    t := u.(x := u.x.(state := r.state, phase := Captured(wire, e.position), capture := None), issued := u.issued + 3);
    assert u.log + [] == u.log && u.runs + [] == u.runs;
    assert Acted(u, AckCapture) == t;
    if Good(first, s, n, p) {
      WireAdmissible(s.x.state, n, p, m.(wire := Some(0)));
    }
  }

  /** The fence admits the call, and it is sent. */
  lemma {:induction false} SentOff(first: Checkpoint, s: Solo) returns (t: Solo)
    requires Still(first, s) && s.x.phase.Captured? && s.x.state.model.Some?
    ensures Still(first, t) && t.x == s.x.(phase := Unknown) && t.log == s.log
  {
    hide Reachable, InstanceEnabled, Moved, Appended, Admissible, Light, Legible;
    var w := Of(s);
    AdmitEffect(w, s.x, false);
    ReachStep(first, w, Step(0, Admit(false)));
    var a := Admission(s.x.state.model.value.call, s.x.phase.receipt, false);
    var v := w.(issued := s.issued + 3, admitted := map[0 := a]);
    assert s.log + [] == s.log && s.sent + [] == s.sent && s.runs + [] == s.runs;
    assert w.live[0 := s.x] == w.live && w.admitted[0 := a] == map[0 := a];
    assert Do(w, Step(0, Admit(false))) == v;
    SendEffect(v, s.x);
    ReachStep(first, v, Step(0, Send));
    t := Solo(s.log, s.x.(phase := Unknown), s.issued + 6, s.sent + Sent(s.x, Send), s.runs);
    var none: map<nat, Admission> := map[];
    assert v.admitted - {0} == none && v.live[0 := t.x] == map[0 := t.x];
    assert Do(v, Step(0, Send)) == Of(t);
  }

  // ------------------------------------------------------------- the model answers

  function ReplyGroups(groups: seq<Group>, e: Event): seq<Group>
    requires |groups| > 0 && e.body.ModelCompleted?
  {
    var last := groups[|groups| - 1];
    var told := if e.body.size == 0 then last else WithMessage(last, ReplyMessage(e));
    Replaced(groups, told.(complete := e.body.toolCalls == []))
  }

  lemma {:induction false} ReplyState(c: Checkpoint, e: Event, slot: EventId)
    requires Admissible(c) && GroupsInv(c) && Due(c, e) && e.body.ModelCompleted? && e.body.size <= 1
             && |e.body.toolCalls| <= 1
    ensures |c.groups| > 0
    ensures var r := Apply(Recovered(c, Unknown), e, slot);
            && r.Some?
            && r.value == Recovered(c.(groups := ReplyGroups(c.groups, e), model := None, lastOutput := Some(e.id),
                                       next := c.next + 1), Ready)
    ensures var groups := ReplyGroups(c.groups, e);
            && Messages(groups) == Messages(c.groups) + (if e.body.size == 0 then [] else [ReplyMessage(e)])
            && GroupsWidth(groups) <= GroupsWidth(c.groups) + (if e.body.size == 0 then 0 else 1000)
            && |groups| == |c.groups| && LastSequence(groups) == LastSequence(c.groups)
  {
    hide Messages, MessageWidth, MessagesWidth, GroupsWidth, Digits, Admissible, GroupsInv;
    OpenLast(c);
    var last, grown := c.groups[|c.groups| - 1], ReplyGroups(c.groups, e)[|c.groups| - 1];
    ReplacedWidth(c.groups, grown);
    WidthSmall(ReplyMessage(e));
    MessagesWidthMore(last.messages, ReplyMessage(e));
    MessagesReplaced(c.groups, grown, if e.body.size == 0 then [] else [ReplyMessage(e)]);
  }

  lemma {:induction false} ReplyPublishable(first: Checkpoint, s: Solo, n: nat, p: nat, e: Event, slot: EventId)
    requires Good(first, s, n, p) && n < 139 && p < 99990 && Due(s.x.state, e) && !IdLogged(s.log, e.id)
    requires e.body.ModelCompleted? && e.body.size <= 1 && |e.body.toolCalls| <= 1 && ReplyShaped(e)
    requires e.body.size > 0 ==> RoomInLast(s.x.state) && NoneAsked(s.x.state.groups, e.body.toolCalls)
    ensures |s.x.state.groups| > 0
    ensures var c := s.x.state;
            var r := Apply(Recovered(c, Unknown), e, slot);
            && r.Some? && r.value.phase.Ready?
            && r.value.state == c.(groups := ReplyGroups(c.groups, e), model := None, lastOutput := Some(e.id),
                                   next := c.next + 1)
            && Publishable(Bump(r.value.state)) && Light(Bump(r.value.state), n + 1, p + 2)
            && Legible(Bump(r.value.state))
  {
    hide Reachable, Messages, GroupsWidth, Publishable, Admissible, RoomForBytes, Situated, EncodedSize, Legible,
         ApplyReply, GroupsInv, Due, NoneAsked, RoomInLast, ReplyShaped, Light, ReplyGroups;
    var c := s.x.state;
    GoodSituated(first, s, n, p, e);
    SituatedGroups(c, e);
    ReplyState(c, e, slot);
    var r := Apply(Recovered(c, Unknown), e, slot).value;
    LightRoom(c, n, p);
    LightNumbers(c, n, p);
    NoTool(c);
    DueModel(c, e);
    DueRoom(Recovered(c, Unknown), e, slot);
    if e.body.size == 0 {
      assert Messages(c.groups) + [] == Messages(c.groups);
      LightSame(c, Bump(r.state), n, p, p + 2);
      LightWider(Bump(r.state), n, p + 2);
      LegibleMore(c, Bump(r.state), []);
    } else {
      LightMore(c, Bump(r.state), n, p, p + 2, ReplyMessage(e));
      LegibleMore(c, Bump(r.state), [ReplyMessage(e)]);
    }
    LightFits(Bump(r.state), n + 1, p + 2);
    PublishableIs(Bump(r.state));
  }

  lemma {:induction false} DueModel(c: Checkpoint, e: Event)
    requires Due(c, e) && e.body.ModelCompleted?
    ensures c.model.Some? && e.position == c.next
  {
  }

  lemma {:induction false} LightWider(c: Checkpoint, n: nat, p: nat)
    requires Light(c, n, p)
    ensures Light(c, n + 1, p)
  {
  }

  function ReplyOf(s: Solo, calls: seq<ToolId>, size: nat): Event
    requires s.x.state.model.Some?
  {
    Event(s.issued, s.x.state.next, ModelCompleted(s.x.state.model.value.call, s.x.state.model.value.request, calls,
                                                   size))
  }

  /** A reply of any size is captured; the process has yet to hear of it. */
  lemma {:induction false} Offered(first: Checkpoint, s: Solo, calls: seq<ToolId>, size: nat) returns (t: Solo)
    requires Still(first, s) && s.x.phase.Unknown? && HasWire(s.x.state, 0) && ReplyFits(s.x.state.groups, calls, size)
    ensures Reachable(first, Of(t))
    ensures t == Solo(s.log + [ReplyOf(s, calls, size)], s.x.(capture := Some(Capture(ReplyOf(s, calls, size), None))),
                      s.issued + 6, s.sent, s.runs)
    ensures Head(t.log) == Head(s.log) > 0 && HeadState(t.log) == HeadState(s.log)
  {
    hide Reachable, InstanceEnabled, Moved, Appended, InstInv, LogInv, TailInv, LogContent, StateContent, Admissible,
         Light, Legible, ReplyFits;
    Known(first, s);
    QueueReplyEffect(Of(s), s.x, 0, calls, size);
    t := ActCommit(first, s, QueueReply(0, calls, size), s.x.(capture := Some(Capture(ReplyOf(s, calls, size), None))));
  }

  /** A short reply is captured, applied and checkpointed. */
  lemma {:induction false} Replied(first: Checkpoint, s: Solo, n: nat, p: nat, calls: seq<ToolId>, size: nat)
    returns (t: Solo)
    requires Good(first, s, n, p) && n < 139 && p < 99990
    requires s.x.phase.Unknown? && HasWire(s.x.state, 0) && ReplyFits(s.x.state.groups, calls, size) && size <= 1
             && |calls| <= 1
    requires size > 0 ==> RoomInLast(s.x.state) && NoneAsked(s.x.state.groups, calls)
    ensures Good(first, t, n + 1, p + 2) && t.x.phase.Ready? && |s.x.state.groups| > 0
            && t.x.state.tool == s.x.state.tool
    ensures t.x.state.groups == ReplyGroups(s.x.state.groups, ReplyOf(s, calls, size))
    ensures 0 < Head(t.log) == |t.log| && HeadState(t.log) == t.x.state
  {
    hide Reachable, InstanceEnabled, Moved, Appended, InstInv, LogInv, TailInv, LogContent, StateContent, Publishable,
         Admissible, Light, Legible, Apply, RoomInLast, NoneAsked, ReplyGroups;
    var e := ReplyOf(s, calls, size);
    Known(first, s);
    var u := Offered(first, s, calls, size);
    ReplyPublishable(first, s, n, p, e, u.issued);
    var r := Apply(Recovered(s.x.state, Unknown), e, u.issued).value;
    assert u.log[|s.log|] == e;
    AckCaptureEffect(Of(u), u.x);
    t := ActSave(first, u, AckCapture, u.x.(state := r.state, phase := Ready, capture := None));
    PublishableIs(Bump(r.state));
    StillActive(s.x.state, n, p);
  }

  // ---------------------------------------------------------------- a tool is run

  lemma {:induction false} ToolPublishable(c: Checkpoint, n: nat, p: nat, t: PendingTool)
    requires Admissible(c) && Light(c, n, p) && n < 139 && p < 99990 && c.model.None? && Legible(c) && c.next < p
    requires t.requestAt == c.next + 1 && t.outcomeAt == c.next + 2
    requires |c.groups| > 0 && !LastComplete(c.groups) && Waiting(c.groups[|c.groups| - 1], t.call)
    ensures var d := Bump(c.(tool := Some(t)));
            Publishable(d) && Light(d, n, p + 2) && Legible(d)
  {
    hide Messages, GroupsWidth, GroupsSound, Bounded, Admissible, Light, EncodedSize, Asks, Answers;
    var d := Bump(c.(tool := Some(t)));
    LightNumbers(c, n, p);
    AdmissibleParts(c);
    BoundedSame(c, d);
    AdmissibleIs(c, d);
    LightSame(c, d, n, p, p + 2);
    LightFits(d, n, p + 2);
    PublishableIs(d);
  }

  /** The intent is planned and checkpointed, with its two positions reserved. */
  lemma {:induction false} ToolPlanned(first: Checkpoint, s: Solo, n: nat, p: nat, call: ToolId) returns (t: Solo)
    requires Good(first, s, n, p) && n < 139 && p < 99990 && s.x.phase.Ready? && s.x.state.tool.None?
             && s.x.state.next < p
    requires |s.x.state.groups| > 0 && !LastComplete(s.x.state.groups)
             && Waiting(s.x.state.groups[|s.x.state.groups| - 1], call)
    ensures Good(first, t, n, p + 2) && t.x.phase.Ready? && t.x.state.groups == s.x.state.groups
    ensures t.x.state.tool == Some(PendingTool(call, 0, s.issued, t.x.state.next, s.issued + 1, t.x.state.next + 1))
    ensures !IdLogged(t.log, s.issued) && !IdLogged(t.log, s.issued + 1)
    ensures 0 < Head(t.log) == |t.log| && HeadState(t.log) == t.x.state
  {
    hide Reachable, InstanceEnabled, Moved, Appended, InstInv, LogInv, TailInv, LogContent, StateContent, Publishable,
         Admissible, Light, Legible, LastComplete, Waiting;
    var tool := PendingTool(call, 0, s.issued, s.x.state.next + 1, s.issued + 1, s.x.state.next + 2);
    Known(first, s);
    ReadyFits(s.log, s.x);
    PlanToolEffect(Of(s), s.x, call, 0);
    ToolPublishable(s.x.state, n, p, tool);
    var y := s.x.(state := s.x.state.(tool := Some(tool)));
    t := ActSave(first, s, PlanTool(call, 0), y);
    PublishableIs(Bump(y.state));
    AppendUnlogged(s.log, SaveEvent(y.state, s.issued + 2), s.issued);
    AppendUnlogged(s.log, SaveEvent(y.state, s.issued + 2), s.issued + 1);
    StillActive(s.x.state, n, p);
  }

  /** The intent is accepted and the tool runs once. */
  lemma {:induction false} ToolRuns(first: Checkpoint, s: Solo) returns (t: Solo)
    requires Reachable(first, Of(s)) && Idle(s.x) && s.x.phase.Ready? && s.x.state.tool.Some?
    requires s.x.state.tool.value.requestAt == s.x.state.next == |s.log| + 1
             && !IdLogged(s.log, s.x.state.tool.value.request)
    ensures Reachable(first, Of(t))
    ensures t.log == s.log + [IntentEvent(s.x.state.tool.value)] && t.x == s.x.(permit := None)
    ensures Head(t.log) == Head(s.log) > 0 && HeadState(t.log) == HeadState(s.log)
  {
    hide Reachable, InstanceEnabled, Moved, Appended, InstInv, LogInv, TailInv, LogContent, StateContent;
    var e := IntentEvent(s.x.state.tool.value);
    Known(first, s);
    FreshAccepts(s.log, e);
    CommitIntentEffect(Of(s), s.x, true);
    Act(first, s, CommitIntent(true));
    var u := s.(log := s.log + [e], x := s.x.(permit := Some(s.x.state.tool.value.request)), issued := s.issued + 3);
    assert s.runs + [] == s.runs;
    assert Acted(s, CommitIntent(true)) == u;
    RunToolEffect(Of(u), u.x);
    Act(first, u, RunTool);
    t := Acted(u, RunTool);
    assert u.log + [] == u.log;
    HeadFirst(s.log);
    HeadGrows(s.log, e);
  }

  /** Its outcome is captured; the process has yet to hear of it. */
  lemma {:induction false} ToolReports(first: Checkpoint, s: Solo, bytes: Option<Content>) returns (t: Solo)
    requires Reachable(first, Of(s)) && Idle(s.x) && s.x.phase.Ready? && s.x.state.tool.Some? && s.x.permit.None?
    requires var tool := s.x.state.tool.value;
             && s.log != [] && s.log[|s.log| - 1] == IntentEvent(tool) && tool.requestAt == |s.log|
             && tool.outcomeAt == |s.log| + 1 && !IdLogged(s.log, tool.outcome)
    ensures Reachable(first, Of(t))
    ensures var e := OutcomeEvent(s.x.state.tool.value, ToolCompleted, bytes);
            t.log == s.log + [e] && t.x == s.x.(toolCapture := Some(e)) && t.issued == s.issued + 6
    ensures Head(t.log) == Head(s.log) > 0 && HeadState(t.log) == HeadState(s.log)
  {
    hide Reachable, InstanceEnabled, Moved, Appended, InstInv, LogInv, TailInv, LogContent, StateContent;
    var e := OutcomeEvent(s.x.state.tool.value, ToolCompleted, bytes);
    Known(first, s);
    QueueOutcomeEffect(Of(s), s.x, ToolCompleted, bytes);
    Act(first, s, QueueOutcome(ToolCompleted, bytes));
    var u := s.(x := s.x.(toolCapture := Some(e)), issued := s.issued + 3);
    assert s.log + [] == s.log && s.runs + [] == s.runs;
    assert Acted(s, QueueOutcome(ToolCompleted, bytes)) == u;
    FreshAccepts(s.log, e);
    CommitEffect(Of(u), u.x, CommitOutcome, e);
    Act(first, u, CommitOutcome);
    t := u.(log := u.log + [e], issued := u.issued + 3);
    assert u.runs + [] == u.runs;
    assert Acted(u, CommitOutcome) == t;
    HeadFirst(s.log);
    HeadGrows(s.log, e);
  }

  function ResultGroups(groups: seq<Group>, e: Event, call: ToolId): seq<Group>
    requires |groups| > 0 && e.body.ToolObserved? && e.body.bytes.Some?
  {
    Replaced(groups, WithMessage(groups[|groups| - 1], ResultMessage(e, call)))
  }

  lemma {:induction false} ResultState(c: Checkpoint, e: Event, slot: EventId)
    requires Admissible(c) && GroupsInv(c) && Due(c, e) && e.body.ToolObserved? && e.body.outcome.ToolCompleted?
    requires e.body.bytes == Some(Content(1, true))
    ensures |c.groups| > 0
    ensures var r := Apply(Recovered(c, Ready), e, slot);
            && r.Some?
            && r.value == Recovered(c.(groups := ResultGroups(c.groups, e, c.tool.value.call), tool := None,
                                       next := c.next + 1),
                                    Ready)
    ensures var groups := ResultGroups(c.groups, e, c.tool.value.call);
            && Messages(groups) == Messages(c.groups) + [ResultMessage(e, c.tool.value.call)]
            && GroupsWidth(groups) <= GroupsWidth(c.groups) + 1000
            && |groups| == |c.groups| && LastSequence(groups) == LastSequence(c.groups)
  {
    hide Messages, MessageWidth, MessagesWidth, GroupsWidth, Digits, Admissible, GroupsInv;
    OpenLast(c);
    var m := ResultMessage(e, c.tool.value.call);
    var last, grown := c.groups[|c.groups| - 1], ResultGroups(c.groups, e, c.tool.value.call)[|c.groups| - 1];
    ReplacedWidth(c.groups, grown);
    WidthSmall(m);
    MessagesWidthMore(last.messages, m);
    MessagesReplaced(c.groups, grown, [m]);
  }

  /** The intent applied: only the position moved. */
  lemma {:induction false} IntentAdmissible(c: Checkpoint)
    requires Admissible(c) && c.status.Active? && c.tool.Some?
    requires c.tool.value.requestAt == c.next && c.tool.value.outcomeAt == c.next + 1
    ensures Admissible(c.(next := c.next + 1))
  {
    hide Messages, GroupsSound, Bounded, Admissible, Asks;
    var t := c.(next := c.next + 1);
    AdmissibleParts(c);
    AdmissibleRevision(c);
    BoundedSame(c, t);
    AdmissibleIs(c, t);
  }

  lemma {:induction false} ResultPublishable(first: Checkpoint, s: Solo, n: nat, p: nat, slot: EventId)
    requires Good(first, s, n, p) && n < 139 && p < 99990 && s.x.state.tool.Some? && RoomInLast(s.x.state)
    requires var tool := s.x.state.tool.value;
             tool.requestAt == s.x.state.next && tool.outcomeAt == s.x.state.next + 1 && !IdLogged(s.log, tool.outcome)
    ensures |s.x.state.groups| > 0
    ensures var c := s.x.state;
            var e := OutcomeEvent(c.tool.value, ToolCompleted, Some(Content(1, true)));
            var r := Apply(Recovered(c.(next := c.next + 1), Ready), e, slot);
            && r.Some? && r.value.phase.Ready?
            && r.value.state == c.(groups := ResultGroups(c.groups, e, c.tool.value.call), tool := None,
                                   next := c.next + 2)
            && Publishable(Bump(r.value.state)) && Light(Bump(r.value.state), n + 1, p + 3)
            && Legible(Bump(r.value.state))
  {
    hide Reachable, Messages, GroupsWidth, Publishable, Admissible, RoomForBytes, EncodedSize, Legible,
         ApplyToolOutcome, GroupsInv, RoomInLast, Light, ResultGroups, NewSource, ToolWaits;
    var c := s.x.state;
    var d := c.(next := c.next + 1);
    var e := OutcomeEvent(c.tool.value, ToolCompleted, Some(Content(1, true)));
    GoodSituated(first, s, n, p, e);
    LightNumbers(c, n, p);
    IntentAdmissible(c);
    NextOnly(c, d);
    ResultState(d, e, slot);
    assert Situated(d, e) by {
      SameWaits(c, d);
    }
    var r := Apply(Recovered(d, Ready), e, slot).value;
    LightRoom(c, n, p);
    SameBytes(c, d);
    DueRoom(Recovered(d, Ready), e, slot);
    LightMore(c, Bump(r.state), n, p, p + 3, ResultMessage(e, c.tool.value.call));
    LegibleMore(c, Bump(r.state), [ResultMessage(e, c.tool.value.call)]);
    LightFits(Bump(r.state), n + 1, p + 3);
    PublishableIs(Bump(r.state));
  }

  lemma {:induction false} SameWaits(c: Checkpoint, d: Checkpoint)
    requires d == c.(next := d.next) && ToolWaits(c)
    ensures ToolWaits(d)
  {
  }

  lemma {:induction false} SameBytes(c: Checkpoint, d: Checkpoint)
    requires d == c.(next := d.next)
    ensures RoomForBytes(c, 1) == RoomForBytes(d, 1) && RoomInLast(c) == RoomInLast(d)
  {
  }

  lemma {:induction false} SettledAs(log: seq<Event>, c: Checkpoint, e: Event, slot: EventId)
    requires c.status.Active? && c.tool.Some? && c.model.None?
    requires var tool := c.tool.value;
             && 0 < c.next == |log| - 1 && tool.requestAt == c.next && tool.outcomeAt == c.next + 1
             && e == OutcomeEvent(tool, ToolCompleted, Some(Content(1, true)))
             && log[c.next - 1] == IntentEvent(tool) && log[c.next] == e
    ensures IntentLogged(log, c.tool.value) && OutcomeLogged(log, c.tool.value)
    ensures Settle(log, c, slot) == Apply(Recovered(c.(next := c.next + 1), Ready), e, slot)
  {
    hide ApplyToolOutcome;
  }

  /** The outcome is applied with its intent, and checkpointed. */
  lemma {:induction false} ToolSettles(first: Checkpoint, s: Solo, u: Solo, n: nat, p: nat) returns (t: Solo)
    requires Good(first, s, n, p) && n < 139 && p < 99990 && s.x.phase.Ready? && s.x.state.tool.Some?
             && RoomInLast(s.x.state)
    requires var tool := s.x.state.tool.value;
             && tool.requestAt == s.x.state.next && tool.outcomeAt == s.x.state.next + 1
             && !IdLogged(s.log, tool.outcome)
             && var e := OutcomeEvent(tool, ToolCompleted, Some(Content(1, true)));
                && u.log == s.log + [IntentEvent(tool)] + [e]
                && u.x == s.x.(permit := None, toolCapture := Some(e))
    requires Reachable(first, Of(u)) && Head(u.log) == Head(s.log)
    ensures Good(first, t, n + 1, p + 3) && t.x.phase.Ready? && t.x.state.tool.None? && |s.x.state.groups| > 0
    ensures var e := OutcomeEvent(s.x.state.tool.value, ToolCompleted, Some(Content(1, true)));
            t.x.state.groups == ResultGroups(s.x.state.groups, e, s.x.state.tool.value.call)
    ensures 0 < Head(t.log) == |t.log| && HeadState(t.log) == t.x.state
  {
    hide Reachable, InstanceEnabled, Moved, Appended, InstInv, LogInv, TailInv, LogContent, StateContent, Publishable,
         Admissible, Light, Legible, Apply, Settle, RoomInLast, ResultGroups;
    var c, tool := s.x.state, s.x.state.tool.value;
    var e := OutcomeEvent(tool, ToolCompleted, Some(Content(1, true)));
    Known(first, s);
    ReadyFits(s.log, s.x);
    StillActive(c, n, p);
    ResultPublishable(first, s, n, p, u.issued);
    var r := Apply(Recovered(c.(next := c.next + 1), Ready), e, u.issued).value;
    SettledAs(u.log, c, e, u.issued);
    AckOutcomeEffect(Of(u), u.x);
    t := ActSave(first, u, AckOutcome, u.x.(state := r.state, toolCapture := None));
    PublishableIs(Bump(r.state));
  }

  /** What a validated policy evicts leaves the window, in memory only: the recount after it failed. */
  lemma {:induction false} Evicted(first: Checkpoint, s: Solo, p: Rolling.Policy, max: nat) returns (t: Solo)
    requires Still(first, s) && s.x.phase.Planned?
    requires Rolling.Validates(p, max) && 1 <= Rolling.EvictCount(s.x.state.groups, p)
    ensures Rolling.EvictCount(s.x.state.groups, p) <= |s.x.state.groups|
    ensures Still(first, t) && t.log == s.log
    ensures t.x == s.x.(state := s.x.state.(groups := s.x.state.groups[Rolling.EvictCount(s.x.state.groups, p)..]))
  {
    hide Reachable, InstanceEnabled, Moved, Appended, Admissible, Light, Legible, DropsComplete;
    var n := Rolling.EvictCount(s.x.state.groups, p);
    Rolling.EvictionKeeps(s.x.state.groups, p, n);
    EvictEffect(Of(s), s.x, n);
    Act(first, s, Evict(n));
    t := Acted(s, Evict(n));
    assert s.log + [] == s.log;
  }
}
