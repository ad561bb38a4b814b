/**
  Runs that cannot be resumed. Each witness is a legal run of a single process that captures one event durably and
  then crashes before the checkpoint that should follow it: the run is still active, nobody is alive, and no resume
  completes, then or in any continuation.
 */
module RunWedge {
  import opened Wrappers
  import opened OwnedRun
  import opened Bounds
  import opened RunSteps
  import opened RunSafety
  import opened RunProofs
  import opened RunInvariant
  import opened RunContent
  import opened RunEffects
  import opened RunRecovery
  import opened RunLost
  import opened RunScript
  import opened RunStages
  import Rolling

  /** Active, nobody alive, not resumable, and never to be resumed. */
  ghost predicate Wedged(w: World) {
    && w.live == map[] && Head(w.log) > 0 && HeadState(w.log).status.Active?
    && !Resumable(w) && Lost(w)
  }

  /** A crash that leaves a log which fails the recovery condition. */
  lemma {:induction false} CrashLoses(first: Checkpoint, s: Solo) returns (w: World)
    requires Reachable(first, Of(s)) && Head(s.log) > 0 && HeadState(s.log).status.Active? && !Recoverable(s.log)
    ensures Reachable(first, w) && w.log == s.log && w.live == map[] && Wedged(w)
  {
    hide Reachable, Resumable, Recoverable, Inv, LogContent;
    Crashes(first, s);
    w := World(s.log, map[], s.issued + 3, s.sent, s.runs, {}, map[]);
    ReachableHolds(first, w);
    RecoverableIs(w);
  }

  /** The last event was captured with no room for it, in what follows the last checkpoint. */
  lemma {:induction false} CrashWedges(first: Checkpoint, s: Solo) returns (w: World)
    requires Reachable(first, Of(s)) && 0 < Head(s.log) < |s.log|
    requires HeadState(s.log).status.Active? && Legible(HeadState(s.log))
             && !EventFits(HeadState(s.log), s.log[|s.log| - 1])
    ensures Reachable(first, w) && w.log == s.log && Wedged(w)
    ensures OutputText(s.log[|s.log| - 1]) ==> Sealed(w)
  {
    hide Reachable, Resumable, Legible, EventFits, Inv, ContentInv, OutputText;
    w := CrashLoses(first, s);
  }

  // ---------------------------------------------------------------- whole exchanges

  /** A user message is captured, a call is sent for it, and its reply is awaited. */
  lemma {:induction false} Asked(first: Checkpoint, s: Solo, n: nat, p: nat) returns (t: Solo)
    requires Good(first, s, n, p) && n < 138 && p < 99980
    requires s.x.phase.Ready? && LastComplete(s.x.state.groups) && |s.x.state.groups| < MAX_GROUPS
    ensures Good(first, t, n + 1, p + 4) && t.x.phase.Unknown? && HasWire(t.x.state, 0) && t.x.state.tool.None?
    ensures |t.x.state.groups| == |s.x.state.groups| + 1 && t.x.state.groups[..|s.x.state.groups|] == s.x.state.groups
    ensures |t.x.state.groups[|s.x.state.groups|].messages| == 1
    ensures t.x.state.groups[|s.x.state.groups|].messages[0].toolCalls == []
    ensures t.x.state.groups[|s.x.state.groups|].messages[0].toolResult.None?
    ensures Head(t.log) > 0 && Legible(HeadState(t.log)) && HeadState(t.log).status.Active?
    ensures HeadState(t.log).groups == t.x.state.groups
  {
    hide Reachable, Legible, Light, Admissible;
    var a := Said(first, s, n, p);
    NothingAwaited(a.x.state.groups);
    var b := RunStages.Planned(first, a, n + 1, p + 2);
    var c := Requested(first, b, n + 1, p + 3);
    t := SentOff(first, c);
  }

  /** An exchange of one message, which proposes no call. */
  predicate Silent(g: Group) {
    |g.messages| == 1 && g.messages[0].toolCalls == []
  }

  lemma {:induction false} NothingAwaited(groups: seq<Group>)
    requires |groups| > 0 && |groups[|groups| - 1].messages| == 1 && groups[|groups| - 1].messages[0].toolCalls == []
    ensures !HasOutstanding(groups)
  {
  }

  /** A reply without text or calls completes the exchange. */
  lemma {:induction false} Exchanged(first: Checkpoint, s: Solo, n: nat, p: nat) returns (t: Solo)
    requires Good(first, s, n, p) && n < 137 && p < 99980
    requires s.x.phase.Ready? && LastComplete(s.x.state.groups) && |s.x.state.groups| < MAX_GROUPS
    ensures Good(first, t, n + 2, p + 6) && t.x.phase.Ready? && LastComplete(t.x.state.groups)
    ensures |t.x.state.groups| == |s.x.state.groups| + 1 && t.x.state.groups[..|s.x.state.groups|] == s.x.state.groups
    ensures Silent(t.x.state.groups[|s.x.state.groups|])
    ensures 0 < Head(t.log) == |t.log| && HeadState(t.log) == t.x.state
  {
    hide Reachable, Legible, Light, Admissible, Asks;
    var a := Asked(first, s, n, p);
    t := Replied(first, a, n + 1, p + 4, [], 0);
  }

  lemma {:induction false} Filled(first: Checkpoint, k: nat) returns (s: Solo)
    requires Small(first) && k <= MAX_GROUPS
    ensures Good(first, s, 2 * k, 6 * k + 2) && s.x.phase.Ready? && LastComplete(s.x.state.groups)
    ensures |s.x.state.groups| == k && Head(s.log) == |s.log| && HeadState(s.log) == s.x.state
  {
    hide Reachable, Legible, Admissible, Publishable;
    if k == 0 {
      s := Begun(first);
    } else {
      var a := Filled(first, k - 1);
      s := Exchanged(first, a, 2 * (k - 1), 6 * (k - 1) + 2);
    }
  }

  lemma {:induction false} Begun(first: Checkpoint) returns (s: Solo)
    requires Small(first)
    ensures Good(first, s, 0, 2) && s.x.phase.Ready? && s.x.state == first
    ensures 0 < Head(s.log) == |s.log| && HeadState(s.log) == s.x.state
  {
    hide Reachable, Legible, Admissible, Publishable;
    s := Started(first);
  }

  // ------------------------------------------------------------- the full window

  /** One message too many: 64 exchanges are checkpointed, the oldest is evicted in memory only. */
  lemma {:induction false} Overrun(first: Checkpoint) returns (s: Solo)
    requires Small(first)
    ensures Reachable(first, Of(s)) && |s.log| > 0 && s.log[|s.log| - 1].body == UserMessage(1)
    ensures 0 < Head(s.log) == |s.log| - 1 && HeadState(s.log).status.Active? && Legible(HeadState(s.log))
    ensures |HeadState(s.log).groups| == MAX_GROUPS && LastComplete(HeadState(s.log).groups)
    ensures HeadState(s.log).model.None? && HeadState(s.log).tool.None?
            && HeadState(s.log).next == |s.log| == s.log[|s.log| - 1].position
  {
    hide Reachable, InstanceEnabled, Moved, Appended, InstInv, LogInv, TailInv, LogContent, StateContent, Admissible,
         Light, Legible, LastComplete;
    var a := Filled(first, MAX_GROUPS);
    Known(first, a);
    ReadyFits(a.log, a.x);
    var p := Rolling.Policy(2, 1, 1, 1, 1);
    Rolling.FullWindowEvicts(a.x.state.groups, p, 3);
    var n := Rolling.EvictCount(a.x.state.groups, p);
    QueueUserEffect(Of(a), a.x, 1, n);
    var e := Event(a.issued, a.x.state.next, UserMessage(1));
    s := ActCommit(first, a, QueueUser(1, n),
                   a.x.(state := a.x.state.(groups := a.x.state.groups[n..]), capture := Some(Capture(e, None))));
  }

  /** The window was full when the message was captured. */
  lemma {:induction false} FullWindowWedges(first: Checkpoint) returns (w: World)
    requires Small(first)
    ensures Reachable(first, w) && Wedged(w) && Sealed(w)
    ensures w.log != [] && w.log[|w.log| - 1].body.UserMessage? && |HeadState(w.log).groups| == MAX_GROUPS
  {
    hide Reachable, Legible, Wedged, Sealed, OutputFits, EncodedAfter;
    var s := Overrun(first);
    w := CrashWedges(first, s);
    WedgedHead(w);
  }

  lemma {:induction false} WedgedHead(w: World)
    requires Wedged(w)
    ensures Head(w.log) > 0 && HeadState(w.log).status.Active?
  {
  }

  /** A resume replays a message that finds 64 exchanges checkpointed. */
  lemma {:induction false} ResumesOver(log: seq<Event>, issued: nat)
    requires 0 < Head(log) == |log| - 1 && HeadState(log).next == |log| == log[|log| - 1].position
    requires log[|log| - 1].body == UserMessage(1) && HeadState(log).model.None? && HeadState(log).tool.None?
    requires |HeadState(log).groups| == MAX_GROUPS && LastComplete(HeadState(log).groups)
    ensures Recover(log, issued).Some? && Overfull(log, Resumed(log, issued))
  {
    hide LastComplete;
    var e := log[|log| - 1];
    var r := Recovered(HeadState(log), Ready);
    assert log[Head(log)..] == [e] && [e][1..] == [];
    assert ApplyAll(Apply(r, e, issued).value, [], issued) == Apply(r, e, issued);
    assert ApplyAll(r, [e], issued) == Apply(r, e, issued);
  }

  /** The one way a process comes to hold 65 exchanges: it resumed such a run, and cannot open. */
  lemma {:induction false} OverfullReached(first: Checkpoint) returns (w: World)
    requires Small(first)
    ensures Reachable(first, w) && 0 in w.live && 0 in w.opening && Overfull(w.log, w.live[0]) && Lost(w)
  {
    hide Reachable, Legible, Wedged, Sealed, Lost, LastComplete;
    var s := Overrun(first);
    var e := s.log[|s.log| - 1];
    Crashes(first, s);
    var v := World(s.log, map[], s.issued + 3, s.sent, s.runs, {}, map[]);
    ResumesOver(s.log, v.issued);
    ReachStep(first, v, Step(0, Resume));
    w := Do(v, Step(0, Resume));
    OverrunLost(first, s, v, w);
  }

  lemma {:induction false} OverrunLost(first: Checkpoint, s: Solo, v: World, w: World)
    requires Reachable(first, v) && Reachable(first, w) && v.live == map[] && v.log == s.log
    requires 0 < Head(s.log) < |s.log| && !EventFits(HeadState(s.log), s.log[|s.log| - 1])
    requires Enabled(v, Step(0, Resume)) && w == Do(v, Step(0, Resume))
    ensures Lost(w)
  {
    hide Reachable, Legible, EventFits, Inv, LogContent, StateContent, WindowInv, Resumed, Recover;
    ReachableHolds(first, v);
    ReachableHolds(first, w);
    RecoverableIs(v);
    LostStays(v, Step(0, Resume));
  }

  // ------------------------------------------------------------ captured output

  /** A provider answers with more than one message may hold, and the answer is captured. */
  lemma {:induction false} OversizeReplyWedges(first: Checkpoint) returns (w: World)
    requires Small(first)
    ensures Reachable(first, w) && Wedged(w) && Sealed(w)
    ensures w.log != [] && w.log[|w.log| - 1].body.ModelCompleted? && w.log[|w.log| - 1].body.size == MAX_TEXT + 1
  {
    hide Reachable, Legible, Wedged, Sealed, Light, Admissible, Asks, RoomFor, EncodedAfter;
    var a := Begun(first);
    var b := Asked(first, a, 0, 2);
    var s := Offered(first, b, [], MAX_TEXT + 1);
    w := CrashWedges(first, s);
  }

  lemma {:induction false} OneCall(g: Group, call: ToolId)
    requires |g.messages| == 2 && g.messages[0].toolCalls == [] && g.messages[1].toolCalls == [call]
    requires g.messages[0].toolResult.None? && g.messages[1].toolResult.None?
    ensures Waiting(g, call)
  {
    assert call in g.messages[1].toolCalls;
  }

  lemma {:induction false} NoCallsYet(groups: seq<Group>, calls: seq<ToolId>)
    requires |groups| == 1 && |groups[0].messages| == 1 && groups[0].messages[0].toolCalls == []
    ensures NoneAsked(groups, calls) && forall c :: !Asks(groups[0], c)
  {
    assert groups[..0] == [];
    assert Messages(groups) == groups[0].messages;
  }

  lemma {:induction false} GoodWider(first: Checkpoint, s: Solo, n: nat, p: nat)
    requires Good(first, s, n, p)
    ensures Good(first, s, n, p + 1) && s.x.state.next <= p
  {
    hide Reachable, Legible, Admissible;
  }

  /** A reply proposes one call, which is planned. */
  lemma {:induction false} Proposed(first: Checkpoint, call: ToolId) returns (s: Solo)
    requires Small(first)
    ensures Good(first, s, 2, 11) && s.x.phase.Ready? && s.x.state.tool.Some? && s.x.state.tool.value.call == call
    ensures |s.x.state.groups| == 1 && |s.x.state.groups[0].messages| == 2 && !s.x.state.groups[0].complete
    ensures s.x.state.groups[0].messages[0].toolCalls == [] && s.x.state.groups[0].messages[0].toolResult.None?
    ensures s.x.state.groups[0].messages[1].toolCalls == [call] && s.x.state.groups[0].messages[1].toolResult.None?
    ensures var t := s.x.state.tool.value;
            && t.requestAt == s.x.state.next && t.outcomeAt == s.x.state.next + 1 && t.request != t.outcome
            && !IdLogged(s.log, t.request) && !IdLogged(s.log, t.outcome)
    ensures 0 < Head(s.log) == |s.log| && HeadState(s.log) == s.x.state
  {
    hide Reachable, Legible, Light, Admissible, Asks, NoneAsked, Waiting;
    var a := Begun(first);
    var b := Asked(first, a, 0, 2);
    NoCallsYet(b.x.state.groups, [call]);
    var c := Replied(first, b, 1, 6, [call], 1);
    OneCall(c.x.state.groups[0], call);
    GoodWider(first, c, 2, 8);
    s := ToolPlanned(first, c, 2, 9, call);
  }

  /** It runs, and its outcome is captured. */
  lemma {:induction false} Reported(first: Checkpoint, s: Solo, bytes: Option<Content>) returns (t: Solo)
    requires Still(first, s) && s.x.phase.Ready? && s.x.state.tool.Some?
    requires var tool := s.x.state.tool.value;
             && tool.requestAt == s.x.state.next && tool.outcomeAt == s.x.state.next + 1 && tool.request != tool.outcome
             && !IdLogged(s.log, tool.request) && !IdLogged(s.log, tool.outcome)
    ensures Reachable(first, Of(t)) && Head(t.log) == Head(s.log) > 0 && HeadState(t.log) == HeadState(s.log)
    ensures var e := OutcomeEvent(s.x.state.tool.value, ToolCompleted, bytes);
            && t.log == s.log + [IntentEvent(s.x.state.tool.value)] + [e]
            && t.x == s.x.(permit := None, toolCapture := Some(e))
  {
    hide Reachable;
    var tool := s.x.state.tool.value;
    var a := ToolRuns(first, s);
    AppendUnlogged(s.log, IntentEvent(tool), tool.outcome);
    t := ToolReports(first, a, bytes);
  }

  /** A tool reports completion without bytes: captured, but there is no message to make of it. */
  lemma {:induction false} AbsentResultWedges(first: Checkpoint) returns (w: World)
    requires Small(first)
    ensures Reachable(first, w) && Wedged(w) && Sealed(w)
    ensures w.log != [] && w.log[|w.log| - 1].body.ToolObserved? && w.log[|w.log| - 1].body.bytes.None?
  {
    hide Reachable, Legible, Wedged, Sealed, Light, Admissible, RoomFor, EncodedAfter;
    var a := Proposed(first, 7);
    var s := Reported(first, a, None);
    w := CrashWedges(first, s);
  }

  /** A tool reports bytes that are not text: captured, but no resume can render them. */
  lemma {:induction false} IllegibleResultWedges(first: Checkpoint) returns (w: World)
    requires Small(first)
    ensures Reachable(first, w) && Wedged(w)
    ensures w.log != [] && w.log[|w.log| - 1].body.ToolObserved?
            && w.log[|w.log| - 1].body.bytes == Some(Content(1, false))
  {
    hide Reachable, Legible, Wedged, Sealed, Light, Admissible, RoomFor, EncodedAfter, OutputFits;
    var a := Proposed(first, 7);
    var s := Reported(first, a, Some(Content(1, false)));
    w := CrashWedges(first, s);
  }

  /** A new obligation whose name has a control character: validation and publication let it through. */
  function Unnameable(scope: nat): Obligation {
    Obligation(Name(0, false, true, 3), scope, ObligationStatus.Open, 1, true, true, 400)
  }

  lemma {:induction false} UnnameablePublishable(first: Checkpoint, scope: nat)
    requires Small(first) && scope in first.identity.scopes
    ensures var t := first.(obligations := [Unnameable(scope)]);
            Revises(first, t) && Admissible(t) && Publishable(Bump(t)) && !Legible(Bump(t))
  {
    var t := first.(obligations := [Unnameable(scope)]);
    assert t.obligations[..0] == [];
    assert OpenObligations(t.obligations) == 1 && OpenBytes(t.obligations) == 1;
    assert ObligationsWidth(t.obligations) == 405;
    assert !Renders(Bump(t).obligations[0]);
  }

  /**
    An obligation is added under a name with a control character and checkpointed, then a crash: no resume can name the
    block it would render. The log is at a checkpoint, with nothing after it.
   */
  lemma {:induction false} ControlNameWedges(first: Checkpoint) returns (w: World)
    requires Small(first)
    ensures Reachable(first, w) && Wedged(w)
    ensures Head(w.log) == |w.log| && exists o :: o in HeadState(w.log).obligations && o.status.Open? && o.id.control
  {
    hide Reachable, InstanceEnabled, Moved, Appended, InstInv, LogInv, TailInv, LogContent, StateContent, Admissible,
         Light, Legible, Wedged, Publishable, Revises;
    var scope :| scope in first.identity.scopes;
    var a := Begun(first);
    var t := first.(obligations := [Unnameable(scope)]);
    UnnameablePublishable(first, scope);
    Known(first, a);
    ReviseEffect(Of(a), a.x, t);
    var s := ActSave(first, a, Revise(t), a.x.(state := t));
    assert Unnameable(scope) in HeadState(s.log).obligations;
    w := CrashLoses(first, s);
  }

  // -------------------------------------------------------------- a repeated call

  /** A call is proposed, run and answered, and its exchange completed. */
  lemma {:induction false} Answered(first: Checkpoint, call: ToolId) returns (s: Solo)
    requires Small(first)
    ensures Good(first, s, 4, 20) && s.x.phase.Ready? && |s.x.state.groups| == 1 && s.x.state.groups[0].complete
    ensures Asks(s.x.state.groups[0], call)
  {
    hide Reachable, Legible, Light, Admissible, NoneAsked;
    var a := Proposed(first, call);
    var b := Reported(first, a, Some(Content(1, true)));
    var c := ToolSettles(first, a, b, 2, 11);
    AllAnswered(c.x.state.groups, call);
    var d := RunStages.Planned(first, c, 3, 14);
    var e := Requested(first, d, 3, 15);
    var f := SentOff(first, e);
    s := Replied(first, f, 3, 16, [], 0);
    AskedStill(c.x.state.groups[0], s.x.state.groups[0], call);
    GoodWider(first, s, 4, 18);
    GoodWider(first, s, 4, 19);
  }

  lemma {:induction false} AllAnswered(groups: seq<Group>, call: ToolId)
    requires |groups| == 1 && |groups[0].messages| == 3
    requires groups[0].messages[0].toolCalls == [] && groups[0].messages[1].toolCalls == [call]
    requires groups[0].messages[2].toolCalls == [] && groups[0].messages[2].toolResult == Some(call)
    ensures !HasOutstanding(groups) && Asks(groups[0], call)
  {
    assert call in groups[0].messages[1].toolCalls;
  }

  lemma {:induction false} AskedStill(g: Group, h: Group, call: ToolId)
    requires Asks(g, call) && h.messages == g.messages
    ensures Asks(h, call)
  {
  }

  lemma {:induction false} NoMessages()
    ensures Messages([]) == []
  {
  }

  lemma {:induction false} AskedInHead(groups: seq<Group>, call: ToolId)
    requires |groups| > 0 && Asks(groups[0], call)
    ensures !NoneAsked(groups, [call])
  {
    hide Messages;
    MessagesDropped(groups, 1);
    MessagesMore([], groups[0]);
    NoMessages();
    assert [] + [groups[0]] == groups[..1];
    var k :| 0 <= k < |groups[0].messages| && call in groups[0].messages[k].toolCalls;
    var m := groups[0].messages[k];
    assert Messages(groups)[k] == m;
    assert m in Messages(groups) && call in [call] && call in m.toolCalls;
  }

  /** A policy that keeps one of two complete exchanges evicts the other. */
  lemma {:induction false} OneToEvict(groups: seq<Group>, p: Rolling.Policy)
    requires |groups| == 3 && groups[0].complete && groups[1].complete && !groups[2].complete && p.keep == p.chunk == 1
    ensures Rolling.EvictCount(groups, p) == 1
  {
    assert groups[1..][0] == groups[1] && groups[1..][1..][0] == groups[2];
  }

  /** A reply that proposes a call fits a window whose exchanges proposed none. */
  lemma {:induction false} SilentFits(groups: seq<Group>, call: ToolId)
    requires forall k :: 0 <= k < |groups| ==> Silent(groups[k])
    ensures ReplyFits(groups, [call], 1)
  {
  }

  /**
    The exchange that proposed a call is evicted in memory, and the next reply proposes a call of the same name.
    The process sees no repetition, but the last checkpoint still holds the first one.
   */
  lemma {:induction false} RepeatedCallWedges(first: Checkpoint) returns (w: World)
    requires Small(first)
    ensures Reachable(first, w) && Wedged(w) && Sealed(w)
    ensures w.log != [] && w.log[|w.log| - 1].body.ModelCompleted? && w.log[|w.log| - 1].body.toolCalls == [7]
    ensures |HeadState(w.log).groups| == 3 && Asks(HeadState(w.log).groups[0], 7)
  {
    hide Reachable, Legible, Wedged, Sealed, Light, Admissible, Asks, EncodedAfter, OutputFits, ReplyFits, Silent;
    var d := Forgot(first, 7);
    SilentFits(d.x.state.groups, 7);
    var e := Requested(first, d, 0, 0);
    var f := SentOff(first, e);
    var s := Offered(first, f, [7], 1);
    AskedInHead(HeadState(s.log).groups, 7);
    w := CrashWedges(first, s);
    WedgedHead(w);
  }

  /** A call is proposed and answered, another exchange follows, and the first is evicted before the third is sent. */
  lemma {:induction false} Forgot(first: Checkpoint, call: ToolId) returns (d: Solo)
    requires Small(first)
    ensures Still(first, d) && d.x.phase.Planned? && d.x.state.model.Some? && d.x.state.tool.None?
    ensures !IdLogged(d.log, d.x.state.model.value.request) && d.x.state.model.value.interrupted.None?
    ensures forall k :: 0 <= k < |d.x.state.groups| ==> Silent(d.x.state.groups[k])
    ensures Head(d.log) > 0 && Legible(HeadState(d.log)) && HeadState(d.log).status.Active?
    ensures |HeadState(d.log).groups| == 3 && Asks(HeadState(d.log).groups[0], call)
  {
    hide Reachable, Legible, Light, Admissible, Asks;
    var o := Answered(first, call);
    var a := Exchanged(first, o, 4, 20);
    var b := Said(first, a, 6, 26);
    NothingAwaited(b.x.state.groups);
    var c := RunStages.Planned(first, b, 7, 28);
    var p := Rolling.Policy(2, 1, 1, 1, 1);
    OneToEvict(c.x.state.groups, p);
    d := Evicted(first, c, p, 3);
    assert HeadState(d.log) == c.x.state;
  }

  // -------------------------------------------------------------- a long encoding

  /**
    The first checkpoint almost fills its encoding, as a reader profile with long names makes it: not even a one-byte
    message fits behind it.
   */
  lemma {:induction false} EncodingWedges(first: Checkpoint) returns (w: World)
    requires FirstState(first) && EncodedSize(first) > MAX_ENCODED - 389
    ensures Reachable(first, w) && Wedged(w) && Sealed(w)
    ensures w.log != [] && w.log[|w.log| - 1].body == UserMessage(1)
  {
    hide Reachable, InstanceEnabled, Moved, Appended, InstInv, LogInv, TailInv, LogContent, StateContent, Admissible,
         Light, Legible, Wedged, Sealed, RoomFor, EncodedAfter, EncodedSize;
    var a := Started(first);
    Known(first, a);
    QueueUserEffect(Of(a), a.x, 1, 0);
    var e := Event(a.issued, 2, UserMessage(1));
    assert first.groups[0..] == first.groups;
    var s := ActCommit(first, a, QueueUser(1, 0), a.x.(capture := Some(Capture(e, None))));
    FirstGrows(first, e);
    w := CrashWedges(first, s);
  }

  lemma {:induction false} FirstGrows(first: Checkpoint, e: Event)
    requires FirstState(first) && e.body == UserMessage(1) && e.position == 2
    ensures EncodedAfter(first, e) == EncodedSize(first) + 389
  {
    var g := NewGroup([], e);
    assert [g.messages[0]][..0] == [];
    assert MessagesWidth([]) == 0 && MessagesWidth(g.messages) == MessageWidth(g.messages[0]) + 1;
  }
}
