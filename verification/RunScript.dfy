/** Runs of a single process, stage by stage: the building blocks of concrete runs. */
module RunScript {
  import opened Wrappers
  import opened OwnedRun
  import opened Bounds
  import opened RunSteps
  import opened RunSafety
  import opened RunProofs
  import opened RunInvariant
  import opened RunContent
  import opened RunEffects
  import opened RunRecovery

  ghost predicate Reachable(first: Checkpoint, w: World) {
    exists steps :: Legal(first, steps) && After(first, steps) == w
  }

  lemma {:induction false} ReachStep(first: Checkpoint, w: World, step: Step)
    requires Reachable(first, w) && Enabled(w, step)
    ensures Reachable(first, Do(w, step))
  {
    hide Enabled, Do;
    var steps :| Legal(first, steps) && After(first, steps) == w;
    var more := steps + [step];
    assert more[..|more| - 1] == steps;
    assert Legal(first, more) && After(first, more) == Do(w, step);
  }

  lemma {:induction false} ReachableHolds(first: Checkpoint, w: World)
    requires Reachable(first, w)
    ensures Inv(w) && ContentInv(w)
  {
    hide Legal, After, Inv, ContentInv;
    var steps :| Legal(first, steps) && After(first, steps) == w;
    RunKeeps(first, steps);
    RunContentKeeps(first, steps);
  }

  // --------------------------------------------------------- one process alone

  /** A world with one process, past opening and holding no admission. */
  datatype Solo = Solo(log: seq<Event>, x: Instance, issued: nat, sent: seq<Dispatch>, runs: seq<ToolRun>)

  function Of(s: Solo): World {
    World(s.log, map[0 := s.x], s.issued, s.sent, s.runs, {}, map[])
  }

  predicate Plain(a: Action) {
    !a.Resume? && !a.Open? && !a.Crash? && !a.Admit? && !a.Send?
  }

  function Acted(s: Solo, a: Action): Solo
    requires InstanceEnabled(Of(s), s.x, a)
  {
    Solo(s.log + Appended(Of(s), s.x, a), Moved(Of(s), s.x, a), s.issued + 3, s.sent, s.runs + Ran(s.x, a))
  }

  lemma {:induction false} Act(first: Checkpoint, s: Solo, a: Action)
    requires Reachable(first, Of(s)) && Plain(a) && InstanceEnabled(Of(s), s.x, a)
    ensures Reachable(first, Of(Acted(s, a)))
  {
    hide Reachable, InstanceEnabled, Moved, Appended;
    ReachStep(first, Of(s), Step(0, a));
    assert Of(s).live[0 := Moved(Of(s), s.x, a)] == map[0 := Moved(Of(s), s.x, a)];
    var none: map<nat, Admission> := map[];
    assert s.sent + [] == s.sent && none - {0} == none;
    assert Do(Of(s), Step(0, a)) == Of(Acted(s, a));
  }

  lemma {:induction false} Known(first: Checkpoint, s: Solo)
    requires Reachable(first, Of(s))
    ensures LogInv(s.log) && TailInv(s.log) && InstInv(s.log, s.x) && LogContent(s.log)
            && StateContent(s.log, s.x.state)
    ensures forall id: EventId :: id >= s.issued ==> !IdLogged(s.log, id)
    ensures s.x.save.None? && s.x.state.next == |s.log| + 1 ==> s.x.receipt == Head(s.log)
  {
    hide Reachable, InstInv, LogInv, TailInv, LogContent, StateContent, WindowInv, HoldersInv, SentInv, PermitsInv,
         RunsInv;
    ReachableHolds(first, Of(s));
    assert 0 in Of(s).live && Of(s).live[0] == s.x;
    if s.x.save.None? && s.x.state.next == |s.log| + 1 {
      CurrentHead(s.log, s.x);
    }
  }

  /** An action that retains a checkpoint, which is then committed and acknowledged. */
  lemma {:induction false} ActSave(first: Checkpoint, s: Solo, a: Action, y: Instance) returns (t: Solo)
    requires Reachable(first, Of(s)) && Plain(a) && InstanceEnabled(Of(s), s.x, a)
    requires Moved(Of(s), s.x, a) == WithSave(y, s.issued + 2) && Appended(Of(s), s.x, a) == [] && Ran(s.x, a) == []
    requires y.receipt == Head(s.log) && y.state.next == |s.log| + 1 && Publishable(Bump(y.state))
    ensures Reachable(first, Of(t))
    ensures t == Solo(s.log + [SaveEvent(y.state, s.issued + 2)],
                      y.(state := Bump(y.state), receipt := |s.log| + 1, save := None),
                      s.issued + 9, s.sent, s.runs)
    ensures 0 < Head(t.log) == |t.log| && HeadState(t.log) == t.x.state
  {
    hide Reachable, InstanceEnabled, Moved, Appended, InstInv, LogInv, TailInv, LogContent, StateContent, Publishable;
    Known(first, s);
    Act(first, s, a);
    var u := s.(x := WithSave(y, s.issued + 2), issued := s.issued + 3);
    assert s.log + [] == s.log && s.runs + [] == s.runs;
    assert Acted(s, a) == u;
    Known(first, u);
    SaveAccepted(Of(u), u.x);
    var e := u.x.save.value;
    CommitEffect(Of(u), u.x, CommitSave, e);
    Act(first, u, CommitSave);
    var v := u.(log := u.log + [e], issued := u.issued + 3);
    assert u.runs + [] == u.runs;
    assert Acted(u, CommitSave) == v;
    assert v.log[|u.log|] == e;
    AckSaveEffect(Of(v), v.x);
    Act(first, v, AckSave);
    t := v.(x := y.(state := Bump(y.state), receipt := |s.log| + 1, save := None), issued := v.issued + 3);
    assert v.log + [] == v.log && v.runs + [] == v.runs;
    assert Acted(v, AckSave) == t;
    HeadIs(t.log, |t.log|);
  }

  /** An action that retains an event, which is then committed; its acknowledgement is not waited for. */
  lemma {:induction false} ActCommit(first: Checkpoint, s: Solo, a: Action, y: Instance) returns (t: Solo)
    requires Reachable(first, Of(s)) && Plain(a) && InstanceEnabled(Of(s), s.x, a)
    requires Moved(Of(s), s.x, a) == y && Appended(Of(s), s.x, a) == [] && Ran(s.x, a) == []
    requires y.capture.Some? && !y.capture.value.event.body.Checkpointed? && !IdLogged(s.log, y.capture.value.event.id)
    requires y.capture.value.event.position == |s.log| + 1
    ensures Reachable(first, Of(t))
    ensures t == Solo(s.log + [y.capture.value.event], y, s.issued + 6, s.sent, s.runs)
    ensures Head(t.log) == Head(s.log) > 0 && HeadState(t.log) == HeadState(s.log)
  {
    hide Reachable, InstanceEnabled, Moved, Appended, InstInv, LogInv, TailInv, LogContent, StateContent;
    var e := y.capture.value.event;
    Known(first, s);
    Act(first, s, a);
    var u := s.(x := y, issued := s.issued + 3);
    assert s.log + [] == s.log && s.runs + [] == s.runs;
    assert Acted(s, a) == u;
    FreshAccepts(s.log, e);
    CommitEffect(Of(u), y, CommitCapture, e);
    Act(first, u, CommitCapture);
    t := u.(log := u.log + [e], issued := u.issued + 3);
    assert u.runs + [] == u.runs;
    assert Acted(u, CommitCapture) == t;
    HeadFirst(s.log);
    HeadGrows(s.log, e);
  }

  lemma {:induction false} FreshAccepts(log: seq<Event>, e: Event)
    requires LogInv(log) && !IdLogged(log, e.id) && e.position == |log| + 1
    ensures Accepts(log, e)
  {
    hide CheckpointInv;
  }

  lemma {:induction false} Crashes(first: Checkpoint, s: Solo)
    requires Reachable(first, Of(s))
    ensures Reachable(first, World(s.log, map[], s.issued + 3, s.sent, s.runs, {}, map[]))
  {
    hide Reachable;
    ReachStep(first, Of(s), Step(0, Crash));
    assert s.log + [] == s.log && s.sent + [] == s.sent && s.runs + [] == s.runs;
    assert Do(Of(s), Step(0, Crash)) == World(s.log, map[], s.issued + 3, s.sent, s.runs, {}, map[]);
  }

  // ------------------------------------------------------------------- small runs

  /** A first checkpoint that leaves most of the encoding free. */
  predicate Small(first: Checkpoint) {
    FirstState(first) && first.identity.width + first.profile.width <= 100000
  }

  function LastSequence(groups: seq<Group>): nat {
    if |groups| == 0 then 0 else groups[|groups| - 1].sequence
  }

  /** Little is resident: at most `n` short messages in at most `n` exchanges, with positions below `p`. */
  predicate Light(c: Checkpoint, n: nat, p: nat) {
    && c.status.Active? && c.obligations == [] && c.identity.width + c.profile.width <= 100000
    && |c.groups| <= n && |Messages(c.groups)| <= n && Bytes(Messages(c.groups)) <= n
    && GroupsWidth(c.groups) <= 1000 * n
    && c.revision <= p && c.next <= p && LastSequence(c.groups) <= n
    && (c.tool.Some? ==> c.tool.value.requestAt <= p && c.tool.value.outcomeAt <= p)
  }

  lemma {:induction false} DigitsSmall(n: nat)
    requires n <= 100000
    ensures Digits(n) <= 6
  {
    assert n / 10 / 10 / 10 / 10 / 10 < 10;
    assert Digits(n / 10 / 10 / 10 / 10 / 10) == 1;
    assert Digits(n / 10 / 10 / 10 / 10) <= 2;
    assert Digits(n / 10 / 10 / 10) <= 3;
    assert Digits(n / 10 / 10) <= 4;
    assert Digits(n / 10) <= 5;
  }

  lemma {:induction false} ProposalSmall(messages: seq<Message>, call: ToolId)
    ensures ProposalSize(messages, call) <= Bytes(messages)
  {
    if |messages| > 0 {
      ProposalSmall(messages[..|messages| - 1], call);
    }
  }

  /** A light state is short enough to publish. */
  lemma {:induction false} LightFits(c: Checkpoint, n: nat, p: nat)
    requires Light(c, n, p) && n <= 140 && p <= 100000
    ensures EncodedSize(c) <= MAX_ENCODED && OpenSourced(c.obligations)
  {
    hide Digits, Messages, GroupsWidth, Bytes, ProposalSize;
    DigitsSmall(c.revision);
    DigitsSmall(c.next);
    if c.tool.Some? {
      ProposalSmall(Messages(c.groups), c.tool.value.call);
      DigitsSmall(ProposalSize(Messages(c.groups), c.tool.value.call));
      DigitsSmall(c.tool.value.requestAt);
      DigitsSmall(c.tool.value.outcomeAt);
    }
  }

  /** A single process that has seen the whole log and retains nothing. */
  ghost predicate Still(first: Checkpoint, s: Solo) {
    Reachable(first, Of(s)) && Idle(s.x) && s.x.state.next == |s.log| + 1
  }

  /** And its state is light and admissible. */
  ghost predicate Good(first: Checkpoint, s: Solo, n: nat, p: nat) {
    Still(first, s) && Admissible(s.x.state) && Light(s.x.state, n, p) && Legible(s.x.state)
  }

  lemma {:induction false} UnloggedSource(log: seq<Event>, groups: seq<Group>, n: nat, id: EventId)
    requires Sourced(log, groups, n) && !IdLogged(log, id)
    ensures NewSource(groups, id)
  {
    hide Messages;
    forall m | m in Messages(groups) ensures m.source != id {
      assert IdBefore(log, m.source, n);
    }
  }

  /** An event that is due next finds a good state situated. */
  lemma {:induction false} GoodSituated(first: Checkpoint, s: Solo, n: nat, p: nat, e: Event)
    requires Good(first, s, n, p) && !IdLogged(s.log, e.id) && ReplyShaped(e)
    ensures Situated(s.x.state, e)
  {
    hide Reachable, LogInv, TailInv, Admissible, Messages, NewSource, Legible, ReplyShaped, LogContent;
    Known(first, s);
    UnloggedSource(s.log, s.x.state.groups, s.x.state.next, e.id);
    GoodGroups(s.log, s.x);
  }

  lemma {:induction false} GoodGroups(log: seq<Event>, x: Instance)
    requires InstInv(log, x) && Idle(x)
    ensures GroupsInv(x.state) && PhaseFits(x)
  {
    hide RequestLogged, TailFits, DropsComplete, GroupsInv, PhaseFits;
  }

  // ----------------------------------------------------------------- the start

  /** The first process resumes, renders the nothing there is, and opens. */
  lemma {:induction false} Started(first: Checkpoint) returns (s: Solo)
    requires FirstState(first)
    ensures Reachable(first, Of(s)) && s.x == Instance(first, 1, Ready, None, None, None, None)
    ensures s.log == [Event(0, 1, Checkpointed(first))] && Head(s.log) == 1 && Admissible(first) && Legible(first)
  {
    var log := [Event(0, 1, Checkpointed(first))];
    HeadIs(log, 1);
    assert log[1..] == [];
    FirstPublishable(first);
    var x := Instance(first, 1, Ready, None, None, None, None);
    StartReached(first, log, x);
    s := Solo(log, x, 7, [], []);
  }

  lemma {:induction false} StartReached(first: Checkpoint, log: seq<Event>, x: Instance)
    requires FirstState(first) && log == [Event(0, 1, Checkpointed(first))] && Head(log) == 1
    requires x == Instance(first, 1, Ready, None, None, None, None)
    ensures Reachable(first, Of(Solo(log, x, 7, [], [])))
  {
    hide Reachable;
    assert log[1..] == [];
    assert Recover(log, 1) == Some(Recovered(first, Ready)) && Resumed(log, 1) == x;
    BeginReachable(first);
    ReachStep(first, Begin(first), Step(0, Resume));
    var opening := World(log, map[0 := x], 4, [], [], {0}, map[]);
    assert Do(Begin(first), Step(0, Resume)) == opening;
    ReachStep(first, opening, Step(0, Action.Open));
    assert log + [] == log;
    assert Do(opening, Step(0, Action.Open)) == Of(Solo(log, x, 7, [], []));
  }

  lemma {:induction false} BeginReachable(first: Checkpoint)
    requires FirstState(first)
    ensures Reachable(first, Begin(first))
  {
    assert Legal(first, []) && After(first, []) == Begin(first);
  }
}
