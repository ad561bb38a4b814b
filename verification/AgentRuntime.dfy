/**
  The owned runtime as its host sees it: an object whose fields each public method updates step by step.
  Every durable or remote action, and every change of volatile state, is recorded as one action of the
  transition system in RunSteps, so whatever holds of every legal run holds of every use of this class.
 */
module AgentRuntime {
  import opened Wrappers
  import opened OwnedRun
  import opened Bounds
  import opened RunSteps
  import opened RunEffects
  import opened RunSafety
  import RunContent
  import RunFence
  import RunInvariant
  import RunProofs
  import RunRecovery
  import RunRevival
  import RunTheorems
  import Obligations
  import Rolling

  /** The native owner. Its log is real; the run it has been through is ghost. */
  class NativeOwner {
    var log: seq<Event>
    var issued: nat
    ghost const first: Checkpoint
    ghost var history: seq<Step>

    ghost predicate Valid()
      reads this
    {
      && Legal(first, history)
      && After(first, history).log == log
      && After(first, history).issued == issued
    }

    ghost function World(): World
      requires Valid()
      reads this
    {
      After(first, history)
    }

    /** `start`: the run exists once its first checkpoint is durable. */
    constructor (initial: Checkpoint)
      requires FirstState(initial)
      ensures Valid() && history == [] && first == initial
    {
      first := initial;
      history := [];
      log := [Event(0, 1, Checkpointed(initial))];
      issued := 1;
    }

    lemma Sound()
      requires Valid()
      ensures LogInv(log) && TailInv(log)
    {
      hide LogInv, TailInv, After, Legal;
      RunInvariant.RunKeeps(first, history);
    }

    /** Whatever objects use this owner, and however they interleave: no call is sent twice, nor sent uncaptured. */
    lemma SentOnce()
      requires Valid()
      ensures var sent := World().sent;
              && (forall i, j :: 0 <= i < j < |sent| ==> sent[i].call != sent[j].call)
              && (forall k :: 0 <= k < |sent| ==> Backed(log, sent[k]))
    {
      hide After, Legal, Backed;
      RunTheorems.DispatchedAtMostOnce(first, history);
      assert World() == After(first, history);
    }

    /** Nor is any sent that its fence did not accept, for that very call and request. */
    lemma SentFenced(k: nat)
      requires Valid() && k < |World().sent|
      ensures RunFence.Fenced(first, history, World().sent[k])
    {
      hide After, Legal, RunFence.Fenced;
      RunFence.DispatchFenced(first, history, k);
    }

    /** A resume whose checkpoint is durable and whose originals are text was a resume of a recoverable log. */
    lemma CameBack(before: seq<Step>, x: Instance)
      requires Valid() && Legal(first, before)
      requires var w := After(first, before);
               && Head(w.log) > 0 && Recover(w.log, w.issued).Some? && x == Resumed(w.log, w.issued)
               && Legible(x.state) && (x.save.Some? ==> Durable(log, Bump(x.state)))
      ensures RunRecovery.Recoverable(After(first, before).log)
    {
      hide After, Legal, Recover, Resumed, Legible, RunRecovery.Recoverable, LogInv;
      Sound();
      RunInvariant.RunKeeps(first, before);
      RunContent.RunContentKeeps(first, before);
      RunRecovery.PublishedRecovers(After(first, before), log);
    }

    /** What a resume of a recoverable log meets: a replay, an owner that accepts, and originals that render. */
    lemma CanComeBack()
      requires Valid() && RunRecovery.Recoverable(log)
      ensures Head(log) > 0 && Recover(log, issued).Some?
      ensures var x := Resumed(log, issued);
              Legible(x.state) && (x.save.Some? ==> AcceptsSave(log, x.save.value))
    {
      hide After, Legal, Recover, Resumed, Legible, AcceptsSave, RunRecovery.Recoverable;
      RunRecovery.RecoveryExact(first, history);
      RunRevival.ResumableParts(World());
    }

    /** A process past opening holds at most 64 exchanges. */
    lemma Window(who: nat)
      requires Valid() && who in World().live && who !in World().opening
      ensures |World().live[who].state.groups| <= MAX_GROUPS
    {
      hide After, Legal, RunContent.Overfull;
      RunContent.HotWindowExact(first, history, who);
    }

    /** A process rebuilt from the log joins the run. */
    method Join(ghost who: nat)
      requires Valid() && Enabled(World(), Step(who, Resume))
      modifies this
      ensures Valid() && history == old(history) + [Step(who, Resume)] && log == old(log)
      ensures World() == Do(old(World()), Step(who, Resume))
    {
      hide InstanceEnabled, Moved, Appended, Recover, Resumed;
      ghost var step := Step(who, Resume);
      assert (history + [step])[..|history|] == history;
      history := history + [step];
      issued := issued + 3;
    }

    /** One action of process `who` takes effect; a durable one appends its event. */
    method Take(ghost who: nat, ghost a: Action, appended: seq<Event>)
      requires Valid() && !a.Resume? && Enabled(World(), Step(who, a))
      requires appended == Appended(World(), World().live[who], a)
      modifies this
      ensures Valid() && history == old(history) + [Step(who, a)]
      ensures World() == Do(old(World()), Step(who, a))
    {
      ghost var step := Step(who, a);
      assert (history + [step])[..|history|] == history;
      history := history + [step];
      log := log + appended;
      issued := issued + 3;
    }
  }

  /**
    How a public method ended: `NotPersisted` leaves something to retry, `OutcomeUnknown` leaves a call to reconcile.
   */
  datatype Outcome = Finished | Refused | NoEvictableGroup | NotPersisted | OutcomeUnknown

  /** Neither a model nor a tool is reached. */
  predicate Local(a: Action) {
    !a.Send? && !a.RunTool? && !a.ReplayTool?
  }

  /** The actions added are all local. */
  ghost predicate AddsLocal(before: seq<Action>, after: seq<Action>) {
    before <= after && forall k :: |before| <= k < |after| ==> Local(after[k])
  }

  predicate Executes(a: Action) {
    a.RunTool? || a.ReplayTool?
  }

  /** At most one model call was added, and no tool was run. */
  ghost predicate OneCall(before: seq<Action>, after: seq<Action>) {
    && before <= after
    && (forall k :: |before| <= k < |after| ==> !Executes(after[k]))
    && (forall i, j :: |before| <= i < j < |after| ==> !after[i].Send? || !after[j].Send?)
  }

  /** At most one tool execution was added, and no model was called. */
  ghost predicate OneExecution(before: seq<Action>, after: seq<Action>) {
    && before <= after
    && (forall k :: |before| <= k < |after| ==> !after[k].Send?)
    && (forall i, j :: |before| <= i < j < |after| ==> !Executes(after[i]) || !Executes(after[j]))
  }

  /** What the host was told about a call it could not account for. */
  datatype Reconciliation =
    | Completed(digest: Digest, toolCalls: seq<ToolId>, size: nat, encoded: Digest)
    | NeverAccepted(digest: Digest)
    | StillUnknown

  /** `resume`'s loop over the uncheckpointed tail. */
  method ReplayTail(log: seq<Event>, slot: EventId) returns (r: Option<Recovered>)
    requires Head(log) > 0
    ensures r == Recover(log, slot)
  {
    var cp := HeadState(log);
    var tail := log[Head(log)..];
    if |tail| > MAX_TAIL {
      return None;
    }
    var runtime := Recovered(cp, ResumePhase(cp));
    var i := 0;
    while i < |tail|
      invariant 0 <= i <= |tail|
      invariant ApplyAll(runtime, tail[i..], slot) == Recover(log, slot)
    {
      assert tail[i..][0] == tail[i] && tail[i..][1..] == tail[i + 1..];
      var next := Apply(runtime, tail[i], slot);
      if next.None? {
        return None;
      }
      runtime := next.value;
      i := i + 1;
    }
    assert tail[i..] == [];
    r := Some(runtime);
  }

  /** The `c`-th call of the `m`-th message has no result, and every call proposed before it has one. */
  ghost predicate FirstWaiting(group: Group, m: nat, c: nat) {
    && m < |group.messages| && c < |group.messages[m].toolCalls|
    && !Answers(group, group.messages[m].toolCalls[c])
    && (forall k, call :: 0 <= k < m && call in group.messages[k].toolCalls ==> Answers(group, call))
    && (forall j :: 0 <= j < c ==> Answers(group, group.messages[m].toolCalls[j]))
  }

  /** `has_outstanding_tools`. */
  method OutstandingTools(groups: seq<Group>) returns (outstanding: bool)
    ensures outstanding <==> HasOutstanding(groups)
  {
    if |groups| == 0 {
      return false;
    }
    var group := groups[|groups| - 1];
    for m := 0 to |group.messages|
      invariant forall k, call :: 0 <= k < m && call in group.messages[k].toolCalls ==> Answers(group, call)
    {
      var calls := group.messages[m].toolCalls;
      for c := 0 to |calls|
        invariant forall j :: 0 <= j < c ==> Answers(group, calls[j])
      {
        if !Answers(group, calls[c]) {
          assert calls[c] in group.messages[m].toolCalls && Waiting(group, calls[c]);
          return true;
        }
      }
    }
    outstanding := false;
  }

  /** A call as the captured reply spells it out: the operation it names, and the digest of its whole action. */
  datatype Requested = Requested(call: ToolId, operation: nat, action: Digest)

  function Calls(requests: seq<Requested>): seq<ToolId> {
    seq(|requests|, k requires 0 <= k < |requests| => requests[k].call)
  }

  /**
    The calls a captured proposal spells out, where `decode` says what an original decodes to, if it is a reply that
    encodes back to the same bytes. They must be the calls the checkpoint lists.
   */
  function Proposal(decode: EventId -> Option<seq<Requested>>, m: Message): (r: Option<seq<Requested>>)
    ensures r.Some? ==> |r.value| == |m.toolCalls|
    ensures r.Some? ==> forall k :: 0 <= k < |r.value| ==> r.value[k].call == m.toolCalls[k]
  {
    var requests := decode(m.source);
    if requests.Some? && Calls(requests.value) == m.toolCalls then requests else None
  }

  /** The first call of the current exchange without a result is this one, as its proposal spells it out. */
  ghost predicate IsQueued(groups: seq<Group>, decode: EventId -> Option<seq<Requested>>, r: Requested) {
    && |groups| > 0
    && var group := groups[|groups| - 1];
       exists m: nat, c: nat ::
         && FirstWaiting(group, m, c)
         && Proposal(decode, group.messages[m]).Some? && Proposal(decode, group.messages[m]).value[c] == r
  }

  lemma {:induction false} OneFirst(group: Group, m: nat, c: nat, n: nat, d: nat)
    requires FirstWaiting(group, m, c) && FirstWaiting(group, n, d)
    ensures m == n && c == d
  {
    assert group.messages[m].toolCalls[c] in group.messages[m].toolCalls;
    assert group.messages[n].toolCalls[d] in group.messages[n].toolCalls;
  }

  datatype Queue = Nothing | Unreadable | Queued(requested: Requested)

  /** `next_tool`: find the next call and read its proposal back. */
  method NextQueued(groups: seq<Group>, decode: EventId -> Option<seq<Requested>>) returns (q: Queue)
    ensures q.Nothing? <==> !HasOutstanding(groups)
    ensures q.Queued? ==> IsQueued(groups, decode, q.requested) && Waiting(groups[|groups| - 1], q.requested.call)
    ensures forall r :: IsQueued(groups, decode, r) ==> q == Queued(r)
  {
    if |groups| == 0 {
      return Nothing;
    }
    var group := groups[|groups| - 1];
    for m := 0 to |group.messages|
      invariant forall k, call :: 0 <= k < m && call in group.messages[k].toolCalls ==> Answers(group, call)
    {
      var message := group.messages[m];
      var c := 0;
      while c < |message.toolCalls| && Answers(group, message.toolCalls[c])
        invariant 0 <= c <= |message.toolCalls|
        invariant forall j :: 0 <= j < c ==> Answers(group, message.toolCalls[j])
      {
        c := c + 1;
      }
      if c < |message.toolCalls| {
        assert message.toolCalls[c] in message.toolCalls && Waiting(group, message.toolCalls[c]);
        assert FirstWaiting(group, m, c);
        OnlyQueued(groups, decode, m, c);
        var requests := Proposal(decode, message);
        if requests.None? {
          return Unreadable;
        }
        var j := 0;
        while requests.value[j].call != message.toolCalls[c]
          invariant 0 <= j <= c
          decreases c - j
        {
          j := j + 1;
        }
        return Queued(requests.value[j]);
      }
    }
    NothingQueued(groups, decode);
    q := Nothing;
  }

  lemma {:induction false} OnlyQueued(groups: seq<Group>, decode: EventId -> Option<seq<Requested>>, m: nat, c: nat)
    requires |groups| > 0 && FirstWaiting(groups[|groups| - 1], m, c)
    ensures forall r :: IsQueued(groups, decode, r) ==>
                          var p := Proposal(decode, groups[|groups| - 1].messages[m]); p.Some? && p.value[c] == r
  {
    var group := groups[|groups| - 1];
    forall r | IsQueued(groups, decode, r)
      ensures var p := Proposal(decode, group.messages[m]); p.Some? && p.value[c] == r
    {
      var n: nat, d: nat :| && FirstWaiting(group, n, d) && Proposal(decode, group.messages[n]).Some?
                            && Proposal(decode, group.messages[n]).value[d] == r;
      OneFirst(group, m, c, n, d);
    }
  }

  lemma {:induction false} NothingQueued(groups: seq<Group>, decode: EventId -> Option<seq<Requested>>)
    requires |groups| > 0
    requires var group := groups[|groups| - 1];
             forall k, call :: 0 <= k < |group.messages| && call in group.messages[k].toolCalls ==> Answers(group, call)
    ensures !HasOutstanding(groups) && forall r :: !IsQueued(groups, decode, r)
  {
  }

  /** `rehydrate`: every open obligation is named and read back, then every resident original, and all must be text. */
  method Rehydrate(s: Checkpoint) returns (ok: bool)
    ensures ok <==> Legible(s)
  {
    for k := 0 to |s.obligations|
      invariant forall j :: 0 <= j < k ==> Renders(s.obligations[j])
    {
      var item := s.obligations[k];
      if item.status.Open? && (item.id.control || !item.text) {
        assert !Renders(s.obligations[k]);
        return false;
      }
    }
    for g := 0 to |s.groups|
      invariant forall m :: m in Messages(s.groups[..g]) ==> m.text
    {
      Resident(s.groups, g);
      for k := 0 to |s.groups[g].messages|
        invariant forall j :: 0 <= j < k ==> s.groups[g].messages[j].text
      {
        if !s.groups[g].messages[k].text {
          assert s.groups[g].messages[k] in Messages(s.groups);
          return false;
        }
      }
    }
    assert s.groups[..|s.groups|] == s.groups;
    ok := true;
  }

  lemma {:induction false} Resident(groups: seq<Group>, g: nat)
    requires g < |groups|
    ensures Messages(groups[..g + 1]) == Messages(groups[..g]) + groups[g].messages
    ensures forall m :: m in groups[g].messages ==> m in Messages(groups)
  {
    assert groups[..g + 1] == groups[..g] + [groups[g]];
    MessagesMore(groups[..g], groups[g]);
    MessagesDropped(groups, g + 1);
  }

  /** A reader without tool results cannot be given an exchange that proposed or answered a call. */
  predicate Represents(profile: Profile, groups: seq<Group>) {
    || profile.tools
    || forall g, k :: 0 <= g < |groups| && 0 <= k < |groups[g].messages| ==>
         groups[g].messages[k].toolCalls == [] && groups[g].messages[k].toolResult.None?
  }

  /** A checkpoint of this very state is in the log. */
  predicate Durable(log: seq<Event>, s: Checkpoint) {
    exists k :: 0 <= k < |log| && log[k].body == Checkpointed(s)
  }

  /** The part of the runtime's settings that rotation reads. */
  class Settings {
    var rolling: Rolling.Policy
    var maxInput: nat

    constructor (p: Rolling.Policy, max: nat)
      ensures rolling == p && maxInput == max
    {
      rolling, maxInput := p, max;
    }
  }

  class OwnedAgentRuntime {
    const owner: NativeOwner
    ghost const me: nat
    const settings: Settings
    var state: Checkpoint
    var receipt: nat
    var phase: Phase
    var pendingCapture: Option<Capture>
    var pendingCheckpoint: Option<Event>
    var pendingToolCapture: Option<Event>
    ghost var permit: Option<EventId>
    /** The actions of this object, in order. */
    ghost var mine: seq<Action>

    ghost function View(): Instance
      reads this
    {
      Instance(state, receipt, phase, pendingCapture, pendingCheckpoint, pendingToolCapture, permit)
    }

    ghost predicate Linked()
      reads this, owner, settings
    {
      owner.Valid() && me in owner.World().live && Rolling.Validates(settings.rolling, settings.maxInput)
    }

    /** This object is one of the run's processes, exactly as the run sees it. */
    ghost predicate Tracked()
      reads this, owner, settings
    {
      Linked() && owner.World().live[me] == View()
    }

    /** Its resume has not come back to the host yet. */
    ghost predicate Opening()
      reads this, owner
      requires owner.Valid()
    {
      me in owner.World().opening
    }

    /** An object its host may use. Its window is bounded, whatever any method's outcome was. */
    ghost predicate Valid()
      reads this, owner, settings
    {
      Tracked() && !Opening() && |state.groups| <= MAX_GROUPS
    }

    /** The fields already show the effect of `a`, which the run has yet to record. */
    ghost predicate Owes(a: Action)
      reads this, owner, settings
    {
      && Linked() && !a.Resume? && !a.Crash?
      && (Opening() ==> Opens(a)) && (a.Open? ==> Opening()) && (a.Send? ==> HoldsAdmission(owner.World(), me))
      && InstanceEnabled(owner.World(), owner.World().live[me], a)
      && Moved(owner.World(), owner.World().live[me], a) == View()
    }

    /** Like Owes, but for the checkpoint that the action also retains. */
    ghost predicate OwesSave(a: Action)
      reads this, owner, settings
    {
      && Linked() && !a.Resume? && !a.Crash? && !a.Open? && !a.Send? && !Opening()
      && InstanceEnabled(owner.World(), owner.World().live[me], a)
      && Moved(owner.World(), owner.World().live[me], a) == WithSave(View(), owner.issued + 2)
      && Appended(owner.World(), owner.World().live[me], a) == []
    }

    /** `ensure_active`: nothing retained, and the run not over. */
    predicate Quiet()
      reads this
    {
      pendingCapture.None? && pendingCheckpoint.None? && pendingToolCapture.None? && state.status.Active?
    }

    /** The run and its log only ever grow. */
    twostate predicate Grows()
      reads owner
    {
      old(owner.history) <= owner.history && old(owner.log) <= owner.log
    }

    /** Not one step was taken, by this process or another. */
    twostate predicate Untouched()
      reads this, owner
    {
      View() == old(View()) && owner.history == old(owner.history) && mine == old(mine)
    }

    constructor Rebuild(o: NativeOwner, ghost who: nat, r: Recovered, p: Rolling.Policy, max: nat)
      requires o.Valid() && who !in o.World().live && Rolling.Validates(p, max)
      requires Head(o.log) > 0 && Recover(o.log, o.issued) == Some(r)
      modifies o
      ensures Tracked() && Opening() && owner == o && me == who && fresh(this)
      ensures fresh(settings) && settings.rolling == p && settings.maxInput == max
      ensures o.history == old(o.history) + [Step(who, Resume)] && o.log == old(o.log)
      ensures View() == old(Resumed(o.log, o.issued))
      ensures mine == []
    {
      hide InstanceEnabled, Moved, Appended, After, Legal, Recover, Resumed, Head, PositionAvailable, SaveEvent;
      ResumedIs(o.log, o.issued, r);
      owner, me := o, who;
      settings := new Settings(p, max);
      receipt := Head(o.log);
      pendingCapture, pendingToolCapture, permit, mine := None, None, None, [];
      var planned := r.phase.Planned?;
      var kept := if planned then r.state.(model := None) else r.state;
      state := kept;
      phase := if planned then Ready else r.phase;
      pendingCheckpoint :=
        if planned || (Head(o.log) < |o.log| && PositionAvailable(kept)) then Some(SaveEvent(kept, o.issued + 2))
          else None;
      new;
      o.Join(who);
    }

    /** Record an action whose effect the fields show. */
    method Record(ghost a: Action, appended: seq<Event>)
      requires Owes(a) && appended == Appended(owner.World(), owner.World().live[me], a)
      modifies owner, `mine
      ensures Tracked() && mine == old(mine) + [a]
      ensures Opening() <==> old(Opening()) && !a.Open?
      ensures !Opening() ==> Valid()
      ensures a.Admit? ==> HoldsAdmission(owner.World(), me)
      ensures owner.log == old(owner.log) + appended
      ensures owner.history == old(owner.history) + [Step(me, a)]
    {
      hide InstanceEnabled, Moved, Appended, After, Legal, HoldsAdmission;
      if a.Admit? {
        AdmitHolds(owner.World(), me, a);
      }
      owner.Take(me, a, appended);
      mine := mine + [a];
      if !Opening() {
        owner.Window(me);
      }
    }

    /** Other processes of the same run may act at any time; they cannot touch this one. */
    method Interleave()
      requires Tracked()
      modifies owner
      ensures Tracked() && Grows() && (Opening() <==> old(Opening()))
      ensures old(HoldsAdmission(owner.World(), me)) ==> HoldsAdmission(owner.World(), me)
    {
    }

    /** What every process of a legal run satisfies, this one included. */
    lemma Sound()
      requires Tracked()
      ensures LogInv(owner.log) && InstInv(owner.log, View())
    {
      hide InstInv, LogInv, After, Legal;
      RunInvariant.RunKeeps(owner.first, owner.history);
      assert InstInv(owner.log, owner.World().live[me]);
    }

    // ------------------------------------------------------------ persistence

    /**
      `save_checkpoint`: retain a checkpoint of the state, then offer it to the owner. Whatever the owner did,
      an unacknowledged checkpoint stays retained. The refusal for a position reserved by a tool outcome is
      never met: every caller has the position available.
     */
    method SaveCheckpoint(ghost cause: Action) returns (ok: bool)
      requires pendingCheckpoint.None? ==> OwesSave(cause) && Local(cause) && PositionAvailable(state)
      requires pendingCheckpoint.Some? ==> Valid()
      modifies this`state, this`receipt, this`pendingCheckpoint, this`mine, owner
      ensures Valid() && Grows() && AddsLocal(old(mine), mine)
      ensures ok ==> pendingCheckpoint.None? && state == Bump(old(state)) && Durable(owner.log, state)
      ensures !ok ==> pendingCheckpoint.Some? && state == old(state)
    {
      hide InstanceEnabled, Moved, Appended, InstInv, LogInv, After, Legal;
      if pendingCheckpoint.None? {
        pendingCheckpoint := Some(SaveEvent(state, owner.issued + 2));
        Record(cause, []);
      }
      ok := OfferCheckpoint(false);
    }

    /**
      Offer a retained event: it may be accepted or not, and either way the acknowledgement may be lost. When all is
      `calm`, nobody else acts meanwhile and the owner answers.
     */
    method Offer(e: Event, isSave: bool, ghost a: Action, calm: bool) returns (acknowledged: bool)
      requires Tracked() && Retains(View(), a, e) && isSave == a.CommitSave? && (Opening() ==> isSave)
      modifies this`mine, owner
      ensures Tracked() && Grows() && AddsLocal(old(mine), mine) && (Opening() <==> old(Opening()))
      ensures acknowledged ==> e in owner.log
      ensures calm && (if isSave then AcceptsSave(old(owner.log), e) else Accepts(old(owner.log), e)) ==> acknowledged
    {
      hide InstanceEnabled, Moved, Appended, After, Legal, Accepts, AcceptsSave;
      var committed: bool := *;
      committed := committed || calm;
      if !calm {
        Interleave();
      }
      var acceptable := if isSave then AcceptsSave(owner.log, e) else Accepts(owner.log, e);
      if committed && acceptable {
        CommitEffect(owner.World(), View(), a, e);
        Record(a, [e]);
      }
      acknowledged := *;
      acknowledged := (acknowledged || calm) && e in owner.log;
    }

    method OfferCheckpoint(calm: bool) returns (ok: bool)
      requires Tracked() && pendingCheckpoint.Some?
      modifies this`state, this`receipt, this`pendingCheckpoint, this`mine, owner
      ensures Tracked() && Grows() && AddsLocal(old(mine), mine) && (Opening() <==> old(Opening()))
      ensures old(Valid()) ==> Valid()
      ensures calm && AcceptsSave(old(owner.log), old(pendingCheckpoint).value) ==> ok
      ensures ok ==> pendingCheckpoint.None? && state == Bump(old(state)) && Durable(owner.log, state)
      ensures !ok ==> pendingCheckpoint.Some? && state == old(state)
    {
      hide InstanceEnabled, Moved, Appended, InstInv, LogInv, After, Legal, AcceptsSave;
      Sound();
      RunInvariant.RetainedOwn(owner.log, View());
      var e := pendingCheckpoint.value;
      ok := Offer(e, true, CommitSave, calm);
      if ok {
        AckSaveEffect(owner.World(), View());
        ghost var k :| 0 <= k < |owner.log| && owner.log[k] == e;
        state, receipt, pendingCheckpoint := e.body.checkpoint, e.position, None;
        Record(AckSave, []);
        assert owner.log[k].body == Checkpointed(state);
      }
    }

    /**
      `flush_capture`: offer the retained event, and on acknowledgement apply it. A model request is then
      captured and nothing else is owed; anything else still owes the checkpoint that follows it.
     */
    method FlushCapture() returns (ok: bool, ghost slot: EventId)
      requires Valid() && pendingCapture.Some?
      modifies this`state, this`phase, this`pendingCapture, this`mine, owner
      ensures Grows() && AddsLocal(old(mine), mine)
      ensures !ok ==> Valid() && View() == old(View())
      ensures ok ==> pendingCapture.None? && old(pendingCapture).value.event in owner.log
      ensures ok && old(pendingCapture).value.prepared.Some? ==>
                && Valid() && state.status.Active? && state.model.Some? && old(phase).Planned?
                && phase == Captured(old(pendingCapture).value.prepared.value, old(state).next)
                && state == old(state).(model := state.model, next := old(state).next + 1)
      ensures ok && old(pendingCapture).value.prepared.None? ==>
                && OwesSave(AckCapture) && pendingCheckpoint.None? && PositionAvailable(state)
                && Apply(Recovered(old(state), old(phase)), old(pendingCapture).value.event, slot)
                   == Some(Recovered(state, phase))
    {
      hide InstanceEnabled, Moved, Appended, InstInv, LogInv, After, Legal, Accepts, Apply;
      var c := pendingCapture.value;
      ok, slot := false, 0;
      Sound();
      CaptureApplies(owner.log, View(), owner.issued);
      var acknowledged := Offer(c.event, false, CommitCapture, false);
      if !acknowledged {
        return;
      }
      slot := owner.issued;
      var applied := Apply(Recovered(state, phase), c.event, owner.issued);
      if applied.None? {
        return;
      }
      Sound();
      CaptureApplies(owner.log, View(), owner.issued);
      AckCaptureEffect(owner.World(), View());
      state, pendingCapture := applied.value.state, None;
      phase := if c.prepared.Some? then Captured(c.prepared.value, c.event.position) else applied.value.phase;
      if c.prepared.Some? {
        Record(AckCapture, []);
      }
      ok := true;
    }

    /** `flush_capture` for everything but a model request, then the checkpoint that must follow. */
    method CaptureAndSave() returns (ok: bool, ghost slot: EventId)
      requires Valid() && pendingCapture.Some? && pendingCapture.value.prepared.None?
      modifies this, owner
      ensures Valid() && Grows() && AddsLocal(old(mine), mine)
      ensures pendingToolCapture == old(pendingToolCapture)
      ensures !ok ==> pendingCapture.Some? || pendingCheckpoint.Some?
      ensures ok ==> Clear(View()) && old(pendingCapture).value.event in owner.log
      ensures ok ==>
                var r := Apply(Recovered(old(state), old(phase)), old(pendingCapture).value.event, slot);
                r.Some? && state == Bump(r.value.state) && phase == r.value.phase
    {
      hide InstanceEnabled, Moved, Appended, InstInv, LogInv, After, Legal, Accepts, Apply;
      Sound();
      CaptureApplies(owner.log, View(), owner.issued);
      ok, slot := FlushCapture();
      if ok {
        ok := SaveCheckpoint(AckCapture);
      }
    }

    // ------------------------------------------------------------ conversation

    /**
      `accept_user`: refused unless the last exchange is complete and the text is 1 to 1048576 bytes. A full
      window loses one chunk of complete groups first, and under a validated policy there is always one to lose.
     */
    method AcceptUser(size: nat) returns (o: Outcome)
      requires Valid()
      modifies this, owner
      ensures Valid() && Grows() && AddsLocal(old(mine), mine)
      ensures o.Refused? <==> !(old(Quiet()) && old(phase).Ready? && LastComplete(old(state).groups)
                                && 1 <= size <= MAX_TEXT)
      ensures o.Refused? ==> Untouched()
      ensures o.Refused? || o.Finished? || o.NotPersisted?
      ensures o.NotPersisted? ==> !Quiet()
      ensures o.Finished? ==> Quiet() && phase.Ready? && TookUser(owner.log, old(state), state, settings.rolling, size)
    {
      hide InstanceEnabled, Moved, Appended, InstInv, LogInv, After, Legal, Apply, LastComplete, OnlyLastOpen,
           HasOutstanding, Rolling.EvictCount, Rolling.Validates, TookUser;
      if !Quiet() || !phase.Ready? || !LastComplete(state.groups) || size < 1 || size > MAX_TEXT {
        return Refused;
      }
      Sound();
      ReadyFits(owner.log, View());
      var count := 0;
      if |state.groups| == MAX_GROUPS {
        Rolling.FullWindowEvicts(state.groups, settings.rolling, settings.maxInput);
        count := Rolling.EvictCount(state.groups, settings.rolling);
        if count == 0 {
          return NoEvictableGroup;
        }
      }
      ghost var e := Event(owner.issued, state.next, UserMessage(size));
      QueueMessage(size, count);
      var ok, slot := CaptureAndSave();
      o := if ok then Finished else NotPersisted;
      if ok {
        TookMessage(owner.log, old(state), state, settings.rolling, e, slot);
      }
    }

    /** The message is retained for capture, and the groups it displaces leave in memory. */
    method QueueMessage(size: nat, count: nat)
      requires Valid() && Quiet() && phase.Ready? && LastComplete(state.groups) && 1 <= size <= MAX_TEXT
      requires count <= |state.groups| && |state.groups| - count < MAX_GROUPS
      modifies this`state, this`pendingCapture, this`mine, owner
      ensures Valid() && Grows() && AddsLocal(old(mine), mine)
      ensures state == old(state).(groups := old(state).groups[count..])
      ensures pendingCapture
              == Some(Capture(Event(old(owner.issued), old(state).next, UserMessage(size)), None))
    {
      hide InstanceEnabled, Moved, Appended, After, Legal, LastComplete;
      QueueUserEffect(owner.World(), View(), size, count);
      pendingCapture := Some(Capture(Event(owner.issued, state.next, UserMessage(size)), None));
      state := state.(groups := state.groups[count..]);
      Record(QueueUser(size, count), []);
    }

    // ------------------------------------------------------------- the model

    /** Groups leave from the front, and only complete ones the policy does not keep. */
    method EvictLeading(n: nat)
      requires Valid() && Quiet() && phase.Planned? && n <= Rolling.Eligible(state.groups, settings.rolling)
      modifies this`state, this`mine, owner
      ensures Valid() && Grows() && AddsLocal(old(mine), mine)
      ensures state == old(state).(groups := old(state).groups[n..])
    {
      hide InstanceEnabled, Moved, Appended, After, Legal, Rolling.Eligible, Rolling.LeadingComplete, DropsComplete,
           LastComplete;
      Rolling.EvictionKeeps(state.groups, settings.rolling, n);
      EvictEffect(owner.World(), View(), n);
      state := state.(groups := state.groups[n..]);
      Record(Evict(n), []);
    }

    method SavePlan() returns (ok: bool)
      requires Valid() && Quiet() && (phase.Planned? || phase.Unknown?)
      modifies this`state, this`receipt, this`pendingCheckpoint, this`mine, owner
      ensures Valid() && Grows() && AddsLocal(old(mine), mine)
      ensures state == if ok then Bump(old(state)) else old(state)
      ensures (ok <==> pendingCheckpoint.None?) && (ok ==> Durable(owner.log, state))
    {
      hide InstanceEnabled, Moved, Appended, After, Legal, InstInv, LogInv;
      Sound();
      PhaseKnown(owner.log, View());
      QueueSaveEffect(owner.World(), View());
      ok := SaveCheckpoint(QueueSave);
    }

    method EvictAndSave(n: nat) returns (ok: bool)
      requires Valid() && Quiet() && phase.Planned? && n <= Rolling.Eligible(state.groups, settings.rolling)
      modifies this`state, this`receipt, this`pendingCheckpoint, this`mine, owner
      ensures Valid() && Grows() && AddsLocal(old(mine), mine)
      ensures Trimmed(old(state), state, settings.rolling, n) && (ok <==> pendingCheckpoint.None?)
      ensures ok ==> Durable(owner.log, state)
    {
      hide InstanceEnabled, Moved, Appended, After, Legal, Rolling.Eligible;
      EvictLeading(n);
      ok := SavePlan();
    }

    /** `rotate`, then a checkpoint if anything left; a failed recount keeps what had already left. */
    method RotateAndSave(count: seq<Group> -> Option<nat>, high: nat) returns (ok: bool, ghost removed: nat)
      requires Valid() && Quiet() && phase.Planned?
      modifies this`state, this`receipt, this`pendingCheckpoint, this`mine, owner
      ensures Valid() && Grows() && AddsLocal(old(mine), mine)
      ensures Trimmed(old(state), state, settings.rolling, removed) && (ok ==> pendingCheckpoint.None?)
      ensures ok ==> if removed == 0 then state == old(state) else Durable(owner.log, state)
    {
      hide InstanceEnabled, Moved, Appended, After, Legal, Rolling.Eligible, Rolling.Rotated;
      Rolling.HighDoesNotEvict(state.groups, settings.rolling, high);
      var kept, chunk, rotation := Rolling.Rotate(state.groups, count, settings.rolling.(high := high));
      removed := chunk;
      if !rotation.Settled? {
        EvictLeading(chunk);
        ok := false;
      } else if chunk == 0 {
        ok := true;
      } else {
        ok := EvictAndSave(chunk);
      }
    }

    /**
      One attempt to prepare: rotate, checkpoint what left, try to fit; on overflow, unless this is the last attempt,
      evict once more and ask for another. `high` is the rotation threshold the cache controller selected.
     */
    method Attempt(count: seq<Group> -> Option<nat>, high: nat, last: bool)
      returns (wire: Option<Wire>, again: bool, ghost removed: nat)
      requires Valid() && Quiet() && phase.Planned?
      modifies this`state, this`receipt, this`pendingCheckpoint, this`mine, owner
      ensures Valid() && Grows() && AddsLocal(old(mine), mine)
      ensures Trimmed(old(state), state, settings.rolling, removed)
      ensures wire.Some? || again ==> pendingCheckpoint.None?
      ensures again ==> !last && wire.None? && removed > 0 && Durable(owner.log, state)
      ensures wire.Some? && removed > 0 ==> Durable(owner.log, state)
    {
      hide InstanceEnabled, Moved, Appended, After, Legal, Rolling.Eligible, AddsLocal, Trimmed;
      wire, again := None, false;
      var ok;
      ok, removed := RotateAndSave(count, high);
      TrimmedSame(old(state), state, settings.rolling, removed);
      if !ok {
        return;
      }
      var fitted: Option<Wire> := *;
      if fitted.Some? {
        wire := fitted;
        return;
      }
      var overflow: bool := *;
      var more := Rolling.EvictCount(state.groups, settings.rolling);
      if !overflow || last || more == 0 {
        return;
      }
      ghost var acts, was := mine, state;
      again := EvictAndSave(more);
      LocalThen(old(mine), acts, mine);
      TrimmedThen(old(state), was, state, settings.rolling, removed, more);
      removed := removed + more;
    }

    /** The preparation loop of `step_measured`: as many attempts as the policy allows. */
    method PrepareBounded(count: seq<Group> -> Option<nat>, high: nat)
      returns (wire: Option<Wire>, tried: nat, ghost removed: nat)
      requires Valid() && Quiet() && phase.Planned?
      modifies this`state, this`receipt, this`pendingCheckpoint, this`mine, owner
      ensures Valid() && Grows() && AddsLocal(old(mine), mine)
      ensures Trimmed(old(state), state, settings.rolling, removed)
      ensures wire.Some? ==> pendingCheckpoint.None? && 1 <= tried
      ensures tried <= settings.rolling.attempts
    {
      hide InstanceEnabled, Moved, Appended, After, Legal, Rolling.Eligible, AddsLocal, Trimmed;
      Untrimmed(state, settings.rolling);
      LocalSame(mine);
      wire, tried, removed := None, 0, 0;
      while tried < settings.rolling.attempts
        invariant tried <= settings.rolling.attempts
        invariant Valid() && Grows() && AddsLocal(old(mine), mine)
        invariant Quiet() && Trimmed(old(state), state, settings.rolling, removed)
      {
        ghost var acts, was := mine, state;
        var fitted, again, chunk := Attempt(count, high, tried + 1 == settings.rolling.attempts);
        LocalThen(old(mine), acts, mine);
        TrimmedThen(old(state), was, state, settings.rolling, removed, chunk);
        removed, tried := removed + chunk, tried + 1;
        if !again {
          wire := fitted;
          return;
        }
      }
    }

    /** A new call is planned and checkpointed before anything else is known about it. */
    method PlanCall() returns (ok: bool)
      requires Valid() && Quiet() && phase.Ready? && state.tool.None?
      requires !LastComplete(state.groups) && !HasOutstanding(state.groups)
      modifies this, owner
      ensures Valid() && Grows() && AddsLocal(old(mine), mine)
      ensures state == old(state).(model := state.model, revision := state.revision, next := state.next)
              && phase.Planned?
      ensures pendingCapture.None? && pendingToolCapture.None?
      ensures (ok <==> pendingCheckpoint.None?) && (ok ==> Durable(owner.log, state))
    {
      hide InstanceEnabled, Moved, Appended, After, Legal, HasOutstanding, Durable;
      PlanEffect(owner.World(), View());
      state := state.(model := Some(PendingModel(owner.issued, owner.issued + 1, None, None)));
      phase := Planned;
      ok := SaveCheckpoint(Plan);
    }

    /**
      The exact wire is captured under the planned call before it may be sent. The reader's manifest must name that
      call and describe that wire.
     */
    method CaptureRequest(wire: Wire, manifest: Manifest) returns (o: Outcome)
      requires Valid() && Quiet() && phase.Planned? && state.model.Some?
      modifies this, owner
      ensures Valid() && Grows() && AddsLocal(old(mine), mine)
      ensures o.Refused? <==> manifest != Manifest(old(state).model.value.call, wire.digest, wire.length)
      ensures o.Refused? ==> Untouched()
      ensures o.Finished? ==> Quiet() && state.model.Some? && phase == Captured(wire, old(state).next)
      ensures o.Finished? ==> state == old(state).(model := state.model, next := old(state).next + 1)
      ensures o.Finished? ==>
                Event(old(state).model.value.request, old(state).next, ModelRequested(manifest)) in owner.log
      ensures o.Refused? || o.Finished? || (o.NotPersisted? && pendingCapture.Some?)
    {
      hide InstanceEnabled, Moved, Appended, After, Legal, InstInv, LogInv, Apply;
      var m := state.model.value;
      if manifest.call != m.call || manifest.digest != wire.digest || manifest.length != wire.length {
        return Refused;
      }
      Sound();
      PhaseKnown(owner.log, View());
      QueueRequestEffect(owner.World(), View(), manifest, wire);
      var e := Event(m.request, state.next, ModelRequested(manifest));
      pendingCapture := Some(Capture(e, Some(wire)));
      Record(QueueRequest(manifest, wire), []);
      var ok, slot := FlushCapture();
      o := if ok then Finished else NotPersisted;
    }

    /** Dropping a call returns to a known boundary. */
    method DropCall(ghost a: Action) returns (ok: bool)
      requires Valid() && Quiet()
      requires || (a.RejectFence? && phase.Captured?)
               || (a.NotAccepted? && phase.Unknown? && HasWire(state, a.digest) && state.model.value.interrupted.None?)
      modifies this, owner
      ensures Valid() && Grows() && AddsLocal(old(mine), mine)
      ensures phase.Ready? && (ok <==> Quiet())
      ensures state == if ok then Bump(old(state).(model := None)) else old(state).(model := None)
    {
      hide InstanceEnabled, Moved, Appended, After, Legal, InstInv, LogInv, HasOutstanding;
      Sound();
      PhaseKnown(owner.log, View());
      DropCallEffect(owner.World(), View(), a);
      state := state.(model := None);
      phase := Ready;
      ok := SaveCheckpoint(a);
    }

    /** `capture_interruption`: partial output is kept, and the call stays unknown. */
    method CaptureInterruption(output: Digest) returns (ok: bool)
      requires Valid() && Quiet() && phase.Unknown?
      modifies this, owner
      ensures Valid() && Grows() && AddsLocal(old(mine), mine)
      ensures ok ==> Quiet() && phase.Unknown? && Interrupted(owner.log, old(state), state, output)
      ensures !ok ==> !Quiet()
    {
      hide InstanceEnabled, Moved, Appended, After, Legal, InstInv, LogInv, HasOutstanding, Apply, Interrupted;
      Sound();
      PhaseKnown(owner.log, View());
      QueueAbortEffect(owner.World(), View(), output);
      var m := state.model.value;
      var e := Event(owner.issued, state.next, ModelAborted(m.call, m.request, output));
      pendingCapture := Some(Capture(e, None));
      Record(QueueAbort(output), []);
      ghost var slot;
      ok, slot := CaptureAndSave();
      if ok {
        TookAbort(owner.log, old(state), e, slot);
      }
    }

    /**
      `capture_reply`: a protocol the window cannot take is kept as an interruption instead. `size` is the length
      of the captured text, which is the whole encoded reply when it proposes tools and so never empty then, and
      `encoded` its digest.
     */
    method CaptureReply(digest: Digest, calls: seq<ToolId>, size: nat, encoded: Digest) returns (o: Outcome)
      requires Valid() && Quiet() && phase.Unknown? && HasWire(state, digest) && (calls != [] ==> size > 0)
      modifies this, owner
      ensures Valid() && Grows() && AddsLocal(old(mine), mine)
      ensures o.Finished? ==> Quiet() && phase.Ready? && TookReply(old(state), state, calls, size)
      ensures o.Finished? ==> ReplyFits(old(state).groups, calls, size) && (calls == [] || old(state).profile.tools)
      ensures o.Refused? ==> Quiet() && phase.Unknown? && Interrupted(owner.log, old(state), state, encoded)
      ensures o.NotPersisted? ==> !Quiet()
      ensures o.Finished? || o.Refused? || o.NotPersisted?
    {
      hide InstanceEnabled, Moved, Appended, After, Legal, InstInv, LogInv, ReplyFits, TookReply, Apply, Interrupted;
      var repeats := RepeatsCall(state.groups, calls);
      if |calls| > 32 || (calls != [] && !state.profile.tools) || repeats {
        var kept := CaptureInterruption(encoded);
        return if kept then Refused else NotPersisted;
      }
      ReplyChecked(state.groups, calls, size);
      QueueReplyEffect(owner.World(), View(), digest, calls, size);
      var m := state.model.value;
      var e := Event(owner.issued, state.next, ModelCompleted(m.call, m.request, calls, size));
      pendingCapture := Some(Capture(e, None));
      Record(QueueReply(digest, calls, size), []);
      label Queued:
      var ok, slot := CaptureAndSave();
      o := if ok then Finished else NotPersisted;
      if ok {
        TookAnswer(old(state), e, slot);
      }
    }

    /** `before_model`: the fence decides, and the owner's own accepts only the head and the request right after it. */
    method PassFence(native: bool) returns (accepted: bool)
      requires Valid() && Quiet() && phase.Captured? && state.model.Some?
      modifies this`mine, owner
      ensures Valid() && Grows()
      ensures !accepted ==> Untouched()
      ensures accepted ==> mine == old(mine) + [Admit(native)] && HoldsAdmission(owner.World(), me)
      ensures accepted && native ==>
                Admits(old(owner.log), receipt, state.model.value.call, phase.receipt, phase.wire)
    {
      hide InstanceEnabled, Moved, Appended, After, Legal, Admits, HoldsAdmission;
      accepted := *;
      if native {
        accepted := accepted && Admits(owner.log, receipt, state.model.value.call, phase.receipt, phase.wire);
      }
      if accepted {
        AdmitEffect(owner.World(), View(), native);
        Record(Admit(native), []);
        Interleave();
      }
    }

    /** The remote call itself: sent once, and from then on unknown until its output is durable. */
    method Dispatch() returns (o: Outcome, ghost calls: seq<ToolId>, ghost size: nat)
      requires Valid() && Quiet() && phase.Captured? && state.model.Some? && HoldsAdmission(owner.World(), me)
      modifies this, owner
      ensures Valid() && Grows()
      ensures AddsLocal(old(mine) + [Action.Send], mine)
      ensures o.Finished? ==> Quiet() && phase.Ready? && TookReply(old(state), state, calls, size)
      ensures o.Refused? || o.OutcomeUnknown? ==> phase.Unknown?
      ensures o.NotPersisted? ==> !Quiet()
    {
      hide InstanceEnabled, Moved, Appended, After, Legal, InstInv, LogInv, ReplyFits, AddsLocal, Apply, TookReply;
      calls, size := [], 0;
      Sound();
      PhaseKnown(owner.log, View());
      SendEffect(owner.World(), View());
      var wire := phase.wire;
      phase := Unknown;
      Record(Send, []);
      LocalSame(mine);
      var failed: bool, interrupted: bool := *, *;
      if failed {
        var saved := SavePlan();
        o := if saved then OutcomeUnknown else NotPersisted;
        return;
      }
      if interrupted {
        var partial: Digest := *;
        var kept := CaptureInterruption(partial);
        o := if kept then OutcomeUnknown else NotPersisted;
        return;
      }
      var proposed: seq<ToolId>, length: nat, encoded: Digest := *, *, *;
      if proposed != [] && length == 0 {
        length := 1;
      }
      calls, size := proposed, length;
      o := CaptureReply(wire.digest, proposed, length, encoded);
    }

    /** The fence and what follows it: a call it does not accept is dropped, and one it accepts is sent. */
    method SendFenced(native: bool) returns (o: Outcome, ghost calls: seq<ToolId>, ghost size: nat)
      requires Valid() && Quiet() && phase.Captured? && state.model.Some?
      modifies this, owner
      ensures Valid() && Grows() && OneCall(old(mine), mine) && FencedCall(old(mine), mine, native)
      ensures o.Finished? ==> Quiet() && phase.Ready? && TookReply(old(state), state, calls, size)
      ensures o.Finished? ==> Action.Send in mine[|old(mine)|..]
      ensures o.OutcomeUnknown? ==> phase.Unknown?
    {
      hide InstanceEnabled, Moved, Appended, After, Legal, AddsLocal, OneCall, TookReply, Admits, FencedCall,
           HoldsAdmission;
      calls, size := [], 0;
      LocalSame(mine);
      var accepted := PassFence(native);
      if !accepted {
        var dropped := DropCall(RejectFence);
        LocalIsNoCall(old(mine), mine);
        o := if dropped then Refused else NotPersisted;
        return;
      }
      o, calls, size := Dispatch();
      OneSend(old(mine), native, mine);
    }

    /** Everything `step` does before the fence: plan, rotate, fit, and capture the exact request. */
    method Prepare(count: seq<Group> -> Option<nat>, high: nat) returns (o: Outcome, ghost removed: nat)
      requires Valid() && Quiet() && (phase.Ready? || phase.Planned?)
      requires state.tool.None? && !LastComplete(state.groups) && !HasOutstanding(state.groups)
      modifies this, owner
      ensures Valid() && Grows() && AddsLocal(old(mine), mine)
      ensures o.Finished? ==> Quiet() && phase.Captured? && state.model.Some?
      ensures o.Finished? ==>
                removed <= Rolling.Eligible(old(state).groups, settings.rolling) && Prepared(old(state), state, removed)
      ensures o.Finished? || o.Refused? || o.NotPersisted?
    {
      hide InstanceEnabled, Moved, Appended, After, Legal, HasOutstanding, AddsLocal, LastComplete, Rolling.Eligible;
      removed := 0;
      LocalSame(mine);
      if phase.Ready? {
        var planned := PlanCall();
        if !planned {
          o := NotPersisted;
          return;
        }
      }
      ghost var acts, was := mine, state;
      var wire, tried;
      wire, tried, removed := PrepareBounded(count, high);
      LocalThen(old(mine), acts, mine);
      if wire.None? {
        o := Refused;
        return;
      }
      acts := mine;
      KnownModel();
      var manifest: Manifest := *;
      o := CaptureRequest(wire.value, manifest);
      LocalThen(old(mine), acts, mine);
    }

    /**
      `step`: one turn. It is refused outright unless this is the run's reader, no earlier call is unknown, no
      tool is outstanding and an exchange is open; and whatever happens it calls the model at most once.
     */
    method TakeTurn(profile: Profile, readerOk: bool, native: bool, count: seq<Group> -> Option<nat>, high: nat)
      returns (o: Outcome)
      requires Valid()
      modifies this, owner
      ensures Valid() && Grows() && OneCall(old(mine), mine) && FencedCall(old(mine), mine, native)
      ensures !old(Quiet()) || old(phase).Unknown? || profile != old(state).profile || !readerOk
              || !Represents(profile, old(state).groups) || old(state).tool.Some? || LastComplete(old(state).groups)
              || HasOutstanding(old(state).groups)
              ==> Untouched() && (o.Refused? || o.OutcomeUnknown?)
      ensures o.Finished? ==> Quiet() && phase.Ready? && state.model.None? && Action.Send in mine[|old(mine)|..]
      ensures o.Finished? ==> TurnTaken(old(state), state, settings.rolling)
      ensures o.OutcomeUnknown? ==> phase.Unknown?
    {
      hide InstanceEnabled, Moved, Appended, After, Legal, HasOutstanding, AddsLocal, OneCall, LastComplete, TookReply,
           TurnTaken, Rolling.Eligible, Represents, Admits, FencedCall, HoldsAdmission, Prepared;
      LocalSame(mine);
      LocalIsNoCall(mine, mine);
      var waiting := OutstandingTools(state.groups);
      if !Quiet() || !readerOk || !Represents(profile, state.groups) || profile != state.profile {
        return Refused;
      }
      if phase.Unknown? {
        return OutcomeUnknown;
      }
      if state.tool.Some? || waiting || LastComplete(state.groups) {
        return Refused;
      }
      ghost var removed: nat := 0;
      if phase.Ready? || phase.Planned? {
        o, removed := Prepare(count, high);
        LocalIsNoCall(old(mine), mine);
        if !o.Finished? {
          return;
        }
      }
      KnownModel();
      ghost var acts, was, calls, size := mine, state, [], 0;
      o, calls, size := SendFenced(native);
      LocalThenCall(old(mine), acts, native, mine);
      if o.Finished? {
        TurnDone(old(state), was, state, settings.rolling, removed, calls, size);
      }
    }

    /** Outside a known boundary there is a pending call. */
    lemma KnownModel()
      requires Valid() && !phase.Ready?
      ensures state.model.Some?
    {
      hide After, Legal, InstInv, LogInv;
      Sound();
      PhaseKnown(owner.log, View());
    }

    /**
      `reconcile_model`: settles an unknown call from what the provider reports of exactly that wire, and never
      sends it again. A denial is not believed once any of its output has been captured.
     */
    method ReconcileModel(profile: Profile, canReconcile: bool, answer: Reconciliation)
      returns (o: Outcome)
      requires Valid() && (answer.Completed? && answer.toolCalls != [] ==> answer.size > 0)
      modifies this, owner
      ensures Valid() && Grows() && AddsLocal(old(mine), mine)
      ensures !old(Quiet()) || !old(phase).Unknown? || profile != old(state).profile || !canReconcile
              || answer.StillUnknown? || !HasWire(old(state), answer.digest)
              || (answer.NeverAccepted? && old(state).model.value.interrupted.Some?)
              ==> Untouched() && (o.Refused? || o.OutcomeUnknown?)
      ensures o.Finished? ==>
                && Quiet() && phase.Ready? && state.model.None? && !answer.StillUnknown?
                && HasWire(old(state), answer.digest)
                && (answer.Completed? ==> TookReply(old(state), state, answer.toolCalls, answer.size))
                && (answer.NeverAccepted? ==> state == Bump(old(state).(model := None)))
    {
      hide InstanceEnabled, Moved, Appended, After, Legal, TookReply, ReplyFits;
      if !Quiet() || !phase.Unknown? || profile != state.profile {
        return Refused;
      }
      KnownModel();
      if !canReconcile || answer.StillUnknown? {
        return OutcomeUnknown;
      }
      if !HasWire(state, answer.digest) {
        return Refused;
      }
      if answer.Completed? {
        o := CaptureReply(answer.digest, answer.toolCalls, answer.size, answer.encoded);
        TookReplyClears(old(state), state, answer.toolCalls, answer.size);
        return;
      }
      if state.model.value.interrupted.Some? {
        return Refused;
      }
      var dropped := DropCall(NotAccepted(answer.digest));
      o := if dropped then Finished else NotPersisted;
    }

    // ------------------------------------------------------------- the tools

    /** The tool's outcome, settled on the state, still owes its checkpoint; one that cannot be applied is an error. */
    method ApplyOutcome() returns (ok: bool)
      requires Valid() && Quiet() && phase.Ready? && state.tool.Some?
      requires IntentLogged(owner.log, state.tool.value) && OutcomeLogged(owner.log, state.tool.value)
      modifies this, owner
      ensures Valid() && Grows() && AddsLocal(old(mine), mine)
      ensures ok ==> Quiet() && TookOutcome(old(state), state, old(owner.log[state.tool.value.outcomeAt - 1]))
    {
      hide InstanceEnabled, Moved, Appended, After, Legal, InstInv, LogInv, Settle, IntentLogged, TookOutcome;
      var settled := Settle(owner.log, state, owner.issued);
      if settled.None? {
        if state.next == state.tool.value.requestAt {
          AckIntentEffect(owner.World(), View());
          state := state.(next := state.next + 1);
          Record(AckIntent, []);
        }
        return false;
      }
      Sound();
      SettledRoom(owner.log, View(), owner.issued);
      AckOutcomeEffect(owner.World(), View());
      state := settled.value.state;
      ok := SaveCheckpoint(AckOutcome);
    }

    /** `finish_tool_capture` when no outcome was observed: only the intent is applied. */
    method ApplyIntent()
      requires Valid() && Quiet() && phase.Ready? && state.tool.Some? && IntentLogged(owner.log, state.tool.value)
      modifies this, owner
      ensures Valid() && Grows() && AddsLocal(old(mine), mine) && Quiet() && phase.Ready?
      ensures state == old(state).(next := state.next)
    {
      hide InstanceEnabled, Moved, Appended, After, Legal, IntentLogged;
      if state.next == state.tool.value.requestAt {
        AckIntentEffect(owner.World(), View());
        state := state.(next := state.next + 1);
        Record(AckIntent, []);
      }
    }

    /**
      `retry_tool_capture` and `finish_tool_capture`: offer the retained outcome, and once it is acknowledged
      apply it. The target is never called.
     */
    method RetryTool() returns (ok: bool)
      requires Valid() && pendingToolCapture.Some?
      modifies this, owner
      ensures Valid() && Grows() && AddsLocal(old(mine), mine)
      ensures ok ==> Quiet() && old(pendingToolCapture).value in owner.log
      ensures ok ==> TookOutcome(old(state), state, old(pendingToolCapture).value)
    {
      hide TookOutcome, InstanceEnabled, Moved, Appended, After, Legal, InstInv, LogInv, IntentLogged, OutcomeLogged,
           Accepts;
      ok := OfferOutcome();
      if ok {
        ok := ApplyOutcome();
      }
    }

    method OfferOutcome() returns (ok: bool)
      requires Valid() && pendingToolCapture.Some?
      modifies this`pendingToolCapture, this`mine, owner
      ensures Valid() && Grows() && AddsLocal(old(mine), mine)
      ensures !ok ==> pendingToolCapture == old(pendingToolCapture)
      ensures ok ==> Quiet() && phase.Ready? && state.tool.Some? && old(pendingToolCapture).value in owner.log
      ensures ok ==> IntentLogged(owner.log, state.tool.value) && OutcomeLogged(owner.log, state.tool.value)
                     && owner.log[state.tool.value.outcomeAt - 1] == old(pendingToolCapture).value
    {
      hide InstanceEnabled, Moved, Appended, After, Legal, InstInv, LogInv, IntentLogged, Accepts;
      var e := pendingToolCapture.value;
      ok := Offer(e, false, CommitOutcome, false);
      if ok {
        Sound();
        OutcomeKnown(owner.log, View());
        ReleaseOutcomeEffect(owner.World(), View());
        pendingToolCapture := None;
        ghost var log := owner.log;
        Record(ReleaseOutcome, []);
        assert owner.log == log;
      }
    }

    /** The intent is planned, with the positions of its request and its outcome reserved, before it is offered. */
    method PlanNextTool(call: ToolId, digest: Digest) returns (ok: bool)
      requires Valid() && Quiet() && phase.Ready? && state.tool.None? && |state.groups| > 0
      requires Waiting(state.groups[|state.groups| - 1], call)
      modifies this, owner
      ensures Valid() && Grows() && AddsLocal(old(mine), mine)
      ensures ok ==> Quiet() && phase.Ready? && state.tool.Some? && state.tool.value.call == call
                     && state.tool.value.action == digest && state.groups == old(state).groups
      ensures ok ==> state.tool.value.requestAt == state.next && state.tool.value.outcomeAt == state.next + 1
      ensures !ok ==> !Quiet()
    {
      hide InstanceEnabled, Moved, Appended, After, Legal, Waiting;
      PlanToolEffect(owner.World(), View(), call, digest);
      state := state.(tool := Some(PendingTool(call, digest, owner.issued, state.next + 1, owner.issued + 1,
                                               state.next + 2)));
      ok := SaveCheckpoint(PlanTool(call, digest));
    }

    /** Whether the intent is durable, and if so whether this very call is the one that made it so. */
    method OfferIntent() returns (newly: Option<bool>)
      requires Valid() && Quiet() && phase.Ready? && state.tool.Some?
      modifies this`permit, this`mine, owner
      ensures Valid() && Grows() && AddsLocal(old(mine), mine)
      ensures newly.Some? ==> IntentLogged(owner.log, state.tool.value)
      ensures newly == Some(true) ==> permit == Some(state.tool.value.request)
    {
      hide InstanceEnabled, Moved, Appended, After, Legal, Accepts, InstInv, LogInv;
      Interleave();
      var e := IntentEvent(state.tool.value);
      var reached: bool, acknowledged: bool := *, *;
      newly := None;
      if !reached {
        return;
      }
      if Accepts(owner.log, e) {
        CommitIntentEffect(owner.World(), View(), acknowledged);
        permit := if acknowledged then Some(state.tool.value.request) else None;
        Record(CommitIntent(acknowledged), [e]);
        newly := if acknowledged then Some(true) else None;
      } else if acknowledged && e in owner.log {
        newly := Some(false);
      }
      if newly.Some? {
        assert e in owner.log;
        Sound();
        RunProofs.FoundAt(owner.log, e);
      }
    }

    /**
      `run_tool` between the accepted intent and the outcome: a newly accepted intent runs once if the fence
      admits it; an older one is only asked about, and runs again only on grounds that make a repeat safe.
     */
    method CallTarget(newly: bool, safety: ReplaySafety, expected: Option<nat>)
      returns (failed: bool, outcome: ToolOutcome, bytes: Option<Content>)
      requires Valid() && Quiet() && phase.Ready? && state.tool.Some? && IntentLogged(owner.log, state.tool.value)
      requires newly ==> permit == Some(state.tool.value.request)
      modifies this`permit, this`mine, owner
      ensures Valid() && Grows() && owner.log == old(owner.log) && OneExecution(old(mine), mine)
      ensures forall k :: |old(mine)| <= k < |mine| ==> RunsOnly(mine[k], newly, safety, expected)
    {
      hide InstanceEnabled, Moved, Appended, After, Legal, IntentLogged;
      failed, outcome, bytes := false, ToolUnknown, None;
      if newly {
        var admitted: bool := *;
        if !admitted {
          outcome, bytes := ToolFailed, *;
          return;
        }
        RunToolEffect(owner.World(), View());
        permit := None;
        Record(RunTool, []);
        outcome, bytes := *, *;
        return;
      }
      var observed: bool := *;
      if observed {
        failed, outcome, bytes := *, *, *;
        return;
      }
      var denied: bool, current: Option<nat> := *, *;
      var ground := Ground(safety, expected, current);
      if denied && SafeReplay(ground) {
        ReplayToolEffect(owner.World(), View(), ground);
        Record(ReplayTool(ground), []);
        outcome, bytes := *, *;
      }
    }

    /** The observation is retained first, so that a failed capture never repeats the effect. */
    method CaptureOutcome(outcome: ToolOutcome, bytes: Option<Content>) returns (ok: bool)
      requires Valid() && Quiet() && phase.Ready? && state.tool.Some? && IntentLogged(owner.log, state.tool.value)
      modifies this, owner
      ensures Valid() && Grows() && AddsLocal(old(mine), mine)
      ensures ok ==> Quiet() && TookOutcome(old(state), state, OutcomeEvent(old(state).tool.value, outcome, bytes))
    {
      hide InstanceEnabled, Moved, Appended, After, Legal, IntentLogged, TookOutcome;
      QueueOutcomeEffect(owner.World(), View(), outcome, bytes);
      pendingToolCapture := Some(OutcomeEvent(state.tool.value, outcome, bytes));
      permit := None;
      Record(QueueOutcome(outcome, bytes), []);
      ok := RetryTool();
    }

    /** The planned tool is carried out: its intent made durable, its target asked, its outcome captured and applied. */
    method RunPlanned(safety: ReplaySafety, expected: Option<nat>) returns (o: Outcome)
      requires Valid() && Quiet() && phase.Ready? && state.tool.Some?
      modifies this, owner
      ensures Valid() && Grows() && OneExecution(old(mine), mine)
      ensures o.Finished? ==> Quiet() && Progressed(old(state), state)
    {
      hide InstanceEnabled, Moved, Appended, After, Legal, IntentLogged, TookOutcome, AddsLocal, OneExecution,
           RunsOnly;
      var newly := OfferIntent();
      LocalIsNoCall(old(mine), mine);
      if newly.None? {
        return NotPersisted;
      }
      ghost var acts := mine;
      if IdLogged(owner.log, state.tool.value.outcome) {
        if !OutcomeLogged(owner.log, state.tool.value) {
          return Refused;
        }
        ghost var e := owner.log[state.tool.value.outcomeAt - 1];
        var ok := ApplyOutcome();
        assert ok ==> TookOutcome(old(state), state, e);
        LocalThen(old(mine), acts, mine);
        LocalIsNoCall(old(mine), mine);
        return if ok then Finished else NotPersisted;
      }
      var failed, outcome, bytes := CallTarget(newly.value, safety, expected);
      LocalSame(mine);
      OneExecutionThen(old(mine), acts, mine, mine);
      if failed {
        return Refused;
      }
      ghost var ran := mine;
      if !newly.value && outcome.ToolUnknown? && bytes.None? {
        ApplyIntent();
        OneExecutionThen(old(mine), acts, ran, mine);
        return Finished;
      }
      var ok := CaptureOutcome(outcome, bytes);
      OneExecutionThen(old(mine), acts, ran, mine);
      o := if ok then Finished else NotPersisted;
    }

    /**
      `execute_next_tool`: only at a known boundary and only the next proposed call, as its captured proposal spells it
      out; its operation must be the registered one and its action the one already pending if one is. Whatever happens,
      the target runs at most once.
     */
    method ExecuteNextTool(registered: nat, decode: EventId -> Option<seq<Requested>>, safety: ReplaySafety,
                           expected: Option<nat>)
      returns (o: Outcome)
      requires Valid()
      modifies this, owner
      ensures Valid() && Grows() && OneExecution(old(mine), mine)
      ensures o.Finished? ==> Quiet() && (state.groups == old(state).groups
                                          || AnsweredOne(old(state).groups, state.groups))
      ensures !old(Quiet()) || !old(phase).Ready?
              || (forall r :: IsQueued(old(state).groups, decode, r) ==>
                    || r.operation != registered
                    || (old(state).tool.Some?
                        && !(old(state).tool.value.call == r.call && old(state).tool.value.action == r.action)))
              ==> o.Refused? && Untouched()
    {
      hide InstanceEnabled, Moved, Appended, After, Legal, HasOutstanding, Waiting, AddsLocal, OneExecution,
           Progressed, AnsweredOne, IsQueued;
      LocalSame(mine);
      LocalIsNoCall(mine, mine);
      var next := NextQueued(state.groups, decode);
      if !Quiet() || !phase.Ready? || !next.Queued? || next.requested.operation != registered {
        return Refused;
      }
      var call, digest := next.requested.call, next.requested.action;
      if state.tool.None? {
        var planned := PlanNextTool(call, digest);
        LocalIsNoCall(old(mine), mine);
        if !planned {
          return NotPersisted;
        }
      }
      if state.tool.value.call != call || state.tool.value.action != digest {
        return Refused;
      }
      ghost var acts, was := mine, state;
      o := RunPlanned(safety, expected);
      LocalThenOne(old(mine), acts, mine);
      if o.Finished? {
        ProgressAnswers(was, state);
      }
    }

    // ------------------------------------------------------------ persistence

    /** `retry_persistence`: only what is retained is offered again; no model and no tool is ever called. */
    method RetryPersistence() returns (o: Outcome)
      requires Valid()
      modifies this, owner
      ensures Valid() && Grows() && AddsLocal(old(mine), mine)
      ensures old(Clear(View())) ==> o.Finished? && Untouched()
      ensures o.Finished? ==> Clear(View())
      ensures o.Finished? || o.NotPersisted?
    {
      hide InstanceEnabled, Moved, Appended, After, Legal, InstInv, LogInv, Apply;
      if pendingToolCapture.Some? {
        var ok := RetryTool();
        return if ok then Finished else NotPersisted;
      }
      if pendingCapture.None? && pendingCheckpoint.None? {
        return Finished;
      }
      Sound();
      if pendingCapture.Some? {
        CaptureApplies(owner.log, View(), owner.issued);
        if pendingCapture.value.prepared.Some? {
          var ok, slot := FlushCapture();
          return if ok then Finished else NotPersisted;
        }
        var ok, slot := CaptureAndSave();
        return if ok then Finished else NotPersisted;
      }
      RetainedAlone(owner.log, View());
      var ok := OfferCheckpoint(false);
      o := if ok then Finished else NotPersisted;
    }

    // -------------------------------------------------- boundaries of the run

    /** A change of working state at a known boundary, then its checkpoint. */
    method Adopt(t: Checkpoint) returns (ok: bool)
      requires Valid() && Quiet() && phase.Ready? && state.tool.None? && Revises(state, t)
      modifies this, owner
      ensures Valid() && Grows() && AddsLocal(old(mine), mine)
      ensures phase.Ready? && state == (if ok then Bump(t) else t) && (ok <==> Clear(View()))
    {
      hide InstanceEnabled, Moved, Appended, After, Legal, Revises;
      ReviseEffect(owner.World(), View(), t);
      RevisedTool(state, t);
      state := t;
      ok := SaveCheckpoint(Revise(t));
    }

    /** `switch_reader`: only at a known boundary, and only to a reader that can represent the resident protocol. */
    method SwitchReader(profile: Profile, readerOk: bool, p: Rolling.Policy, max: nat) returns (o: Outcome)
      requires Valid()
      modifies this, owner, settings
      ensures Valid() && Grows() && AddsLocal(old(mine), mine)
      ensures o.Refused? <==> !(old(Quiet()) && old(phase).Ready? && old(state).tool.None? && readerOk
                                && Rolling.Validates(p, max) && Represents(profile, old(state).groups))
      ensures o.Refused? ==> Untouched() && unchanged(settings)
      ensures !o.Refused? ==> settings.rolling == p && settings.maxInput == max
      ensures o.Finished? ==> Quiet() && phase.Ready? && state == Bump(old(state).(profile := profile))
    {
      hide InstanceEnabled, Moved, Appended, After, Legal, Represents, Rolling.Validates;
      if !Quiet() || !phase.Ready? || state.tool.Some? {
        return Refused;
      }
      if !readerOk || !Rolling.Validates(p, max) || !Represents(profile, state.groups) {
        return Refused;
      }
      settings.rolling, settings.maxInput := p, max;
      var ok := Adopt(state.(profile := profile));
      o := if ok then Finished else NotPersisted;
    }

    /** `add_obligation`: refused unless the state with it still meets the whole bounded profile. */
    method AddObligation(item: Obligation) returns (o: Outcome)
      requires Valid()
      modifies this, owner
      ensures Valid() && Grows() && AddsLocal(old(mine), mine)
      ensures o.Refused? <==> !(old(Quiet()) && old(phase).Ready? && old(state).tool.None?
                                && Admissible(old(state).(obligations := old(state).obligations + [item])))
      ensures o.Refused? ==> Untouched()
      ensures o.Finished? ==> Quiet() && phase.Ready?
                              && state == Bump(old(state).(obligations := old(state).obligations + [item]))
    {
      hide InstanceEnabled, Moved, Appended, After, Legal, Admissible;
      var next := state.(obligations := state.obligations + [item]);
      if !Quiet() || !phase.Ready? || state.tool.Some? || !Admissible(next) {
        return Refused;
      }
      var ok := Adopt(next);
      o := if ok then Finished else NotPersisted;
    }

    /** `close_obligation`: the first obligation of that identity is closed, and only the newest 32 closed ones stay. */
    method CloseObligation(id: Name, status: ObligationStatus) returns (o: Outcome)
      requires Valid()
      modifies this, owner
      ensures Valid() && Grows() && AddsLocal(old(mine), mine)
      ensures o.Refused? <==> !(old(Quiet()) && old(phase).Ready? && old(state).tool.None?
                                && Obligations.CanClose(old(state).obligations, id, status))
      ensures o.Refused? ==> Untouched()
      ensures o.Finished? ==> ClosedOne(old(state), state, id, status)
    {
      hide InstanceEnabled, Moved, Appended, After, Legal, Obligations.Newest;
      var at := Obligations.Find(state.obligations, id);
      if || !Quiet() || !phase.Ready? || state.tool.Some? || at.None?
         || !Obligations.Closable(state.obligations[at.value], status) {
        return Refused;
      }
      var closed := state.obligations[at.value := state.obligations[at.value].(status := status)];
      var kept := Obligations.RetainNewest(closed, 32);
      var ok := Adopt(state.(obligations := kept));
      o := if ok then Finished else NotPersisted;
      assert Obligations.FirstAt(old(state).obligations, id, at.value);
    }

    /** `finish`: cancelling releases open obligations; completing needs none open and no exchange open. */
    method Finish(status: Status) returns (o: Outcome)
      requires Valid()
      modifies this, owner
      ensures Valid() && Grows() && AddsLocal(old(mine), mine)
      ensures o.Refused? <==> !(&& old(Quiet()) && old(phase).Ready? && old(state).tool.None? && !status.Active?
                                && (status.Completed? ==> LastComplete(old(state).groups)
                                                          && OpenObligations(old(state).obligations) == 0))
      ensures o.Refused? ==> Untouched()
      ensures o.Finished? ==> Ended(old(state), state, status)
    {
      hide InstanceEnabled, Moved, Appended, After, Legal, InstInv, LogInv, OpenObligations, Admissible;
      if !Quiet() || !phase.Ready? || state.tool.Some? || status.Active? {
        return Refused;
      }
      Sound();
      ReadyFits(owner.log, View());
      var next := state;
      if status.Cancelled? {
        next := next.(obligations := Obligations.Released(next.obligations));
      } else if exists k :: 0 <= k < |next.groups| && !next.groups[k].complete {
        return Refused;
      }
      next := next.(groups := [], lastOutput := None, status := status);
      EndAdmissible(owner.log, View(), next);
      if !Admissible(next) {
        return Refused;
      }
      var ok := Adopt(next);
      o := if ok then Finished else NotPersisted;
    }

    // ----------------------------------------------------------------- resume

    /**
      `resume`: rebuild from the last checkpoint and its tail, checkpoint what was replayed, and read every original
      back. The object that comes back is the resumed process and holds no call it could still send: a pending one is
      unknown. None comes back unless the log met the recovery condition; and when all is `calm`, so that the owner
      answers and nobody else acts, one comes back exactly if it does.
     */
    static method Reopen(o: NativeOwner, ghost who: nat, p: Rolling.Policy, max: nat, calm: bool)
      returns (r: OwnedAgentRuntime?)
      requires o.Valid() && who !in o.World().live && Rolling.Validates(p, max)
      modifies o
      ensures o.Valid() && old(o.history) <= o.history
      ensures r != null ==> fresh(r) && r.Valid() && r.owner == o && r.me == who && AddsLocal([], r.mine)
      ensures r != null ==> fresh(r.settings) && r.settings.rolling == p && r.settings.maxInput == max
      ensures r != null ==> Clear(r.View()) && (r.phase.Ready? || r.phase.Unknown?) && Legible(r.state)
      ensures r != null ==> (r.phase.Unknown? <==> r.state.model.Some?)
      ensures r != null ==>
                RunRecovery.Recoverable(old(o.log)) && RunRevival.Restored(old(o.log), old(o.issued), r.View())
      ensures calm ==> (r != null <==> RunRecovery.Recoverable(old(o.log)))
    {
      hide InstanceEnabled, Moved, Appended, After, Legal, InstInv, LogInv, TailInv, Recover, Resumed,
           RunRevival.Restored, Legible, RunRecovery.Recoverable, Durable, AcceptsSave, Head, Enabled, Do;
      r := null;
      if RunRecovery.Recoverable(o.log) {
        o.CanComeBack();
      }
      var x := Rejoin(o, who, p, max);
      if x == null {
        return;
      }
      ghost var resumed := x.View();
      var ok := x.Open(calm);
      if !ok {
        x.Abandon();
        return;
      }
      x.Known();
      r := x;
      RestoredIs(old(o.log), old(o.issued), x.View());
      LegibleSame(resumed.state, x.state);
      o.CameBack(old(o.history), resumed);
    }

    /** A resume that fails drops its object, which is then as good as crashed. */
    method Abandon()
      requires Tracked()
      modifies owner
      ensures owner.Valid() && Grows()
    {
      hide InstanceEnabled, Moved, Appended, After, Legal;
      CrashEffect(owner.World(), View());
      owner.Take(me, Crash, []);
      assert old(owner.log) + [] == old(owner.log);
    }

    /** The start of `resume`: replay the tail and rebuild the object, which joins the run still opening. */
    static method Rejoin(o: NativeOwner, ghost who: nat, p: Rolling.Policy, max: nat) returns (x: OwnedAgentRuntime?)
      requires o.Valid() && who !in o.World().live && Rolling.Validates(p, max)
      modifies o
      ensures o.Valid() && old(o.history) <= o.history
      ensures x != null ==> fresh(x) && x.Tracked() && x.Opening() && x.owner == o && x.me == who && x.mine == []
      ensures x != null ==> fresh(x.settings) && x.settings.rolling == p && x.settings.maxInput == max
      ensures x != null ==> x.pendingCapture.None? && x.pendingToolCapture.None? && (x.phase.Ready? || x.phase.Unknown?)
      ensures x != null <==> Head(old(o.log)) > 0 && Recover(old(o.log), old(o.issued)).Some?
      ensures x != null ==> x.View() == Resumed(old(o.log), old(o.issued)) && o.log == old(o.log)
    {
      hide InstanceEnabled, Moved, Appended, After, Legal, InstInv, LogInv, TailInv, Recover, Resumed;
      x := null;
      if Head(o.log) == 0 {
        return;
      }
      var recovered := ReplayTail(o.log, o.issued);
      if recovered.None? {
        return;
      }
      o.Sound();
      RunInvariant.ResumeHoldsNothing(o.log, o.issued);
      ResumedShape(o.log, o.issued);
      x := new OwnedAgentRuntime.Rebuild(o, who, recovered.value, p, max);
      x.Known();
    }

    /** The end of `resume`: publish the checkpoint it calls for, read every original back, and hand the object over. */
    method Open(calm: bool) returns (ok: bool)
      requires Tracked() && Opening() && pendingCapture.None? && pendingToolCapture.None?
      modifies this`state, this`receipt, this`pendingCheckpoint, this`mine, owner
      ensures Tracked() && Grows() && AddsLocal(old(mine), mine)
      ensures ok ==> Valid() && Clear(View()) && Legible(state)
      ensures ok ==> state == if old(pendingCheckpoint).Some? then Bump(old(state)) else old(state)
      ensures ok && old(pendingCheckpoint).Some? ==> Durable(owner.log, state)
      ensures calm && Legible(old(state)) ==>
                ok || (old(pendingCheckpoint).Some? && !AcceptsSave(old(owner.log), old(pendingCheckpoint).value))
    {
      hide InstanceEnabled, Moved, Appended, After, Legal, Legible, Durable, AcceptsSave;
      ok := true;
      if pendingCheckpoint.Some? {
        ok := OfferCheckpoint(calm);
      }
      if !ok {
        return;
      }
      var readable: bool := *;
      var text := Rehydrate(state);
      LegibleSame(old(state), state);
      ok := (readable || calm) && text;
      if ok {
        OpenEffect(owner.World(), View());
        ghost var log := owner.log;
        Record(Action.Open, []);
        assert owner.log == log;
      }
    }

    lemma Known()
      requires Tracked()
      ensures PhaseFits(View())
    {
      hide After, Legal, InstInv, LogInv;
      Sound();
      PhaseKnown(owner.log, View());
    }
  }

  // ------------------------------------------------------- what a call achieved

  /** The window a new message joins: a full one first loses a chunk. */
  function Kept(groups: seq<Group>, p: Rolling.Policy): seq<Group> {
    if |groups| == MAX_GROUPS then groups[Rolling.EvictCount(groups, p)..] else groups
  }

  /** The message is durable, the window is bounded, and its last exchange is open on exactly that message. */
  ghost predicate TookUser(log: seq<Event>, s: Checkpoint, t: Checkpoint, p: Rolling.Policy, size: nat) {
    && |t.groups| <= MAX_GROUPS
    && t == s.(groups := t.groups, revision := s.revision + 1, next := s.next + 2)
    && exists id, sequence ::
         && Event(id, s.next, UserMessage(size)) in log
         && t.groups == Kept(s.groups, p) + [Group(sequence, [Message(id, User, [], None, size, true)], false)]
  }

  /**
    The reply joined the open exchange and nothing else moved: an empty one adds no message, and the exchange
    is complete exactly when no tool was proposed.
   */
  ghost predicate TookReply(s: Checkpoint, t: Checkpoint, calls: seq<ToolId>, size: nat) {
    && |s.groups| > 0 && size <= MAX_TEXT && t.lastOutput.Some?
    && var last := s.groups[|s.groups| - 1];
       var message := Message(t.lastOutput.value, Assistant, calls, None, size, true);
       var messages := if size == 0 then last.messages else last.messages + [message];
       t == s.(groups := s.groups[..|s.groups| - 1] + [last.(messages := messages, complete := calls == [])],
               model := None, lastOutput := t.lastOutput, revision := s.revision + 1, next := s.next + 2)
  }

  lemma {:induction false} TookAnswer(s: Checkpoint, e: Event, slot: EventId)
    requires e.body.ModelCompleted? && Apply(Recovered(s, Unknown), e, slot).Some?
    ensures var r := Apply(Recovered(s, Unknown), e, slot).value;
            TookReply(s, Bump(r.state), e.body.toolCalls, e.body.size) && r.phase.Ready?
  {
  }

  /** The partial output is durable and the call stays in doubt, marked with it; nothing else moved. */
  ghost predicate Interrupted(log: seq<Event>, s: Checkpoint, t: Checkpoint, output: Digest) {
    && s.model.Some?
    && var m := s.model.value;
       exists id ::
         && Event(id, s.next, ModelAborted(m.call, m.request, output)) in log
         && t == s.(model := Some(m.(interrupted := Some(id))), revision := s.revision + 1, next := s.next + 2)
  }

  lemma {:induction false} TookAbort(log: seq<Event>, s: Checkpoint, e: Event, slot: EventId)
    requires e in log && s.model.Some? && e.body.ModelAborted?
    requires e == Event(e.id, s.next, ModelAborted(s.model.value.call, s.model.value.request, e.body.output))
    requires Apply(Recovered(s, Unknown), e, slot).Some?
    ensures var r := Apply(Recovered(s, Unknown), e, slot).value;
            Interrupted(log, s, Bump(r.state), e.body.output) && r.phase.Unknown?
  {
  }

  lemma {:induction false} RestoredIs(log: seq<Event>, issued: nat, x: Instance)
    requires Head(log) > 0 && Recover(log, issued).Some?
    requires var y := Resumed(log, issued);
             x.phase == y.phase && x.state == if y.save.Some? then Bump(y.state) else y.state
    ensures RunRevival.Restored(log, issued, x)
  {
    hide Recover, Resumed;
  }

  /** Whether a proposed call repeats a resident one or another in the same reply. */
  method RepeatsCall(groups: seq<Group>, calls: seq<ToolId>) returns (repeats: bool)
    ensures repeats <==> !(Distinct(calls) && NoneResident(groups, calls))
  {
    var seen: set<ToolId> := {};
    for g := 0 to |groups|
      invariant forall c :: c in seen <==> exists k :: 0 <= k < g && Asks(groups[k], c)
    {
      for m := 0 to |groups[g].messages|
        invariant forall c :: c in seen <==>
                    || (exists k :: 0 <= k < g && Asks(groups[k], c))
                    || (exists k :: 0 <= k < m && c in groups[g].messages[k].toolCalls)
      {
        seen := seen + set c | c in groups[g].messages[m].toolCalls;
      }
    }
    ghost var resident := seen;
    for i := 0 to |calls|
      invariant forall c :: c in seen <==> c in resident || c in calls[..i]
      invariant Distinct(calls[..i])
      invariant forall k :: 0 <= k < i ==> calls[k] !in resident
    {
      if calls[i] in seen {
        if calls[i] in resident {
          ghost var g :| 0 <= g < |groups| && Asks(groups[g], calls[i]);
          assert calls[i] in calls;
        } else {
          ghost var k :| 0 <= k < i && calls[..i][k] == calls[i];
          assert calls[k] == calls[i];
        }
        return true;
      }
      seen := seen + {calls[i]};
    }
    assert calls[..|calls|] == calls;
    repeats := false;
  }

  predicate NoneResident(groups: seq<Group>, calls: seq<ToolId>) {
    forall g, c :: 0 <= g < |groups| && c in calls ==> !Asks(groups[g], c)
  }

  lemma {:induction false} ReplyChecked(groups: seq<Group>, calls: seq<ToolId>, size: nat)
    requires |calls| <= 32 && Distinct(calls) && NoneResident(groups, calls) && (calls != [] ==> size > 0)
    ensures ReplyFits(groups, calls, size)
  {
  }

  /** The first obligation of that identity took the status; nothing else but retention changed working state. */
  ghost predicate ClosedOne(s: Checkpoint, t: Checkpoint, id: Name, status: ObligationStatus) {
    exists k: nat ::
      && Obligations.FirstAt(s.obligations, id, k)
      && t == Bump(s.(obligations :=
                        Obligations.Newest(s.obligations[k := s.obligations[k].(status := status)], 32)))
  }

  /** A terminal state keeps nothing resident and nothing open. */
  ghost predicate Ended(s: Checkpoint, t: Checkpoint, status: Status) {
    && t == Bump(s.(groups := [], lastOutput := None, status := status, obligations := t.obligations))
    && OpenObligations(t.obligations) == 0
    && |t.obligations| == |s.obligations|
    && forall k :: 0 <= k < |s.obligations| ==> t.obligations[k].id == s.obligations[k].id
  }

  /** At a known boundary a terminal state is admissible exactly when nothing is left open. */
  lemma {:induction false} EndAdmissible(log: seq<Event>, x: Instance, t: Checkpoint)
    requires LogInv(log) && InstInv(log, x) && Clear(x) && x.phase.Ready? && x.state.tool.None? && !t.status.Active?
    requires t == x.state.(groups := [], lastOutput := None, status := t.status, obligations := t.obligations)
    requires t.obligations == x.state.obligations || t.obligations == Obligations.Released(x.state.obligations)
    ensures Admissible(t) <==> OpenObligations(t.obligations) == 0
    ensures t.obligations == Obligations.Released(x.state.obligations) ==> OpenObligations(t.obligations) == 0
  {
    hide InstInv, LogInv, OpenObligations, OpenBytes, ObligationsSound;
    BoundarySound(log, x);
    if t.obligations == Obligations.Released(x.state.obligations) {
      Obligations.ReleasedNoneOpen(t.obligations);
      Obligations.ReleasedSound(t.identity, x.state.obligations);
    }
    if OpenObligations(t.obligations) == 0 {
      Obligations.NoneOpenNoBytes(t.obligations);
    }
  }

  /** What is resident at a known boundary was in the last checkpoint. */
  lemma {:induction false} BoundarySound(log: seq<Event>, x: Instance)
    requires LogInv(log) && InstInv(log, x) && Clear(x) && x.phase.Ready? && x.state.tool.None?
    ensures x.state.revision > 0 && x.state.next >= 2 && x.state.model.None?
            && ObligationsSound(x.state.identity, x.state.obligations)
  {
    hide StateInv, TailFits, DropsComplete, OpenObligations, OpenBytes, HasOutstanding, ObligationsSound, Bounded,
         GroupsSound;
    assert CheckpointInv(log, log[x.receipt - 1]);
  }

  lemma {:induction false} ResumedIs(log: seq<Event>, slot: EventId, r: Recovered)
    requires Head(log) > 0 && Recover(log, slot) == Some(r)
    ensures var state := if r.phase.Planned? then r.state.(model := None) else r.state;
            var saves := r.phase.Planned? || (Head(log) < |log| && PositionAvailable(state));
            Resumed(log, slot)
            == Instance(state, Head(log), if r.phase.Planned? then Ready else r.phase, None,
                        if saves then Some(SaveEvent(state, slot + 2)) else None, None, None)
  {
    hide Recover;
  }

  lemma {:induction false} ResumedShape(log: seq<Event>, slot: EventId)
    requires Head(log) > 0 && Recover(log, slot).Some?
    ensures Resumed(log, slot).capture.None? && Resumed(log, slot).toolCapture.None?
  {
    hide Recover;
  }

  /** Leading groups left, a call was planned and captured, and nothing else moved but positions. */
  ghost predicate Prepared(s: Checkpoint, t: Checkpoint, n: nat) {
    && n <= |s.groups|
    && t == s.(groups := s.groups[n..], model := t.model, revision := t.revision, next := t.next)
  }

  /** A finished turn: some eligible groups left, and the reply joined the exchange that was open. */
  ghost predicate TurnTaken(s: Checkpoint, t: Checkpoint, p: Rolling.Policy) {
    exists n: nat, mid: Checkpoint, calls: seq<ToolId>, size: nat ::
      n <= Rolling.Eligible(s.groups, p) && Prepared(s, mid, n) && TookReply(mid, t, calls, size)
  }

  lemma {:induction false} TurnDone(s: Checkpoint, mid: Checkpoint, t: Checkpoint, p: Rolling.Policy, n: nat,
                                    calls: seq<ToolId>, size: nat)
    requires n <= Rolling.Eligible(s.groups, p) && Prepared(s, mid, n) && TookReply(mid, t, calls, size)
    ensures TurnTaken(s, t, p) && t.model.None?
  {
  }

  /** A pending tool moved on: its intent or its outcome was applied, and nothing else. */
  ghost predicate Progressed(s: Checkpoint, t: Checkpoint) {
    t == s.(next := t.next) || exists e :: TookOutcome(s, t, e)
  }

  /** The open exchange gained exactly one message, the result of a call it was waiting for. */
  ghost predicate AnsweredOne(before: seq<Group>, after: seq<Group>) {
    && |before| > 0
    && var last := before[|before| - 1];
       exists m: Message ::
         && m.role.Tool? && m.toolResult.Some? && Waiting(last, m.toolResult.value)
         && after == Replaced(before, WithMessage(last, m))
  }

  lemma {:induction false} ProgressAnswers(s: Checkpoint, t: Checkpoint)
    requires s.tool.Some? && |s.groups| > 0 && Waiting(s.groups[|s.groups| - 1], s.tool.value.call) && Progressed(s, t)
    ensures t.groups == s.groups || AnsweredOne(s.groups, t.groups)
  {
    hide Waiting;
    if t.groups != s.groups {
      var e :| TookOutcome(s, t, e);
      var bytes := e.body.bytes.value;
      var m := Message(e.id, Tool, [], Some(s.tool.value.call), bytes.size, bytes.text);
      assert t.groups == Replaced(s.groups, WithMessage(s.groups[|s.groups| - 1], m));
    }
  }

  /** The state has lost its first `n` groups, all of them eligible, and nothing else but positions moved. */
  ghost predicate Trimmed(s: Checkpoint, t: Checkpoint, p: Rolling.Policy, n: nat) {
    && n <= Rolling.Eligible(s.groups, p)
    && t == s.(groups := s.groups[n..], revision := t.revision, next := t.next)
  }

  lemma {:induction false} Untrimmed(s: Checkpoint, p: Rolling.Policy)
    ensures Trimmed(s, s, p, 0)
  {
  }

  lemma {:induction false} TrimmedThen(s: Checkpoint, t: Checkpoint, u: Checkpoint, p: Rolling.Policy, m: nat, n: nat)
    requires Trimmed(s, t, p, m) && Trimmed(t, u, p, n)
    ensures Trimmed(s, u, p, m + n) && u.status == s.status && u.model == s.model
  {
  }

  /** What is trimmed is complete: the open exchange survives, and so do the complete ones the policy keeps. */
  lemma {:induction false} TrimmedKeeps(s: Checkpoint, t: Checkpoint, p: Rolling.Policy, n: nat)
    requires Trimmed(s, t, p, n)
    ensures DropsComplete(s.groups, t.groups) && |t.groups| == |s.groups| - n
    ensures !LastComplete(s.groups) ==> !LastComplete(t.groups)
    ensures Rolling.LeadingComplete(t.groups) >= p.keep || t.groups == s.groups
  {
  }

  lemma {:induction false} RevisedTool(s: Checkpoint, t: Checkpoint)
    requires Revises(s, t)
    ensures t.tool == s.tool
  {
  }

  lemma {:induction false} TrimmedSame(s: Checkpoint, t: Checkpoint, p: Rolling.Policy, n: nat)
    requires Trimmed(s, t, p, n)
    ensures t.status == s.status && t.model == s.model
  {
  }

  lemma {:induction false} TookReplyClears(s: Checkpoint, t: Checkpoint, calls: seq<ToolId>, size: nat)
    ensures TookReply(s, t, calls, size) ==> t.model.None?
  {
  }

  lemma {:induction false} LocalIsNoCall(a: seq<Action>, b: seq<Action>)
    requires AddsLocal(a, b)
    ensures OneCall(a, b) && OneExecution(a, b) && forall native :: FencedCall(a, b, native)
  {
  }

  /** A call to the target: a first run needs a newly accepted intent, a repeat an older one and safe grounds. */
  predicate RunsOnly(a: Action, newly: bool, safety: ReplaySafety, expected: Option<nat>) {
    && (a.RunTool? ==> newly)
    && (a.ReplayTool? ==> !newly && SafeReplay(a.ground) && a.ground.safety == safety && a.ground.expected == expected)
  }

  lemma {:induction false} LocalThenOne(a: seq<Action>, b: seq<Action>, c: seq<Action>)
    requires AddsLocal(a, b) && OneExecution(b, c)
    ensures OneExecution(a, c)
  {
  }

  lemma {:induction false} OneExecutionThen(a: seq<Action>, b: seq<Action>, c: seq<Action>, d: seq<Action>)
    requires AddsLocal(a, b) && OneExecution(b, c) && AddsLocal(c, d)
    ensures OneExecution(a, d)
  {
  }

  /** Every call added was accepted by its fence in the action just before. */
  ghost predicate FencedCall(before: seq<Action>, after: seq<Action>, native: bool) {
    forall k :: |before| <= k < |after| && after[k].Send? ==> k > |before| && after[k - 1] == Admit(native)
  }

  /** An admission is held from the action that took it. */
  lemma {:induction false} AdmitHolds(w: World, who: nat, a: Action)
    requires Enabled(w, Step(who, a)) && a.Admit?
    ensures HoldsAdmission(Do(w, Step(who, a)), who)
  {
    hide Admits, Appended;
  }

  lemma {:induction false} OneSend(a: seq<Action>, native: bool, b: seq<Action>)
    requires AddsLocal(a + [Admit(native)] + [Action.Send], b)
    ensures OneCall(a, b) && FencedCall(a, b, native) && Action.Send in b[|a|..]
  {
    var d := a + [Admit(native)] + [Action.Send];
    assert d[|a|] == Admit(native) && d[|a| + 1] == Action.Send;
    assert b[|a|..][1] == Action.Send;
  }

  lemma {:induction false} LocalThenCall(a: seq<Action>, b: seq<Action>, native: bool, c: seq<Action>)
    requires AddsLocal(a, b) && OneCall(b, c) && FencedCall(b, c, native)
    ensures OneCall(a, c) && FencedCall(a, c, native)
    ensures Action.Send in c[|b|..] ==> Action.Send in c[|a|..]
  {
    if Action.Send in c[|b|..] {
      var k :| 0 <= k < |c| - |b| && c[|b|..][k] == Action.Send;
      assert c[|a|..][|b| - |a| + k] == Action.Send;
    }
  }

  lemma {:induction false} LocalSame(acts: seq<Action>)
    ensures AddsLocal(acts, acts)
  {
  }

  lemma {:induction false} LocalThen(a: seq<Action>, b: seq<Action>, c: seq<Action>)
    requires AddsLocal(a, b) && AddsLocal(b, c)
    ensures AddsLocal(a, c)
  {
  }

  lemma {:induction false} TookMessage(log: seq<Event>, s: Checkpoint, t: Checkpoint, p: Rolling.Policy, e: Event,
                                       slot: EventId)
    requires e in log && e.position == s.next && e.body.UserMessage?
    requires |Kept(s.groups, p)| < MAX_GROUPS
    requires var r := Apply(Recovered(s.(groups := Kept(s.groups, p)), Ready), e, slot);
             r.Some? && t == Bump(r.value.state)
    ensures TookUser(log, s, t, p, e.body.size) && t.status == s.status
    ensures Apply(Recovered(s.(groups := Kept(s.groups, p)), Ready), e, slot).value.phase.Ready?
  {
  }
}
