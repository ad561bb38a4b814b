/**
  What every run keeps of the content of its states: where resident messages come from, what a pending tool waits
  for, how replies are shaped, and how many exchanges a process holds.
 */
module RunContent {
  import opened Wrappers
  import opened OwnedRun
  import opened Bounds
  import opened RunSteps
  import opened RunSafety
  import opened RunProofs
  import opened RunInvariant

  // ----------------------------------------------------------------- invariant

  /** No identity is accepted twice. */
  predicate UniqueIds(log: seq<Event>) {
    forall i, j :: 0 <= i < j < |log| ==> log[i].id != log[j].id
  }

  /** The identity of an event that stands before position `n`. */
  predicate IdBefore(log: seq<Event>, id: EventId, n: nat) {
    exists k :: 0 <= k < |log| && k < n - 1 && log[k].id == id
  }

  /** Every resident message was captured before the state's next position. */
  predicate Sourced(log: seq<Event>, groups: seq<Group>, n: nat) {
    forall m :: m in Messages(groups) ==> IdBefore(log, m.source, n)
  }

  /** A pending tool carries out a call that the open exchange still waits for. */
  predicate ToolWaits(s: Checkpoint) {
    s.tool.Some? ==> |s.groups| > 0 && Waiting(s.groups[|s.groups| - 1], s.tool.value.call)
  }

  predicate StateContent(log: seq<Event>, s: Checkpoint) {
    Sourced(log, s.groups, s.next) && ToolWaits(s)
  }

  /** What `capture_reply` lets into the log. */
  predicate ReplyShaped(e: Event) {
    e.body.ModelCompleted? ==>
      |e.body.toolCalls| <= MAX_CALLS && Distinct(e.body.toolCalls) && (e.body.toolCalls != [] ==> e.body.size > 0)
  }

  predicate LogContent(log: seq<Event>) {
    && UniqueIds(log)
    && (forall k :: 0 <= k < |log| ==> ReplyShaped(log[k]))
    && (forall k :: 0 <= k < |log| && log[k].body.Checkpointed? ==> StateContent(log, log[k].body.checkpoint))
  }

  /** The one way to hold more than 64 exchanges: a resume whose replay added a message to a full checkpoint. */
  predicate Overfull(log: seq<Event>, x: Instance) {
    && x.save.Some? && |x.state.groups| == MAX_GROUPS + 1
    && 0 < x.receipt < |log|
    && log[x.receipt - 1].body.Checkpointed? && |log[x.receipt - 1].body.checkpoint.groups| == MAX_GROUPS
    && log[x.receipt].body.UserMessage?
  }

  predicate WindowInv(log: seq<Event>, x: Instance, opening: bool) {
    |x.state.groups| <= MAX_GROUPS || (opening && Overfull(log, x))
  }

  ghost predicate ContentInv(w: World) {
    && LogContent(w.log)
    && w.opening <= w.live.Keys
    && (forall i :: i in w.live ==> StateContent(w.log, w.live[i].state) && WindowInv(w.log, w.live[i], i in w.opening))
  }

  // ------------------------------------------------------------- the log grows

  lemma {:induction false} IdBeforeStable(log: seq<Event>, more: seq<Event>, id: EventId, n: nat, m: nat)
    requires IdBefore(log, id, n) && n <= m
    ensures IdBefore(log + more, id, m)
  {
    var k :| 0 <= k < |log| && k < n - 1 && log[k].id == id;
    assert (log + more)[k] == log[k];
  }

  /** Fewer groups, a longer log and a later position keep sources where they were. */
  lemma {:induction false} SourcedStable(log: seq<Event>, more: seq<Event>, full: seq<Group>, kept: seq<Group>, n: nat,
                                         m: nat)
    requires Sourced(log, full, n) && n <= m && |kept| <= |full| && kept == full[|full| - |kept|..]
    ensures Sourced(log + more, kept, m)
  {
    hide IdBefore, Messages;
    MessagesDropped(full, |full| - |kept|);
    forall e | e in Messages(kept) ensures IdBefore(log + more, e.source, m) {
      assert e in Messages(full);
      IdBeforeStable(log, more, e.source, n, m);
    }
  }

  lemma {:induction false} ContentStable(log: seq<Event>, more: seq<Event>, s: Checkpoint)
    requires StateContent(log, s)
    ensures StateContent(log + more, s)
  {
    hide Sourced, Waiting;
    assert s.groups == s.groups[|s.groups| - |s.groups|..];
    SourcedStable(log, more, s.groups, s.groups, s.next, s.next);
  }

  lemma {:induction false} WindowStable(log: seq<Event>, more: seq<Event>, x: Instance, opening: bool)
    requires WindowInv(log, x, opening)
    ensures WindowInv(log + more, x, opening)
  {
  }

  lemma {:induction false} LogContentGrows(log: seq<Event>, e: Event)
    requires LogContent(log) && Accepts(log, e) && ReplyShaped(e)
    requires e.body.Checkpointed? ==> StateContent(log, e.body.checkpoint)
    ensures LogContent(log + [e])
  {
    hide StateContent, ReplyShaped;
    var more := log + [e];
    forall k | 0 <= k < |more| && more[k].body.Checkpointed? ensures StateContent(more, more[k].body.checkpoint) {
      ContentStable(log, [e], more[k].body.checkpoint);
    }
    assert forall k :: 0 <= k < |log| ==> more[k] == log[k];
  }

  // -------------------------------------------------------- one event applied

  /** One captured event brings at most its own message, and never unsettles a pending tool. */
  lemma {:induction false} ApplyContent(log: seq<Event>, r: Recovered, e: Event, slot: EventId)
    requires StateContent(log, r.state) && GroupsInv(r.state) && Apply(r, e, slot).Some?
    requires 0 < e.position <= |log| && log[e.position - 1] == e
    ensures StateContent(log, Apply(r, e, slot).value.state)
    ensures |Apply(r, e, slot).value.state.groups| == |r.state.groups| + if e.body.UserMessage? then 1 else 0
  {
    hide Waiting, HasOutstanding, Sourced;
    var s, t := r.state, Apply(r, e, slot).value.state;
    if e.body.UserMessage? {
      MessagesMore(s.groups, t.groups[|s.groups|]);
      SourcedMore(log, s, t, t.groups[|s.groups|].messages, e);
    } else if e.body.ModelCompleted? && e.body.size > 0 {
      var m := Message(e.id, Assistant, e.body.toolCalls, None, e.body.size, true);
      MessagesReplaced(s.groups, t.groups[|s.groups| - 1], [m]);
      SourcedMore(log, s, t, [m], e);
    } else if e.body.ModelCompleted? {
      MessagesReplaced(s.groups, t.groups[|s.groups| - 1], []);
      SourcedMore(log, s, t, [], e);
    } else if e.body.ToolObserved? && !e.body.outcome.ToolUnknown? {
      var bytes := e.body.bytes.value;
      var m := Message(e.id, Tool, [], Some(s.tool.value.call), bytes.size, bytes.text);
      MessagesReplaced(s.groups, t.groups[|s.groups| - 1], [m]);
      SourcedMore(log, s, t, [m], e);
    } else {
      SourcedMore(log, s, t, [], e);
    }
  }

  lemma {:induction false} SourcedMore(log: seq<Event>, s: Checkpoint, t: Checkpoint, more: seq<Message>, e: Event)
    requires Sourced(log, s.groups, s.next) && Messages(t.groups) == Messages(s.groups) + more && t.next == s.next + 1
    requires e.position == s.next && 0 < e.position <= |log| && log[e.position - 1] == e
    requires forall m :: m in more ==> m.source == e.id
    ensures Sourced(log, t.groups, t.next)
  {
    forall m | m in Messages(t.groups) ensures IdBefore(log, m.source, t.next) {
      if m in Messages(s.groups) {
        IdBeforeStable(log, [], m.source, s.next, t.next);
        assert log + [] == log;
      }
    }
  }

  // -------------------------------------------------------- one process acts

  /** A state whose groups are those of another without some leading ones, and whose tool waits as before. */
  lemma {:induction false} ContentTrimmed(log: seq<Event>, s: Checkpoint, t: Checkpoint)
    requires StateContent(log, s) && s.next <= t.next && |t.groups| <= |s.groups|
    requires t.groups == s.groups[|s.groups| - |t.groups|..]
    requires t.tool.Some? ==> s.tool.Some? && t.groups == s.groups && t.tool.value.call == s.tool.value.call
    ensures StateContent(log, t)
  {
    hide Sourced, Waiting;
    SourcedStable(log, [], s.groups, t.groups, s.next, t.next);
    assert log + [] == log;
  }

  /** Actions that leave the exchanges, the tool and the position alone. */
  predicate Rests(a: Action) {
    || a.Open? || a.Crash? || a.Admit? || a.Plan? || a.QueueSave? || a.CommitSave? || a.QueueRequest?
    || a.CommitCapture?
    || a.RejectFence? || a.Send? || a.QueueReply? || a.QueueAbort? || a.NotAccepted? || a.CommitIntent? || a.RunTool?
    || a.ReplayTool? || a.Forget? || a.QueueOutcome? || a.CommitOutcome? || a.ReleaseOutcome?
  }

  lemma {:induction false} RestsKeeps(w: World, x: Instance, a: Action)
    requires InstanceEnabled(w, x, a) && Rests(a)
    ensures var t := Moved(w, x, a).state;
            t.groups == x.state.groups && t.tool == x.state.tool && t.next == x.state.next
    ensures a.Open? || a.Crash? || a.CommitSave? ==> Moved(w, x, a) == x
  {
    hide Publishable, Accepts, AcceptsSave, HasOutstanding, ReplyFits, Settle, Apply, Legible, Admits, LastComplete;
  }

  lemma {:induction false} TrimsKeeps(w: World, x: Instance, a: Action)
    requires InstInv(w.log, x) && InstanceEnabled(w, x, a)
    requires a.Evict? || a.QueueUser? || a.Revise? || a.AckIntent?
    ensures var s, t := x.state, Moved(w, x, a).state;
            && s.next <= t.next && |t.groups| <= |s.groups| && t.groups == s.groups[|s.groups| - |t.groups|..]
            && (t.tool.Some? ==> s.tool.Some? && t.groups == s.groups && t.tool.value.call == s.tool.value.call)
  {
    hide Publishable, HasOutstanding, RequestLogged, TailFits, DropsComplete, OutcomeFits, IntentLogged, OnlyLastOpen;
  }

  lemma {:induction false} SavedContent(log: seq<Event>, x: Instance)
    requires LogInv(log) && InstInv(log, x) && x.save.Some? && x.save.value in log
    ensures x.save.value.body == Checkpointed(Bump(x.state)) && |x.state.groups| <= MAX_GROUPS
  {
    hide InstInv, StateInv, GroupsSound;
    RetainedOwn(log, x);
    FoundAt(log, x.save.value);
    assert CheckpointInv(log, x.save.value);
  }

  /** What a retained event finds when it is applied. */
  lemma {:induction false} CaptureContent(log: seq<Event>, x: Instance)
    requires LogInv(log) && InstInv(log, x) && x.capture.Some? && x.capture.value.event in log
    ensures GroupsInv(x.state) && (x.capture.value.event.body.UserMessage? ==> |x.state.groups| < MAX_GROUPS)
    ensures var e := x.capture.value.event; 0 < e.position <= |log| && log[e.position - 1] == e
  {
    hide Publishable, GroupsInv, RequestLogged, TailFits, DropsComplete, ReplyFits;
    FoundAt(log, x.capture.value.event);
  }

  lemma {:induction false} AckCaptureContent(w: World, x: Instance)
    requires LogInv(w.log) && InstInv(w.log, x) && InstanceEnabled(w, x, AckCapture)
    requires StateContent(w.log, x.state) && |x.state.groups| <= MAX_GROUPS
    ensures StateContent(w.log, Moved(w, x, AckCapture).state) && |Moved(w, x, AckCapture).state.groups| <= MAX_GROUPS
  {
    hide Publishable, InstInv, LogInv, Apply, StateContent, GroupsInv;
    CaptureContent(w.log, x);
    ApplyContent(w.log, Recovered(x.state, x.phase), x.capture.value.event, w.issued);
  }

  lemma {:induction false} OutcomeContent(log: seq<Event>, x: Instance)
    requires LogInv(log) && InstInv(log, x) && x.phase.Ready? && x.state.tool.Some? && x.save.None? && x.capture.None?
    requires IntentLogged(log, x.state.tool.value) && OutcomeLogged(log, x.state.tool.value)
    ensures GroupsInv(x.state)
    ensures log[x.state.tool.value.outcomeAt - 1].position == x.state.tool.value.outcomeAt
    ensures log[x.state.tool.value.requestAt - 1].position == x.state.tool.value.requestAt
  {
    hide Publishable, GroupsInv, RequestLogged, TailFits, DropsComplete, CheckpointInv, OutcomeFits;
  }

  lemma {:induction false} AckOutcomeContent(w: World, x: Instance)
    requires LogInv(w.log) && InstInv(w.log, x) && InstanceEnabled(w, x, AckOutcome) && StateContent(w.log, x.state)
    ensures StateContent(w.log, Moved(w, x, AckOutcome).state)
    ensures |Moved(w, x, AckOutcome).state.groups| == |x.state.groups|
  {
    hide Publishable, InstInv, LogInv, StateContent, GroupsInv, ApplyToolOutcome;
    var t := x.state.tool.value;
    OutcomeContent(w.log, x);
    var r := Recovered(x.state, Ready);
    if x.state.next == t.requestAt {
      var e := w.log[t.requestAt - 1];
      ApplyContent(w.log, r, e, w.issued);
      r := Apply(r, e, w.issued).value;
      NextOnly(x.state, r.state);
    }
    ApplyContent(w.log, r, w.log[t.outcomeAt - 1], w.issued);
  }

  lemma {:induction false} NextOnly(s: Checkpoint, t: Checkpoint)
    requires GroupsInv(s) && t == s.(next := t.next)
    ensures GroupsInv(t)
  {
  }

  /** Whatever a process does, its content stays sound and its window bounded. */
  lemma {:induction false} MoverContent(w: World, x: Instance, a: Action, opening: bool)
    requires LogInv(w.log) && InstInv(w.log, x) && InstanceEnabled(w, x, a) && (opening ==> Opens(a))
    requires StateContent(w.log, x.state) && WindowInv(w.log, x, opening)
    ensures StateContent(w.log, Moved(w, x, a).state)
    ensures WindowInv(w.log, Moved(w, x, a), opening && !a.Open?)
  {
    hide Publishable, InstInv, LogInv, StateContent, Settle, Apply, HasOutstanding, ReplyFits, Accepts, AcceptsSave,
         Legible, Admits, LastComplete, IntentLogged, OutcomeLogged, SafeReplay, OpenObligations;
    if Rests(a) {
      RestsKeeps(w, x, a);
      ContentTrimmed(w.log, x.state, Moved(w, x, a).state);
    } else if a.Evict? || a.QueueUser? || a.Revise? || a.AckIntent? {
      TrimsKeeps(w, x, a);
      ContentTrimmed(w.log, x.state, Moved(w, x, a).state);
    } else if a.AckSave? {
      SavedContent(w.log, x);
      ContentTrimmed(w.log, x.state, Bump(x.state));
    } else if a.AckCapture? {
      AckCaptureContent(w, x);
    } else if a.AckOutcome? {
      AckOutcomeContent(w, x);
    } else if a.PlanTool? {
      PlannedContent(w.log, x.state, Moved(w, x, a).state);
    }
  }

  lemma {:induction false} PlannedContent(log: seq<Event>, s: Checkpoint, t: Checkpoint)
    requires StateContent(log, s) && t == s.(tool := t.tool) && t.tool.Some? && |s.groups| > 0
    requires Waiting(s.groups[|s.groups| - 1], t.tool.value.call)
    ensures StateContent(log, t)
  {
  }

  // --------------------------------------------------------------- one step

  lemma {:induction false} AppendedContent(w: World, x: Instance, a: Action)
    requires LogInv(w.log) && InstInv(w.log, x) && InstanceEnabled(w, x, a)
    requires LogContent(w.log) && StateContent(w.log, x.state)
    ensures LogContent(w.log + Appended(w, x, a))
  {
    hide Publishable, InstInv, LogInv, LogContent, StateContent, ReplyShaped, Settle, Apply, HasOutstanding, ReplyFits,
         Legible, Admits, LastComplete, IntentLogged, OutcomeLogged, SafeReplay, OpenObligations, Accepts;
    if a.CommitSave? {
      RetainedOwn(w.log, x);
      ContentTrimmed(w.log, x.state, Bump(x.state));
      NotReply(x.save.value);
      LogContentGrows(w.log, x.save.value);
    } else if a.CommitCapture? {
      CaptureShaped(w.log, x);
      LogContentGrows(w.log, x.capture.value.event);
    } else if a.CommitIntent? {
      NotReply(IntentEvent(x.state.tool.value));
      LogContentGrows(w.log, IntentEvent(x.state.tool.value));
    } else if a.CommitOutcome? {
      OutcomeShaped(w.log, x);
      LogContentGrows(w.log, x.toolCapture.value);
    } else {
      assert w.log + [] == w.log;
    }
  }

  lemma {:induction false} NotReply(e: Event)
    requires !e.body.ModelCompleted?
    ensures ReplyShaped(e)
  {
  }

  lemma {:induction false} CaptureShaped(log: seq<Event>, x: Instance)
    requires InstInv(log, x) && x.capture.Some?
    ensures ReplyShaped(x.capture.value.event) && !x.capture.value.event.body.Checkpointed?
  {
    hide Publishable, StateInv, TailFits, DropsComplete;
  }

  lemma {:induction false} OutcomeShaped(log: seq<Event>, x: Instance)
    requires InstInv(log, x) && x.toolCapture.Some?
    ensures ReplyShaped(x.toolCapture.value) && !x.toolCapture.value.body.Checkpointed?
  {
    hide Publishable, StateInv, TailFits, DropsComplete, CaptureFits;
  }

  /** What the replay of a tail finds at each of its events. */
  lemma {:induction false} TailContent(log: seq<Event>, slot: EventId)
    requires LogInv(log) && TailInv(log) && |log| > Head(log)
    ensures var cp := HeadState(log);
            var h := Head(log);
            var r := Recovered(cp, ResumePhase(cp));
            && GroupsInv(cp) && log[h].position == h + 1
            && (|log| == h + 2 ==>
                  && log[h + 1].position == h + 2 && !log[h].body.UserMessage? && !log[h + 1].body.UserMessage?
                  && (Apply(r, log[h], slot).Some? ==> GroupsInv(Apply(r, log[h], slot).value.state)))
  {
    hide Publishable, RequestLogged, HasOutstanding, OnlyLastOpen, ToolSlots;
    assert CheckpointInv(log, log[Head(log) - 1]);
  }

  lemma {:induction false} HeadWindow(log: seq<Event>)
    requires LogInv(log) && Head(log) > 0
    ensures |HeadState(log).groups| <= MAX_GROUPS
  {
    hide StateInv, GroupsSound;
    assert CheckpointInv(log, log[Head(log) - 1]);
  }

  lemma {:induction false} RecoverContent(log: seq<Event>, slot: EventId)
    requires LogInv(log) && TailInv(log) && LogContent(log) && Recover(log, slot).Some?
    ensures var t := Recover(log, slot).value.state;
            && StateContent(log, t)
            && |t.groups| == |HeadState(log).groups| + (if TailIsUser(log) then 1 else 0)
  {
    hide Publishable, LogInv, TailInv, Apply, Recover, StateContent, GroupsInv, UniqueIds, ReplyShaped;
    RecoverCases(log, slot);
    HeadFirst(log);
    var cp, h := HeadState(log), Head(log);
    var r := Recovered(cp, ResumePhase(cp));
    assert StateContent(log, cp);
    if |log| > h {
      TailContent(log, slot);
      ApplyContent(log, r, log[h], slot);
      if |log| > h + 1 {
        ApplyContent(log, Apply(r, log[h], slot).value, log[h + 1], slot);
      }
    }
  }

  lemma {:induction false} HeadFirst(log: seq<Event>)
    requires TailInv(log)
    ensures 0 < Head(log) <= |log| <= Head(log) + 2
  {
  }

  /** The uncheckpointed tail begins with a message of the user. */
  predicate TailIsUser(log: seq<Event>) {
    |log| > Head(log) && log[Head(log)].body.UserMessage?
  }

  lemma {:induction false} ResumedContent(log: seq<Event>, slot: EventId)
    requires LogInv(log) && TailInv(log) && LogContent(log) && Head(log) > 0 && Recover(log, slot).Some?
    ensures StateContent(log, Resumed(log, slot).state) && WindowInv(log, Resumed(log, slot), true)
  {
    hide Publishable, LogInv, TailInv, Recover, StateContent, LogContent;
    var r := Recover(log, slot).value;
    RecoverContent(log, slot);
    HeadWindow(log);
    HeadFirst(log);
    if r.phase.Planned? {
      PlannedTail(log, slot);
      ContentTrimmed(log, r.state, r.state.(model := None));
    } else if TailIsUser(log) {
      UserTail(log, slot);
    }
  }

  lemma {:induction false} PlannedTail(log: seq<Event>, slot: EventId)
    requires LogInv(log) && TailInv(log) && Recover(log, slot).Some? && Recover(log, slot).value.phase.Planned?
    ensures |log| == Head(log)
  {
    hide Publishable, RequestLogged, HasOutstanding, OnlyLastOpen, ToolSlots;
    RecoverCases(log, slot);
    assert CheckpointInv(log, log[Head(log) - 1]);
  }

  lemma {:induction false} UserTail(log: seq<Event>, slot: EventId)
    requires LogInv(log) && TailInv(log) && Recover(log, slot).Some? && TailIsUser(log)
    ensures PositionAvailable(Recover(log, slot).value.state)
  {
    hide Publishable, RequestLogged, HasOutstanding, OnlyLastOpen, ToolSlots;
    RecoverCases(log, slot);
    assert CheckpointInv(log, log[Head(log) - 1]);
  }

  lemma {:induction false} ActContent(w: World, step: Step)
    requires Inv(w) && ContentInv(w) && Enabled(w, step) && !step.action.Resume?
    ensures ContentInv(Do(w, step))
  {
    hide Publishable, InstInv, LogInv, LogContent, StateContent, WindowInv, InstanceEnabled, Moved, Appended;
    var v, x := Do(w, step), w.live[step.who];
    AppendedContent(w, x, step.action);
    MoverContent(w, x, step.action, step.who in w.opening);
    forall i | i in v.live ensures StateContent(v.log, v.live[i].state) && WindowInv(v.log, v.live[i], i in v.opening) {
      var y := if i == step.who then Moved(w, x, step.action) else w.live[i];
      ContentStable(w.log, Appended(w, x, step.action), y.state);
      WindowStable(w.log, Appended(w, x, step.action), y, i in v.opening);
    }
  }

  lemma {:induction false} ResumeContent(w: World, step: Step)
    requires Inv(w) && ContentInv(w) && Enabled(w, step) && step.action.Resume?
    ensures ContentInv(Do(w, step))
  {
    hide Publishable, InstInv, LogInv, TailInv, LogContent, StateContent, WindowInv, InstanceEnabled, Recover, Resumed;
    ResumedContent(w.log, w.issued);
  }

  lemma {:induction false} BeginContent(first: Checkpoint)
    requires FirstState(first)
    ensures ContentInv(Begin(first))
  {
  }

  /** In every world a legal run reaches. */
  lemma {:induction false} RunContentKeeps(first: Checkpoint, steps: seq<Step>)
    requires Legal(first, steps)
    ensures ContentInv(After(first, steps))
    decreases |steps|
  {
    hide Publishable, Inv, ContentInv, Do, Enabled;
    if |steps| == 0 {
      BeginContent(first);
    } else {
      var prior, last := steps[..|steps| - 1], steps[|steps| - 1];
      RunContentKeeps(first, prior);
      RunKeeps(first, prior);
      if last.action.Resume? {
        ResumeContent(After(first, prior), last);
      } else {
        ActContent(After(first, prior), last);
      }
    }
  }

  /**
    In every run a process holds at most 64 exchanges, with one exception: it is still opening, holds exactly 65,
    retains the checkpoint it resumed with, and that resume replayed a message over a checkpoint of 64.
   */
  lemma {:induction false} HotWindowExact(first: Checkpoint, steps: seq<Step>, i: nat)
    requires Legal(first, steps) && i in After(first, steps).live
    ensures var w := After(first, steps);
            |w.live[i].state.groups| <= MAX_GROUPS || (i in w.opening && Overfull(w.log, w.live[i]))
  {
    hide Legal, After, StateContent, LogContent, Overfull;
    RunContentKeeps(first, steps);
    assert WindowInv(After(first, steps).log, After(first, steps).live[i], i in After(first, steps).opening);
  }
}
