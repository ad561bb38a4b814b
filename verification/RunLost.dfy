/** Runs that can never be resumed: once the recovery condition fails, it fails in every continuation. */
module RunLost {
  import opened Wrappers
  import opened OwnedRun
  import opened Bounds
  import opened RunSteps
  import opened RunSafety
  import opened RunProofs
  import opened RunInvariant
  import opened RunContent
  import opened RunRecovery

  /** This process will never open: what it holds cannot be rendered, or its checkpoint is refused for good. */
  predicate Doomed(log: seq<Event>, x: Instance) {
    !Legible(x.state) || (x.save.Some? && x.save.value !in log && !AcceptsSave(log, x.save.value))
  }

  /** The condition fails, and nobody alive is past opening or ever will be. */
  ghost predicate Lost(w: World) {
    && Inv(w) && ContentInv(w)
    && !Recoverable(w.log)
    && forall i :: i in w.live ==> i in w.opening && Doomed(w.log, w.live[i])
  }

  lemma {:induction false} ResumedDoomed(w: World)
    requires Inv(w) && LogContent(w.log) && !Recoverable(w.log) && Head(w.log) > 0 && Recover(w.log, w.issued).Some?
    ensures Doomed(w.log, Resumed(w.log, w.issued))
  {
    hide Inv, Recoverable, Legible, LogContent, Recover, Publishable;
    RecoverableIs(w);
    FreshSave(w);
  }

  lemma {:induction false} FreshSave(w: World)
    requires Inv(w) && Head(w.log) > 0 && Recover(w.log, w.issued).Some?
    ensures var x := Resumed(w.log, w.issued);
            x.save.Some? ==> x.save.value !in w.log
  {
    hide InstInv, LogInv, TailInv, HoldersInv, SentInv, PermitsInv, RunsInv, Recover;
  }

  /** Once the position of a retained checkpoint is taken by something else, it is never accepted. */
  lemma {:induction false} DoomedLater(log: seq<Event>, e: Event, x: Instance, s: Checkpoint)
    requires LogInv(log + [e]) && InstInv(log, x) && Doomed(log, x)
    requires e.body == Checkpointed(Bump(s)) && !Legible(s)
    ensures Doomed(log + [e], x)
  {
    hide LogInv, InstInv, Legible, Publishable, Head;
    if Legible(x.state) {
      RetainedOwn(log, x);
      if x.save.value == e {
        LegibleSame(s, x.state);
      }
      PositionKept(log, e, x);
    }
  }

  lemma {:induction false} PositionKept(log: seq<Event>, e: Event, x: Instance)
    requires LogInv(log + [e]) && InstInv(log, x) && x.save.Some?
    ensures !Accepts(log + [e], x.save.value)
  {
    hide StateInv, StableInv, CheckpointInv;
    var p := x.save.value.position;
    assert (log + [e])[p - 1].position == p;
  }

  lemma {:induction false} LiveHolds(w: World, i: nat)
    requires Inv(w) && i in w.live
    ensures LogInv(w.log) && InstInv(w.log, w.live[i])
  {
  }

  /** A checkpoint that cannot be rendered is no basis for a resume. */
  lemma {:induction false} IllegibleHead(log: seq<Event>, e: Event, s: Checkpoint)
    requires e.body == Checkpointed(Bump(s)) && !Legible(s)
    ensures !Recoverable(log + [e])
  {
    hide Legible;
    HeadIs(log + [e], |log| + 1);
    LegibleSame(s, Bump(s));
  }

  lemma {:induction false} CommitLost(w: World, x: Instance)
    requires Lost(w) && InstInv(w.log, x) && Doomed(w.log, x) && x.save.Some? && AcceptsSave(w.log, x.save.value)
    ensures !Recoverable(w.log + [x.save.value]) && !Legible(x.state)
    ensures forall i :: i in w.live ==> Doomed(w.log + [x.save.value], w.live[i])
  {
    hide InstInv, LogInv, LogContent, StateContent, WindowInv, Publishable, Legible, Recoverable, AcceptsSave, Accepts,
         HoldersInv, SentInv, PermitsInv, RunsInv;
    var e := x.save.value;
    RetainedOwn(w.log, x);
    CommitSaveKeeps(w.log, x);
    IllegibleHead(w.log, e, x.state);
    forall i | i in w.live ensures Doomed(w.log + [e], w.live[i]) {
      DoomedLater(w.log, e, w.live[i], x.state);
    }
  }

  lemma {:induction false} AckLost(w: World, x: Instance)
    requires LogInv(w.log) && InstInv(w.log, x) && Doomed(w.log, x) && InstanceEnabled(w, x, AckSave)
    ensures Doomed(w.log, Moved(w, x, AckSave))
  {
    hide InstInv, LogInv, Legible, AcceptsSave;
    RetainedOwn(w.log, x);
    LegibleSame(x.state, Bump(x.state));
  }

  // --------------------------------------------------------------- one step more

  lemma {:induction false} ResumeDoes(w: World, who: nat)
    requires Enabled(w, Step(who, Resume))
    ensures Head(w.log) > 0 && Recover(w.log, w.issued).Some?
    ensures var v := Do(w, Step(who, Resume));
            && v.log == w.log && v.live == w.live[who := Resumed(w.log, w.issued)] && v.opening == w.opening + {who}
  {
    hide Recover, Resumed, InstanceEnabled, Moved, Appended, Admitted;
  }

  lemma {:induction false} OpeningDoes(w: World, step: Step)
    requires Enabled(w, step) && !step.action.Resume? && step.who in w.opening
    ensures step.who in w.live && Opens(step.action) && InstanceEnabled(w, w.live[step.who], step.action)
    ensures var x, v := w.live[step.who], Do(w, step);
            && v.log == w.log + Appended(w, x, step.action)
            && v.live == (if step.action.Crash? then w.live - {step.who}
                          else w.live[step.who := Moved(w, x, step.action)])
            && v.opening == (if step.action.Open? || step.action.Crash? then w.opening - {step.who} else w.opening)
  {
    hide InstanceEnabled, Moved, Appended, Admitted;
  }

  /** While it opens a process appends its own checkpoint or nothing, and changes only by acknowledging it. */
  lemma {:induction false} OpensSame(w: World, x: Instance, a: Action)
    requires InstanceEnabled(w, x, a) && Opens(a)
    ensures Appended(w, x, a) == if a.CommitSave? then [x.save.value] else []
    ensures !a.AckSave? ==> Moved(w, x, a) == x
    ensures a.CommitSave? ==> x.save.Some? && AcceptsSave(w.log, x.save.value)
    ensures a.Open? ==> x.save.None? && Legible(x.state)
  {
    hide Legible, AcceptsSave;
  }

  lemma {:induction false} LostResume(w: World, who: nat)
    requires Lost(w) && Enabled(w, Step(who, Resume))
    requires Inv(Do(w, Step(who, Resume))) && ContentInv(Do(w, Step(who, Resume)))
    ensures Lost(Do(w, Step(who, Resume))) && Do(w, Step(who, Resume)).log == w.log
  {
    hide Inv, ContentInv, Do, Enabled, Resumed, Recover, Doomed, Recoverable;
    ContentLog(w);
    ResumeDoes(w, who);
    ResumedDoomed(w);
  }

  lemma {:induction false} LostCommit(w: World, step: Step)
    requires Lost(w) && Enabled(w, step) && step.action.CommitSave? && Inv(Do(w, step)) && ContentInv(Do(w, step))
    ensures Lost(Do(w, step)) && !Legible(w.live[step.who].state)
  {
    hide Inv, ContentInv, Do, Enabled, InstanceEnabled, Moved, Appended, Doomed, Recoverable, InstInv, LogInv, Legible,
         AcceptsSave;
    LiveThere(w, step);
    OpeningDoes(w, step);
    var x := w.live[step.who];
    OpensSame(w, x, step.action);
    LiveHolds(w, step.who);
    CommitLost(w, x);
  }

  lemma {:induction false} LostQuiet(w: World, step: Step)
    requires Lost(w) && Enabled(w, step) && !step.action.CommitSave? && !step.action.Resume?
    requires Inv(Do(w, step)) && ContentInv(Do(w, step))
    ensures Lost(Do(w, step)) && Do(w, step).log == w.log
  {
    hide Inv, ContentInv, Do, Enabled, InstanceEnabled, Moved, Appended, Doomed, Recoverable, InstInv, LogInv, Legible,
         AcceptsSave;
    LiveThere(w, step);
    OpeningDoes(w, step);
    var x := w.live[step.who];
    OpensSame(w, x, step.action);
    LiveHolds(w, step.who);
    assert w.log + [] == w.log;
    if step.action.AckSave? {
      AckLost(w, x);
    } else if step.action.Open? {
      DoomedNeverOpens(w.log, x);
    }
  }

  lemma {:induction false} LiveThere(w: World, step: Step)
    requires Lost(w) && Enabled(w, step) && !step.action.Resume?
    ensures step.who in w.live && step.who in w.opening
  {
    hide Inv, ContentInv, InstanceEnabled, Doomed, Recoverable;
  }

  /** A lost run stays lost: no step of any process opens one or makes the log recoverable. */
  lemma {:induction false} LostStays(w: World, step: Step)
    requires Lost(w) && Enabled(w, step) && Inv(Do(w, step)) && ContentInv(Do(w, step))
    ensures Lost(Do(w, step))
    ensures Do(w, step).log == w.log || (step.action.CommitSave? && !Legible(w.live[step.who].state))
  {
    hide Inv, ContentInv, Do, Enabled, Lost, Legible;
    if step.action.Resume? {
      LostResume(w, step.who);
    } else if step.action.CommitSave? {
      LostCommit(w, step);
    } else {
      LostQuiet(w, step);
    }
  }

  lemma {:induction false} ContentLog(w: World)
    requires ContentInv(w)
    ensures LogContent(w.log)
  {
  }

  lemma {:induction false} DoomedNeverOpens(log: seq<Event>, x: Instance)
    requires Doomed(log, x)
    ensures !(x.save.None? && Legible(x.state))
  {
    hide Legible, AcceptsSave;
  }

  /**
    In every continuation of a lost run nobody gets past opening, and only checkpoints that cannot be rendered are
    added.
   */
  lemma {:induction false} LostForever(first: Checkpoint, steps: seq<Step>, more: seq<Step>)
    requires Legal(first, steps) && Legal(first, steps + more) && Lost(After(first, steps))
    ensures Lost(After(first, steps + more))
    decreases |more|
  {
    hide Lost, Do, Enabled, Inv, ContentInv, Legible;
    if |more| == 0 {
      assert steps + more == steps;
    } else {
      var all := steps + more;
      var prior := more[..|more| - 1];
      assert all[..|all| - 1] == steps + prior;
      LostForever(first, steps, prior);
      RunKeeps(first, all);
      RunContentKeeps(first, all);
      LostStays(After(first, steps + prior), all[|all| - 1]);
    }
  }

  // ---------------------------------------------------- lost, and the log final

  /** Nothing illegible is involved: what failed is a size, the room, a repeated call or the length. */
  ghost predicate Sealed(w: World) {
    && Lost(w)
    && 0 < Head(w.log) < |w.log| && Legible(HeadState(w.log)) && OutputText(w.log[|w.log| - 1])
    && forall i :: i in w.live ==> Legible(w.live[i].state)
  }

  lemma {:induction false} ResumedLegible(w: World)
    requires Inv(w) && LogContent(w.log) && 0 < Head(w.log) < |w.log| && Recover(w.log, w.issued).Some?
    requires Legible(HeadState(w.log)) && OutputText(w.log[|w.log| - 1])
    ensures Legible(Resumed(w.log, w.issued).state)
  {
    hide InstInv, LogInv, TailInv, HoldersInv, SentInv, PermitsInv, RunsInv, LogIssued, Recover, Legible, LogContent,
         BeforeLast, Apply, Situated, Due, OutputText;
    var r, e := BeforeLast(w.log, w.issued), w.log[|w.log| - 1];
    LastSituated(w.log, w.issued);
    SituatedGroups(r.state, e);
    DueText(r, e, w.issued);
    LegibleSame(HeadState(w.log), r.state);
    LegibleSame(Recover(w.log, w.issued).value.state, Resumed(w.log, w.issued).state);
  }

  lemma {:induction false} SealedResume(w: World, who: nat)
    requires Sealed(w) && Enabled(w, Step(who, Resume)) && Lost(Do(w, Step(who, Resume)))
    ensures Sealed(Do(w, Step(who, Resume)))
  {
    hide Inv, ContentInv, Do, Enabled, Resumed, Recover, Doomed, Recoverable, Legible, OutputText;
    ContentLog(w);
    ResumeDoes(w, who);
    ResumedLegible(w);
  }

  lemma {:induction false} SealedOpening(w: World, step: Step)
    requires Sealed(w) && Enabled(w, step) && !step.action.Resume? && Lost(Do(w, step)) && Do(w, step).log == w.log
    ensures Sealed(Do(w, step))
  {
    hide Inv, ContentInv, Do, Enabled, InstanceEnabled, Moved, Appended, Doomed, Recoverable, Legible, OutputText,
         AcceptsSave, InstInv, LogInv;
    LiveThere(w, step);
    OpeningDoes(w, step);
    var x := w.live[step.who];
    OpensSame(w, x, step.action);
    if step.action.AckSave? {
      LiveHolds(w, step.who);
      AckSame(w, x);
    }
  }

  lemma {:induction false} SealedStays(w: World, step: Step)
    requires Sealed(w) && Enabled(w, step) && Lost(Do(w, step))
    requires Do(w, step).log == w.log || (step.action.CommitSave? && !Legible(w.live[step.who].state))
    ensures Sealed(Do(w, step)) && Do(w, step).log == w.log
  {
    hide Inv, ContentInv, Do, Enabled, Doomed, Recoverable, Legible, OutputText;
    if step.action.Resume? {
      ResumeDoes(w, step.who);
      SealedResume(w, step.who);
    } else {
      LiveThere(w, step);
      SealedOpening(w, step);
    }
  }

  lemma {:induction false} AckSame(w: World, x: Instance)
    requires InstInv(w.log, x) && InstanceEnabled(w, x, AckSave)
    ensures Legible(Moved(w, x, AckSave).state) <==> Legible(x.state)
  {
    hide InstInv, Legible;
    RetainedOwn(w.log, x);
    LegibleSame(x.state, Bump(x.state));
  }

  /** Then the log is final: no process can ever append to it again. */
  lemma {:induction false} SealedForever(first: Checkpoint, steps: seq<Step>, more: seq<Step>)
    requires Legal(first, steps) && Legal(first, steps + more) && Sealed(After(first, steps))
    ensures Sealed(After(first, steps + more)) && After(first, steps + more).log == After(first, steps).log
    decreases |more|
  {
    hide Lost, Do, Enabled, Inv, ContentInv, Legible, OutputText, Sealed;
    if |more| == 0 {
      assert steps + more == steps;
    } else {
      var all := steps + more;
      var prior := more[..|more| - 1];
      assert all[..|all| - 1] == steps + prior;
      SealedForever(first, steps, prior);
      SealedLost(After(first, steps + prior));
      RunKeeps(first, all);
      RunContentKeeps(first, all);
      LostStays(After(first, steps + prior), all[|all| - 1]);
      SealedStays(After(first, steps + prior), all[|all| - 1]);
    }
  }

  lemma {:induction false} SealedLost(w: World)
    requires Sealed(w)
    ensures Lost(w)
  {
  }
}
