/** Recovery as a fact about runs: a crashed run can be opened again exactly when its log meets the condition. */
module RunRevival {
  import opened Wrappers
  import opened OwnedRun
  import opened Bounds
  import opened RunSteps
  import opened RunSafety
  import opened RunProofs
  import opened RunInvariant
  import opened RunContent
  import opened RunEffects
  import opened RunRecovery
  import opened RunLost

  lemma {:induction false} Extends(first: Checkpoint, steps: seq<Step>, step: Step)
    requires Legal(first, steps) && Enabled(After(first, steps), step)
    ensures Legal(first, steps + [step]) && After(first, steps + [step]) == Do(After(first, steps), step)
  {
    hide Enabled, Do;
    var more := steps + [step];
    assert more[..|more| - 1] == steps;
  }

  /** A process that is still opening takes one of the actions it may take. */
  lemma {:induction false} OpeningTakes(w: World, who: nat, a: Action)
    requires who in w.live && who in w.opening && Opens(a) && InstanceEnabled(w, w.live[who], a)
    ensures Enabled(w, Step(who, a))
  {
    hide InstanceEnabled;
  }

  /** Nothing is retained and all of it renders: the process opens. */
  lemma {:induction false} OpensNow(first: Checkpoint, steps: seq<Step>, who: nat)
    requires Legal(first, steps) && who in After(first, steps).live && who in After(first, steps).opening
    requires var x := After(first, steps).live[who]; x.save.None? && Legible(x.state)
    ensures var all := steps + [Step(who, Action.Open)];
            && Legal(first, all)
            && var v := After(first, all);
               who in v.live && who !in v.opening && v.live[who] == After(first, steps).live[who]
  {
    hide Legal, After, Enabled, Do, InstanceEnabled, Moved, Appended, Legible;
    var w, step := After(first, steps), Step(who, Action.Open);
    OpenEffect(w, w.live[who]);
    OpeningTakes(w, who, Action.Open);
    Extends(first, steps, step);
    OpeningDoes(w, step);
  }

  /** The retained checkpoint is published and acknowledged. */
  lemma {:induction false} Publishes(first: Checkpoint, steps: seq<Step>, who: nat)
    requires Legal(first, steps) && who in After(first, steps).live && who in After(first, steps).opening
    requires var w := After(first, steps);
             var x := w.live[who];
             && x.save.Some? && AcceptsSave(w.log, x.save.value) && x.save.value.body == Checkpointed(Bump(x.state))
    ensures var all := steps + [Step(who, CommitSave)] + [Step(who, AckSave)];
            && Legal(first, all)
            && var x, v := After(first, steps).live[who], After(first, all);
               && who in v.live && who in v.opening
               && v.live[who] == x.(state := Bump(x.state), receipt := x.save.value.position, save := None)
  {
    hide Legal, After, Enabled, Do, InstanceEnabled, Moved, Appended, AcceptsSave;
    var w, commit := After(first, steps), Step(who, CommitSave);
    var x := w.live[who];
    CommitEffect(w, x, CommitSave, x.save.value);
    OpeningTakes(w, who, CommitSave);
    Extends(first, steps, commit);
    OpeningDoes(w, commit);
    var v, ack := After(first, steps + [commit]), Step(who, AckSave);
    assert v.log == w.log + [x.save.value] && v.live[who] == x;
    assert v.log[|w.log|] == x.save.value;
    AckSaveEffect(v, x);
    OpeningTakes(v, who, AckSave);
    Extends(first, steps + [commit], ack);
    OpeningDoes(v, ack);
  }

  /** The process a resume of that log creates, with its checkpoint, if it needs one, acknowledged. */
  ghost predicate Restored(log: seq<Event>, issued: nat, x: Instance) {
    && Head(log) > 0 && Recover(log, issued).Some?
    && var y := Resumed(log, issued);
       && x.phase == y.phase
       && x.state == if y.save.Some? then Bump(y.state) else y.state
  }

  /** After `more`, process `who` is alive and past opening. */
  ghost predicate Reopened(first: Checkpoint, steps: seq<Step>, more: seq<Step>, who: nat) {
    && Legal(first, steps) && Legal(first, steps + more)
    && who in After(first, steps + more).live && who !in After(first, steps + more).opening
  }

  lemma {:induction false} ResumeEnabled(w: World, who: nat)
    requires Resumable(w) && who !in w.live
    ensures Enabled(w, Step(who, Resume))
  {
    hide Recover, Resumed, AcceptsSave, Legible;
  }

  lemma {:induction false} ResumableParts(w: World)
    requires Resumable(w)
    ensures Head(w.log) > 0 && Recover(w.log, w.issued).Some?
    ensures var x := Resumed(w.log, w.issued);
            Legible(x.state) && (x.save.Some? ==> AcceptsSave(w.log, x.save.value))
  {
    hide Recover, Resumed, AcceptsSave, Legible;
  }

  lemma {:induction false} ResumedSave(log: seq<Event>, issued: nat)
    requires Head(log) > 0 && Recover(log, issued).Some?
    ensures var x := Resumed(log, issued);
            x.save.Some? ==> x.save.value.body == Checkpointed(Bump(x.state))
  {
    hide Recover;
  }

  /**
    The condition is enough: whoever resumes such a run can publish, read everything back and open, as the process the
    log says, without a step of anybody else.
   */
  lemma {:induction false} RecoverableReopens(first: Checkpoint, steps: seq<Step>, who: nat) returns (more: seq<Step>)
    requires Legal(first, steps) && who !in After(first, steps).live && Recoverable(After(first, steps).log)
    ensures Reopened(first, steps, more, who) && forall k :: 0 <= k < |more| ==> more[k].who == who
    ensures var w := After(first, steps);
            Restored(w.log, w.issued, After(first, steps + more).live[who])
  {
    hide Legal, After, Enabled, Do, Recover, Resumed, Legible, AcceptsSave, Recoverable, Resumable;
    var w, resume := After(first, steps), Step(who, Resume);
    RecoveryExact(first, steps);
    ResumeEnabled(w, who);
    ResumableParts(w);
    Extends(first, steps, resume);
    ResumeDoes(w, who);
    ResumedSave(w.log, w.issued);
    var joined := steps + [resume];
    var x := Resumed(w.log, w.issued);
    if x.save.None? {
      OpensNow(first, joined, who);
      more := [resume, Step(who, Action.Open)];
      assert steps + more == joined + [Step(who, Action.Open)];
    } else {
      Publishes(first, joined, who);
      var saved := joined + [Step(who, CommitSave)] + [Step(who, AckSave)];
      LegibleSame(x.state, Bump(x.state));
      OpensNow(first, saved, who);
      more := [resume, Step(who, CommitSave), Step(who, AckSave), Step(who, Action.Open)];
      assert steps + more == saved + [Step(who, Action.Open)];
    }
  }

  /**
    Recovery of crashed runs, as an equivalence: with nobody alive, some continuation gets a process past opening
    exactly when the log meets the condition.
   */
  lemma {:induction false} RecoveryOfRuns(first: Checkpoint, steps: seq<Step>)
    requires Legal(first, steps) && After(first, steps).live == map[]
    ensures Recoverable(After(first, steps).log) <==> exists more, who :: Reopened(first, steps, more, who)
  {
    hide Legal, After, Recoverable, Inv, LogContent, StateContent, WindowInv, Doomed, Restored;
    if Recoverable(After(first, steps).log) {
      var more := RecoverableReopens(first, steps, 0);
      assert Reopened(first, steps, more, 0);
    } else {
      RunKeeps(first, steps);
      RunContentKeeps(first, steps);
      forall more, who ensures !Reopened(first, steps, more, who) {
        if Reopened(first, steps, more, who) {
          LostForever(first, steps, more);
          assert false;
        }
      }
    }
  }
}
