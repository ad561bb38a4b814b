/** The stage of bundle verification that decides whether a release's roadmap gates are proven. */
module ProofClosure {
  import opened Wrappers
  import opened Roadmap
  import opened BundleFiles

  datatype Profile = Contract | Release

  datatype Channel = Development | Alpha | Beta | Stable

  datatype Severity = Error | Warning

  datatype Issue = Issue(severity: Severity, code: string, context: string)

  datatype Gap = Gap(gate: string, blocking: bool)

  datatype LedgerMilestone = LedgerMilestone(passed: bool, dependsOn: seq<Id>, exits: seq<Id>, required: seq<Path>)

  datatype ExitProof = ExitProof(id: Id, passed: bool, evidence: seq<Reference>)

  datatype ProofMilestone = ProofMilestone(passed: bool, exits: seq<ExitProof>, proofs: seq<Reference>)

  /**
    A proof index and the ledger it cites, which met their schemas, in their bundle. `matches` says that version and
    stage agree, `revised` that the roadmap revision does.
   */
  datatype Closure = Closure(
    bundle: Bundle, channel: Channel, matches: bool, revised: bool, gaps: seq<Gap>, ledgerFile: Reference,
    ledger: map<Id, LedgerMilestone>, proof: map<Id, ProofMilestone>)

  function Dependencies(ledger: map<Id, LedgerMilestone>): Graph {
    map id | id in ledger :: ledger[id].dependsOn
  }

  // --------------------------------------------------- what must be true instead

  /** Some listed entry for the exit passed with evidence, and it is the first one for that exit. */
  predicate ExitProven(entries: seq<ExitProof>, exit: Id) {
    exists k :: 0 <= k < |entries| && FirstEntry(entries, exit, k) && entries[k].passed && entries[k].evidence != []
  }

  predicate FirstEntry(entries: seq<ExitProof>, exit: Id, k: int)
    requires 0 <= k < |entries|
  {
    entries[k].id == exit && forall j :: 0 <= j < k ==> entries[j].id != exit
  }

  /** Every required path, or every one of those that count, is among those supplied. */
  predicate Supplies(required: seq<Path>, supplied: seq<Reference>, allowed: Option<set<Path>>) {
    forall p :: p in required && (allowed.Some? ==> p in allowed.value) ==> p in Paths(supplied)
  }

  function Paths(refs: seq<Reference>): set<Path> {
    set r | r in refs :: r.path
  }

  /** Passed on both sides, every exit evidenced, every required proof supplied. */
  ghost predicate MilestoneProven(c: Closure, id: Id) {
    && id in c.ledger && c.ledger[id].passed
    && id in c.proof && c.proof[id].passed
    && (forall exit :: exit in c.ledger[id].exits ==> ExitProven(c.proof[id].exits, exit))
    && Supplies(c.ledger[id].required, c.proof[id].proofs, None)
  }

  predicate NoBlockingGap(gaps: seq<Gap>) {
    forall k :: 0 <= k < |gaps| ==> !gaps[k].blocking
  }

  /** The evidence of the first `n` exits, in order. */
  function Evidence(exits: seq<ExitProof>, n: nat): seq<Reference>
    requires n <= |exits|
  {
    if n == 0 then [] else Evidence(exits, n - 1) + exits[n - 1].evidence
  }

  /** The files a milestone's entry cites, in order. */
  function Citations(m: ProofMilestone): seq<Reference> {
    m.proofs + Evidence(m.exits, |m.exits|)
  }

  ghost predicate Cited(c: Closure, r: Reference) {
    r == c.ledgerFile || exists id :: id in c.proof && r in Citations(c.proof[id])
  }

  /** Nothing is claimed of an unknown milestone. */
  predicate IndexKnown(c: Closure) {
    forall id :: id in c.proof ==> id in c.ledger
  }

  /** Every file cited, the ledger too, is intact, under the one spelling and digest it has anywhere in the bundle. */
  ghost predicate FilesSound(c: Closure, seen: Seen) {
    && (forall r :: Cited(c, r) ==> Intact(c.bundle, r) && Fits(c.bundle, seen, r))
    && (forall r, q :: Cited(c, r) && Cited(c, q) ==> SameSpelling(c.bundle, r, q))
  }

  ghost predicate RoadmapSound(c: Closure) {
    !HasCycle(Dependencies(c.ledger)) && !HasDangling(Dependencies(c.ledger))
  }

  /** Everything the target depends on, directly or not, is proven, and the target too. */
  ghost predicate TargetProven(c: Closure, target: Id) {
    target in c.ledger && forall id :: Reaches(Dependencies(c.ledger), target, id) ==> MilestoneProven(c, id)
  }

  const ALPHA_PATHS: set<Path> := {"proof/M18/alpha-release.json", "proof/M18/benchmark-index.json"}

  /** An alpha needs all M18 depends on, but of M18 itself only its first exit and its alpha proofs. */
  ghost predicate AlphaProven(c: Closure) {
    && "M18" in c.ledger
    && (forall id :: Reaches(Dependencies(c.ledger), "M18", id) && id != "M18" ==> MilestoneProven(c, id))
    && "M18" in c.proof
    && ExitProven(c.proof["M18"].exits, "M18-E01")
    && Supplies(c.ledger["M18"].required, c.proof["M18"].proofs, Some(ALPHA_PATHS))
  }

  ghost predicate GatesProven(c: Closure) {
    match c.channel
    case Development => false
    case Alpha => AlphaProven(c)
    case Beta => TargetProven(c, "M18")
    case Stable => TargetProven(c, "M19")
  }

  // ------------------------------------------------------------------ the stage

  predicate NoErrors(issues: seq<Issue>) {
    forall k :: 0 <= k < |issues| ==> issues[k].severity.Warning?
  }

  /** Issues are only ever added, so an error is never forgotten. */
  lemma {:induction false} NoErrorsAppended(issues: seq<Issue>, i: Issue)
    ensures NoErrors(issues + [i]) <==> NoErrors(issues) && i.severity.Warning?
  {
    if NoErrors(issues + [i]) {
      assert (issues + [i])[|issues|] == i;
      forall k | 0 <= k < |issues|
        ensures issues[k].severity.Warning?
      {
        assert (issues + [i])[k] == issues[k];
      }
    }
  }

  class BundleVerifier {
    const profile: Profile
    var issues: seq<Issue>
    var unresolved: set<string>
    /** `path_spellings` and `expected_checksums`. */
    var seen: Seen

    constructor (p: Profile)
      ensures profile == p && issues == [] && unresolved == {} && seen == Seen(map[], map[])
    {
      profile, issues, unresolved, seen := p, [], {}, Seen(map[], map[]);
    }

    method Report(i: Issue)
      modifies `issues
      ensures issues == old(issues) + [i]
      ensures NoErrors(issues) <==> NoErrors(old(issues)) && i.severity.Warning?
    {
      NoErrorsAppended(issues, i);
      issues := issues + [i];
    }

    /** `gate_issue`: an error in the release profile only. */
    method GateIssue(code: string, context: string)
      modifies `issues
      ensures old(issues) <= issues
      ensures NoErrors(issues) <==> NoErrors(old(issues)) && profile.Contract?
    {
      Report(Issue(if profile.Release? then Error else Warning, code, context));
    }

    method Unresolved(code: string, gate: string)
      modifies `issues, `unresolved
      ensures old(issues) <= issues && unresolved == old(unresolved) + {gate}
      ensures NoErrors(issues) <==> NoErrors(old(issues)) && profile.Contract?
    {
      unresolved := unresolved + {gate};
      GateIssue(code, gate);
    }

    /** `_require_exit_passed`: looks up the first entry for the exit. */
    method RequireExit(exit: Id, entries: seq<ExitProof>)
      modifies `issues, `unresolved
      ensures old(issues) <= issues && old(unresolved) <= unresolved
      ensures NoErrors(issues) <==> NoErrors(old(issues)) && (profile.Contract? || ExitProven(entries, exit))
      ensures if ExitProven(entries, exit) then unresolved == old(unresolved) else exit in unresolved
    {
      var k := 0;
      while k < |entries| && entries[k].id != exit
        invariant k <= |entries| && forall j :: 0 <= j < k ==> entries[j].id != exit
      {
        k := k + 1;
      }
      if k == |entries| || !entries[k].passed || entries[k].evidence == [] {
        Unresolved("EXIT_GATE_NOT_PROVEN", exit);
      } else {
        assert FirstEntry(entries, exit, k);
      }
    }

    /** `_require_expected_proofs`, with the paths it is restricted to, if any. */
    method RequireProofs(id: Id, required: seq<Path>, supplied: seq<Reference>, allowed: Option<set<Path>>)
      modifies `issues, `unresolved
      ensures old(issues) <= issues && old(unresolved) <= unresolved
      ensures NoErrors(issues) <==>
                NoErrors(old(issues)) && (profile.Contract? || Supplies(required, supplied, allowed))
      ensures if Supplies(required, supplied, allowed) then unresolved == old(unresolved) else id in unresolved
    {
      var expected := set p | p in required && (allowed.Some? ==> p in allowed.value);
      var given := Paths(supplied);
      var missing := expected - given;
      if missing != {} {
        ghost var p :| p in missing;
        Unresolved("REQUIRED_PROOF_MISSING", id);
      } else {
        forall p | p in expected
          ensures p in given
        {
          assert p !in missing;
        }
      }
    }

    /** `_require_milestone_passed`. */
    method RequireMilestone(c: Closure, id: Id)
      requires id in c.ledger
      modifies `issues, `unresolved
      ensures old(issues) <= issues && old(unresolved) <= unresolved
      ensures NoErrors(issues) <==> NoErrors(old(issues)) && (profile.Contract? || MilestoneProven(c, id))
      ensures if MilestoneProven(c, id) then unresolved == old(unresolved) else unresolved != {}
    {
      hide ExitProven;
      var ledger := c.ledger[id];
      if !ledger.passed {
        Unresolved("LEDGER_MILESTONE_NOT_PASSED", id);
      }
      if id !in c.proof || !c.proof[id].passed {
        Unresolved("PROOF_MILESTONE_NOT_PASSED", id);
        return;
      }
      ghost var before := NoErrors(issues);
      for k := 0 to |ledger.exits|
        invariant old(issues) <= issues && old(unresolved) <= unresolved
        invariant NoErrors(issues) <==>
                    && before
                    && (profile.Contract? || forall j :: 0 <= j < k ==> ExitProven(c.proof[id].exits, ledger.exits[j]))
        invariant ledger.passed && (forall j :: 0 <= j < k ==> ExitProven(c.proof[id].exits, ledger.exits[j]))
                  ==> unresolved == old(unresolved)
        invariant !ledger.passed || (exists j :: 0 <= j < k && !ExitProven(c.proof[id].exits, ledger.exits[j]))
                  ==> unresolved != {}
      {
        RequireExit(ledger.exits[k], c.proof[id].exits);
      }
      RequireProofs(id, ledger.required, c.proof[id].proofs, None);
    }

    /** Every blocking known gap is a gate of its own. */
    method RequireNoGaps(gaps: seq<Gap>)
      modifies `issues, `unresolved
      ensures old(issues) <= issues && old(unresolved) <= unresolved
      ensures NoErrors(issues) <==> NoErrors(old(issues)) && (profile.Contract? || NoBlockingGap(gaps))
      ensures if NoBlockingGap(gaps) then unresolved == old(unresolved) else unresolved != {}
    {
      for k := 0 to |gaps|
        invariant old(issues) <= issues && old(unresolved) <= unresolved
        invariant NoErrors(issues) <==>
                    NoErrors(old(issues)) && (profile.Contract? || forall j :: 0 <= j < k ==> !gaps[j].blocking)
        invariant (forall j :: 0 <= j < k ==> !gaps[j].blocking) ==> unresolved == old(unresolved)
        invariant (exists j :: 0 <= j < k && gaps[j].blocking) ==> unresolved != {}
      {
        if gaps[k].blocking {
          Unresolved("BLOCKING_KNOWN_GAP", gaps[k].gate);
        }
      }
    }

    /** `register_path`: the first spelling stands. */
    method RegisterPath(b: Bundle, path: Path)
      modifies `issues, `seen
      ensures old(issues) <= issues
      ensures var folded := b.fold(path);
              var agrees := folded in old(seen).spellings ==> old(seen).spellings[folded] == path;
              && (NoErrors(issues) <==> NoErrors(old(issues)) && agrees)
              && seen == if agrees then old(seen).(spellings := old(seen).spellings[folded := path]) else old(seen)
    {
      var folded := b.fold(path);
      if folded in seen.spellings && seen.spellings[folded] != path {
        Report(Issue(Error, "PATH_CASE_COLLISION", path));
      } else {
        seen := seen.(spellings := seen.spellings[folded := path]);
      }
    }

    /** `verify_file`: whatever is wrong with a reference is an error in either profile. */
    method VerifyFile(b: Bundle, r: Reference) returns (found: bool)
      modifies `issues, `seen
      ensures old(issues) <= issues
      ensures found <==> Readable(b, r)
      ensures NoErrors(issues) <==> NoErrors(old(issues)) && Intact(b, r) && Fits(b, old(seen), r)
      ensures Intact(b, r) && Fits(b, old(seen), r) ==> seen == Saw(b, old(seen), r)
    {
      hide NoErrors, IsDigest;
      found := false;
      if !b.resolves(r.path) {
        Report(Issue(Error, "INVALID_FILE_REFERENCE", r.path));
        return;
      }
      RegisterPath(b, r.path);
      if !IsDigest(r.digest) {
        Report(Issue(Error, "INVALID_FILE_REFERENCE", r.path));
        return;
      }
      if r.path !in b.files {
        Report(Issue(Error, "MISSING_FILE", r.path));
        return;
      }
      if b.files[r.path].digest != r.digest {
        Report(Issue(Error, "DIGEST_MISMATCH", r.path));
      }
      if r.size.Some? && b.files[r.path].size != r.size.value {
        Report(Issue(Error, "SIZE_MISMATCH", r.path));
      }
      if r.path in seen.checksums && seen.checksums[r.path] != r.digest {
        Report(Issue(Error, "CONFLICTING_DIGEST", r.path));
      }
      seen := seen.(checksums := seen.checksums[r.path := r.digest]);
      found := true;
    }

    method VerifyFiles(b: Bundle, refs: seq<Reference>)
      modifies `issues, `seen
      ensures old(issues) <= issues
      ensures NoErrors(issues) <==> NoErrors(old(issues)) && AllClean(b, old(seen), refs)
      ensures AllClean(b, old(seen), refs) ==> seen == SawAll(b, old(seen), refs)
    {
      hide NoErrors, Intact, Fits, Saw, Readable;
      for k := 0 to |refs|
        invariant old(issues) <= issues
        invariant NoErrors(issues) <==> NoErrors(old(issues)) && AllClean(b, old(seen), refs[..k])
        invariant AllClean(b, old(seen), refs[..k]) ==> seen == SawAll(b, old(seen), refs[..k])
      {
        assert refs[..k + 1] == refs[..k] + [refs[k]];
        CleanMore(b, old(seen), refs[..k], refs[k]);
        var _ := VerifyFile(b, refs[k]);
      }
      assert refs[..|refs|] == refs;
    }

    method VerifyEntry(b: Bundle, m: ProofMilestone)
      modifies `issues, `seen
      ensures old(issues) <= issues
      ensures NoErrors(issues) <==> NoErrors(old(issues)) && AllClean(b, old(seen), Citations(m))
      ensures AllClean(b, old(seen), Citations(m)) ==> seen == SawAll(b, old(seen), Citations(m))
    {
      hide NoErrors, AllClean, SawAll;
      VerifyFiles(b, m.proofs);
      ghost var done := m.proofs;
      for k := 0 to |m.exits|
        invariant old(issues) <= issues && done == m.proofs + Evidence(m.exits, k)
        invariant NoErrors(issues) <==> NoErrors(old(issues)) && AllClean(b, old(seen), done)
        invariant AllClean(b, old(seen), done) ==> seen == SawAll(b, old(seen), done)
      {
        CleanJoined(b, old(seen), done, m.exits[k].evidence);
        VerifyFiles(b, m.exits[k].evidence);
        done := done + m.exits[k].evidence;
        assert done == m.proofs + Evidence(m.exits, k + 1);
      }
    }

    /**
      The proof index cites only known milestones and sound files. `cited` is what was checked: all that the known
      milestones cite.
     */
    method VerifyIndex(c: Closure) returns (ghost cited: seq<Reference>)
      modifies `issues, `seen
      ensures old(issues) <= issues
      ensures NoErrors(issues) <==> NoErrors(old(issues)) && IndexKnown(c) && AllClean(c.bundle, old(seen), cited)
      ensures forall r :: r in cited <==> exists id :: id in c.proof && id in c.ledger && r in Citations(c.proof[id])
    {
      hide NoErrors, AllClean, SawAll, Citations;
      var rest := c.proof.Keys;
      cited := [];
      assert AllClean(c.bundle, old(seen), cited) && seen == SawAll(c.bundle, old(seen), cited) by {
        NothingCited(c.bundle, seen);
      }
      while rest != {}
        invariant old(issues) <= issues && rest <= c.proof.Keys
        invariant NoErrors(issues) <==>
                    && NoErrors(old(issues)) && AllClean(c.bundle, old(seen), cited)
                    && (forall id :: id in c.proof.Keys - rest ==> id in c.ledger)
        invariant AllClean(c.bundle, old(seen), cited) ==> seen == SawAll(c.bundle, old(seen), cited)
        invariant forall r :: r in cited <==>
                                exists id :: id in c.proof.Keys - rest && id in c.ledger && r in Citations(c.proof[id])
      {
        var id :| id in rest;
        ghost var done := c.proof.Keys - rest;
        rest := rest - {id};
        assert c.proof.Keys - rest == done + {id};
        if id !in c.ledger {
          Report(Issue(Error, "UNKNOWN_PROOF_MILESTONE", id));
        } else {
          CleanJoined(c.bundle, old(seen), cited, Citations(c.proof[id]));
          VerifyEntry(c.bundle, c.proof[id]);
          cited := cited + Citations(c.proof[id]);
        }
      }
      assert c.proof.Keys - rest == c.proof.Keys;
    }

    method RequireAll(c: Closure, ids: set<Id>)
      requires ids <= c.ledger.Keys
      modifies `issues, `unresolved
      ensures old(issues) <= issues && old(unresolved) <= unresolved
      ensures NoErrors(issues) <==>
                NoErrors(old(issues)) && (profile.Contract? || forall id :: id in ids ==> MilestoneProven(c, id))
      ensures if forall id :: id in ids ==> MilestoneProven(c, id) then unresolved == old(unresolved)
                else unresolved != {}
    {
      hide MilestoneProven, NoErrors;
      var rest := ids;
      while rest != {}
        invariant old(issues) <= issues && rest <= ids && old(unresolved) <= unresolved
        invariant NoErrors(issues) <==>
                    && NoErrors(old(issues))
                    && (profile.Contract? || forall id :: id in ids - rest ==> MilestoneProven(c, id))
        invariant if forall id :: id in ids - rest ==> MilestoneProven(c, id) then unresolved == old(unresolved)
                    else unresolved != {}
      {
        var id :| id in rest;
        ghost var done := ids - rest;
        rest := rest - {id};
        assert ids - rest == done + {id};
        RequireMilestone(c, id);
      }
      assert ids - rest == ids;
    }

    /** The last part of `_verify_proof_closure`: everything the channel's target milestone depends on. */
    method RequireTarget(c: Closure)
      requires RoadmapSound(c) && !c.channel.Development?
      modifies `issues, `unresolved
      ensures old(issues) <= issues && old(unresolved) <= unresolved
      ensures NoErrors(issues) <==>
                NoErrors(old(issues)) && Target(c.channel) in c.ledger && (profile.Contract? || GatesProven(c))
      ensures Target(c.channel) in c.ledger ==> if GatesProven(c) then unresolved == old(unresolved)
                else unresolved != {}
    {
      NoEntryProvesNothing("M18-E01");
      hide MilestoneProven, NoErrors, ExitProven, Reaches, HasCycle, Supplies;
      var g := Dependencies(c.ledger);
      var target := Target(c.channel);
      var closure := DependencyClosure(g, target);
      if closure.None? {
        Report(Issue(Error, "INVALID_CONTRACT", target));
        return;
      }
      ReachesSelf(g, target);
      ClosureKnown(g, target, closure.value);
      var dependencies := closure.value - {target};
      RequireAll(c, dependencies);
      if c.channel.Alpha? {
        var entry := if "M18" in c.proof then c.proof["M18"] else ProofMilestone(false, [], []);
        RequireExit("M18-E01", entry.exits);
        RequireProofs("M18", c.ledger["M18"].required, entry.proofs, Some(ALPHA_PATHS));
      } else {
        RequireMilestone(c, target);
      }
    }

    /**
      `_verify_proof_closure` on schema-valid inputs: it adds no error exactly when every file cited, the ledger too,
      is sound, the roadmap is sound and has the channel's target, the index matches it, and, in the release profile,
      no gap blocks and every gate of the channel is proven. In either profile, what it leaves unresolved is empty
      exactly when no gap blocks and every gate is proven.
     */
    method VerifyProofClosure(c: Closure)
      modifies `issues, `unresolved, `seen
      ensures old(issues) <= issues
      ensures NoErrors(issues) <==> NoErrors(old(issues)) && StageClean(profile, c, old(seen))
      ensures old(unresolved) == {} && Readable(c.bundle, c.ledgerFile) && RoadmapSound(c) && !c.channel.Development?
              && Target(c.channel) in c.ledger
              ==> (unresolved == {} <==> NoBlockingGap(c.gaps) && GatesProven(c))
    {
      hide MilestoneProven, NoErrors, HasCycle, HasDangling, NoBlockingGap, FilesSound, GatesProven, AllClean, SawAll,
           Intact, Fits, Readable, Saw, IndexKnown;
      if !c.matches {
        Report(Issue(Error, "PROOF_VERSION", ""));
      }
      var found := VerifyFile(c.bundle, c.ledgerFile);
      LedgerFirst(c, old(seen));
      if !found {
        return;
      }
      if !c.revised {
        Report(Issue(Error, "LEDGER_REVISION", ""));
      }
      var sound := AssertAcyclic(Dependencies(c.ledger));
      if !sound {
        Report(Issue(Error, "LEDGER_DAG", ""));
        return;
      }
      RequireNoGaps(c.gaps);
      ghost var cited := VerifyIndex(c);
      if IndexKnown(c) {
        AllCited(c, old(seen), cited);
      }
      if c.channel.Development? {
        GateIssue("NO_RELEASE_STAGE", "");
        DevelopmentProvesNothing(c);
      } else {
        RequireTarget(c);
      }
    }

    /**
      `verify`, for the decision it ends with: other stages may add any issues before and after, and a bundle is
      ready only in the release profile with no error anywhere. `cited` is what the stages before have cited.
     */
    method Verify(earlier: seq<Issue>, cited: Seen, c: Closure, later: seq<Issue>)
      returns (ready: bool, contractValid: bool)
      requires issues == []
      modifies this
      ensures ready ==> profile.Release? && ReleaseProven(c, cited)
      ensures ready <==> profile.Release? && contractValid
      ensures profile.Release? ==> (ready <==> ReleaseProven(c, cited) && NoErrors(earlier) && NoErrors(later))
    {
      hide StageClean, ReleaseProven, NoErrors;
      issues, seen := issues + earlier, cited;
      assert issues == earlier;
      VerifyProofClosure(c);
      StageInRelease(c, cited);
      ghost var before := issues;
      issues := issues + later;
      NoErrorsJoined(before, later);
      contractValid := NoErrors(issues);
      ready := profile.Release? && contractValid;
    }
  }

  function Target(channel: Channel): Id {
    if channel.Alpha? || channel.Beta? then "M18" else "M19"
  }

  /** The stage adds no error: gates are errors in the release profile only, the rest in both. */
  ghost predicate StageClean(profile: Profile, c: Closure, seen: Seen) {
    && c.matches && c.revised && RoadmapSound(c) && IndexKnown(c) && FilesSound(c, seen)
    && (profile.Contract? || NoBlockingGap(c.gaps))
    && if c.channel.Development? then profile.Contract?
       else Target(c.channel) in c.ledger && (profile.Contract? || GatesProven(c))
  }

  lemma {:induction false} StageInRelease(c: Closure, seen: Seen)
    ensures StageClean(Release, c, seen) <==> ReleaseProven(c, seen)
  {
    hide HasCycle, HasDangling, MilestoneProven, FilesSound, IndexKnown;
  }

  lemma {:induction false} NothingCited(b: Bundle, seen: Seen)
    ensures AllClean(b, seen, []) && SawAll(b, seen, []) == seen
  {
  }

  /** The ledger is cited first. */
  lemma {:induction false} LedgerFirst(c: Closure, seen: Seen)
    ensures FilesSound(c, seen) ==> Intact(c.bundle, c.ledgerFile) && Fits(c.bundle, seen, c.ledgerFile)
    ensures Intact(c.bundle, c.ledgerFile) ==> Readable(c.bundle, c.ledgerFile)
  {
    hide Fits, Readable;
    assert Cited(c, c.ledgerFile);
  }

  /** Checked in any order after the ledger, the citations are clean exactly when all of them are sound. */
  lemma {:induction false} AllCited(c: Closure, seen: Seen, cited: seq<Reference>)
    requires IndexKnown(c)
    requires forall r :: r in cited <==> exists id :: id in c.proof && id in c.ledger && r in Citations(c.proof[id])
    ensures FilesSound(c, seen) <==>
              && Intact(c.bundle, c.ledgerFile) && Fits(c.bundle, seen, c.ledgerFile)
              && AllClean(c.bundle, Saw(c.bundle, seen, c.ledgerFile), cited)
  {
    hide Intact, Fits, Citations, SameSpelling, AllClean, SawAll, Saw;
    var refs := [c.ledgerFile] + cited;
    assert forall r :: r in refs <==> Cited(c, r);
    CleanIsSound(c.bundle, seen, refs);
    CleanJoined(c.bundle, seen, [c.ledgerFile], cited);
    assert [] + [c.ledgerFile] == [c.ledgerFile];
    CleanMore(c.bundle, seen, [], c.ledgerFile);
    NothingCited(c.bundle, seen);
  }

  lemma {:induction false} NoEntryProvesNothing(exit: Id)
    ensures !ExitProven([], exit)
  {
  }

  /** What a release-ready bundle has proven. */
  ghost predicate ReleaseProven(c: Closure, seen: Seen) {
    && c.matches && c.revised && RoadmapSound(c) && NoBlockingGap(c.gaps)
    && IndexKnown(c) && FilesSound(c, seen) && GatesProven(c)
  }

  lemma {:induction false} NoErrorsJoined(a: seq<Issue>, b: seq<Issue>)
    ensures NoErrors(a + b) <==> NoErrors(a) && NoErrors(b)
  {
    assert forall k :: 0 <= k < |a| ==> (a + b)[k] == a[k];
    assert forall k :: 0 <= k < |b| ==> (a + b)[|a| + k] == b[k];
    if NoErrors(a + b) {
      forall k | 0 <= k < |b|
        ensures b[k].severity.Warning?
      {
        assert (a + b)[|a| + k] == b[k];
      }
    }
  }

  lemma {:induction false} DevelopmentProvesNothing(c: Closure)
    requires c.channel.Development?
    ensures !GatesProven(c)
  {
  }

  /** What a known milestone of a sound roadmap reaches is known. */
  lemma {:induction false} ClosureKnown(g: Graph, target: Id, closure: set<Id>)
    requires target in g && !HasDangling(g) && forall x :: x in closure <==> Reaches(g, target, x)
    ensures closure <= g.Keys
  {
    forall x | x in closure
      ensures x in g
    {
      var p :| PathBetween(g, target, x, p);
      if |p| > 1 {
        assert Edge(g, p[|p| - 2], p[|p| - 2 + 1]);
        assert !Dangling(g, p[|p| - 2], x);
      }
    }
  }
}
