# Verified models of ContextDB's owned runtime and release tools

A Dafny model of the parts of ContextDB where a mistake is hard to see and expensive to make:

- **The owned agent run.** A run is a log of captured events and checkpoints kept by a native owner, and any number
  of processes that each believe they own it. `OwnedRun` holds the durable vocabulary and what one captured event does
  to a checkpoint; `Bounds` what `validate` requires of a checkpoint, how long its encoding is, and whether its
  originals can be rendered. `RunSteps` makes the runtime a transition system: every durable write, every remote call
  and every change of volatile state is one action, acknowledgements may be lost, a process may crash between any two
  actions, and a new process may resume while an older one is still alive. `RunSafety`, `RunProofs` and `RunInvariant`
  state and prove what every step keeps, and `RunContent` what it keeps about the content of the window; `RunTheorems`,
  `RunFence`, `RunRecovery`, `RunLost` and `RunRevival` say what follows for whole runs. `RunScript` and `RunStages`
  build concrete runs from the stages of an exchange, for the witnesses in `RunWedge`.
- **The runtime object.** `AgentRuntime` is the class its host calls, with the fields and the methods of the original.
  Each method records what it does as actions of the transition system (`RunEffects` says when each action is enabled
  and what it changes), and `Valid()` says that the object is one process of a legal run exactly as the run sees it.
  So what is proved of every legal run holds of every use of the class, and the methods' own contracts say what a
  caller may rely on.
- **Residency and economy.** `Rolling` (eviction and rotation), `Obligations`, `Economy` (usage, exact prices,
  measured-cache hysteresis) and `Telemetry` (the measurement ring and the chunked prefix floor).
- **The release verifier.** `Roadmap` (dependency closure and cycle detection), `BundleFiles` (cited files, their
  spellings and their digests), `ProofClosure` (the fail-closed release decision), `ArchivePaths` (path collisions) and
  `SemVer` (version precedence).
- **Small algorithms.** `DependencyListing` (a depth-annotated listing read back into a graph), `Sha256` and `Dataset`
  (the benchmark's digest and its generated records).

Four properties that the code suggests turn out to be false of it; each has a witness and the exact condition:

- *A crashed run can always be resumed.* What a process captures becomes durable before the checkpoint that follows it,
  and that checkpoint, or the rendering after it, may be refused for good. `RunRecovery.RecoveryExact` gives the
  condition, read from the log: what the last checkpoint holds can be rendered, and the last event after it fits. It can
  be rendered if every message and open obligation is text and no open obligation's name has a control character. The
  event fits if a reply is at most 1 MiB and a settled tool result has 1 byte to 1 MiB, if that result is text, if the
  checkpoint has room for one more exchange or message and does not hold a call of the same name, and if the encoding
  stays within 256 KiB. `RunWedge` reaches runs that fail it: a message captured over a full window, a reply over 1 MiB,
  a tool result without bytes, one that is not text, an obligation under a name with a control character, a reply that
  repeats a call of an exchange evicted in memory only, and a checkpoint whose encoding is full.
  `RunRevival.RecoveryOfRuns` makes it an equivalence about runs: a run with nobody alive has a continuation in which a
  process gets past opening if and only if its log meets the condition. `RunLost.LostForever` says that a run whose
  condition fails, with nobody past opening, never gets anybody past opening again; unless the failure is one of
  rendering, its log is final as well (`RunLost.SealedForever`).
- *A process never holds more than 64 exchanges.* `RunContent.HotWindowExact` gives the one exception: a process that
  is still opening, resumed over a message captured with 64 exchanges checkpointed. It holds exactly 65, still retains
  the checkpoint of its resume, and `RunWedge.OverfullReached` reaches it. No object that `resume` returns is ever in
  that state.
- *Every captured reply or tool result can be applied.* `RunRecovery.DueApplies` says that an expected event is refused
  on replay for its size and for nothing else, and the two witnesses above are such events.
- *Two versions cannot be upgrades of each other.* With leading zeros in numeric prerelease identifiers they can:
  `SemVer.LeadingZeroCycles`. `SemVer.MutualUpgradeExact` and `SemVer.AntisymmetryExact` say exactly when.

Recovery reads at most 64 uncheckpointed events and refuses a longer tail; `RunTheorems.LogIsContiguous` shows that the
tail never holds more than two.

Environment answers that the original gets from elsewhere are nondeterministic choices in the methods of
`AgentRuntime`: whether the owner is reached, whether an acknowledgement arrives, what the fence, the reader and the
tool's target answer. Fresh identities are a counter. `Interleave` is the point where other processes
may act: its contract allows any legal steps of theirs, and nothing after it relies on more.

## Model

| member | source | states |
|---|---|---|
| RunTheorems.DispatchedAtMostOnce | crates/contextdb-agent-runtime/src/runtime.rs:691-723 | in every run, with crashes, overlapping processes and lost acknowledgements, no model call leaves the machine twice, and each one that leaves was captured first, right after the checkpoint that planned it, with the same call, digest and length |
| RunTheorems.OrphanNeverDispatched | crates/contextdb-agent-runtime/src/runtime.rs:264-283 | once no living process holds a call, it is never sent afterwards by anyone in any continuation of the run |
| RunTheorems.ExecutedAtMostOnce | crates/contextdb-capture/src/tool.rs:188-326 | in every run a tool intent is durable before it runs and runs once, unless the target itself deduplicates or its version still matches |
| RunTheorems.LogIsContiguous | crates/contextdb-native-service/src/owned.rs:192-277 | producer positions never have a gap, and at most two events ever follow the last checkpoint |
| RunTheorems.TerminalStep | crates/contextdb-native-service/src/owned.rs:346-356 | no step of any process appends to a terminal run |
| RunTheorems.TerminalIsFinal | crates/contextdb-native-service/src/owned.rs:346-356 | a terminal run never becomes active again: its log is final in every continuation |
| RunInvariant.StepKeeps | crates/contextdb-agent-runtime/src/runtime.rs:526-797 | every enabled action of every process keeps the invariant of the log, of each process and of what was sent and run |
| RunInvariant.RunKeeps | crates/contextdb-agent-runtime/src/runtime.rs:231-797 | so it holds in every world a legal run reaches |
| RunInvariant.ResumeHoldsNothing | crates/contextdb-agent-runtime/src/runtime.rs:264-283 | a resumed process never holds a call it could still send |
| RunInvariant.SenderBacked | crates/contextdb-agent-runtime/src/runtime.rs:657-693 | a process about to send has its exact request in the log, under the checkpoint it runs on |
| RunInvariant.CommitSaveKeeps | crates/contextdb-native-service/src/owned.rs:357-363 | a checkpoint accepted by compare-and-swap keeps the log sound, although its author may be an old process |
| RunInvariant.CommitCaptureKeeps | crates/contextdb-native-service/src/capture.rs:391-424 | a captured event accepted at a free position keeps the log sound |
| RunProofs.ApplySound | crates/contextdb-agent-runtime/src/runtime/persistence.rs:104-233 | applying a captured conversation event to a sound state gives a sound state |
| RunProofs.RecoverCases | crates/contextdb-agent-runtime/src/runtime.rs:238-276 | the tail replays as no event, one event or a request and its result, and nothing else |
| RunProofs.ResumeKeeps | crates/contextdb-agent-runtime/src/runtime.rs:231-291 | the process a resume builds satisfies the invariant of every process |
| RunFence.DispatchFenced | crates/contextdb-agent-runtime/src/runtime.rs:691-717 | in every run, each call that left the machine was accepted by its fence for that call and that captured request, by the same process in the same state, with nothing retained and no action of its own in between |
| RunFence.FencedByOwner | crates/contextdb-native-service/src/lease/dispatch.rs:38-61 | where the owner's fence is used, the sender's checkpoint was the head of an active run at that moment and its request the very next event, with the call, digest and length that were sent: a process that had been overtaken when it asked never sends |
| RunContent.RunContentKeeps | crates/contextdb-continuity/src/owned.rs:207-253 | in every run identities are logged once, every resident message comes from an earlier event of its own, and a pending tool waits for its result |
| RunContent.HotWindowExact | crates/contextdb-agent-runtime/src/runtime.rs:317-351 | in every run every live process holds at most 64 exchanges, unless it is still opening, holds exactly 65, retains the checkpoint of its resume, and resumed from 64 over a user message |
| Bounds.UnansweredWaits | crates/contextdb-continuity/src/owned.rs:219-257 | the set of outstanding calls that validation runs through an exchange is exactly the calls proposed there without a result |
| RunRecovery.RecoveryExact | crates/contextdb-agent-runtime/src/runtime.rs:231-291 | in every run, resuming completes if and only if what the last checkpoint holds can be rendered, names of open obligations included, and the last event after it fits in size, text, room, call identities and encoded length |
| RunRecovery.DueApplies | crates/contextdb-agent-runtime/src/runtime/persistence.rs:104-233 | an expected event is refused for its size and for nothing else |
| RunRecovery.DueRoom | crates/contextdb-continuity/src/owned.rs:180-300 | whether the state after an expected event meets the whole bounded profile is decided by the room and the call identities in the state before it |
| RunRecovery.DueWidth | crates/contextdb-native-service/src/owned.rs:75-80 | how long the encoding of the checkpoint after an expected event is, computed from the checkpoint before it |
| RunRecovery.DueText | crates/contextdb-agent-runtime/src/rolling.rs:60-132 | the state after an expected event can be rendered if and only if the one before it can and the event brings text |
| RunRecovery.SaveAccepted | crates/contextdb-native-service/src/owned.rs:64-80 | a checkpoint retained by an up-to-date process is accepted if and only if it meets the bounded profile, its encoding fits 256 KiB and the source of every open obligation can be read |
| RunRevival.RecoverableReopens | crates/contextdb-agent-runtime/src/runtime.rs:231-291 | from every run whose log meets the condition, whoever resumes can publish, acknowledge and open with no step of anybody else, and is then the process the log says |
| RunRevival.RecoveryOfRuns | crates/contextdb-agent-runtime/src/runtime.rs:231-291 | a run with nobody alive has a continuation with a process past opening if and only if its log meets the condition |
| RunRecovery.PublishedRecovers | crates/contextdb-agent-runtime/src/runtime.rs:231-291 | a resume whose checkpoint was ever published and whose state can be rendered was a resume of a recoverable log |
| RunLost.LostForever | crates/contextdb-agent-runtime/src/runtime.rs:231-291 | whatever the reason, once the recovery condition fails with nobody alive past opening, it fails in every continuation and nobody gets past opening |
| RunLost.SealedForever | crates/contextdb-native-service/src/owned.rs:60-80 | if nothing involved fails to be rendered, the log is then final in every continuation |
| RunRecovery.CrashLosesNothing | crates/contextdb-agent-runtime/src/runtime.rs:231-291 | for an up-to-date process that retains nothing, replaying the log gives back its state, with groups evicted since the checkpoint restored |
| RunRecovery.ResumesWhereItWas | crates/contextdb-agent-runtime/src/runtime.rs:231-291 | the same of every run: a boundary resumes unchanged, a captured request without a result resumes as unknown |
| RunRecovery.AdmissionExact | crates/contextdb-native-service/src/lease/dispatch.rs:38-61 | the owner's test of a captured call holds if and only if no later checkpoint has been published |
| RunRecovery.AdmittedWhileCurrent | crates/contextdb-native-service/src/lease/dispatch.rs:38-61 | the same of every process of every run |
| RunRecovery.UnknownExits | crates/contextdb-agent-runtime/src/runtime.rs:750-797 | an action that ends an unknown outcome is the durable reply to that request, or a denial bound to that wire with no output seen |
| RunRecovery.UnknownUntilReconciled | crates/contextdb-agent-runtime/src/runtime.rs:750-797 | the same of every step of every run |
| RunWedge.Filled | crates/contextdb-agent-runtime/src/runtime.rs:310-351 | a run without any fault reaches a window of any size up to 64 |
| RunWedge.FullWindowWedges | crates/contextdb-agent-runtime/src/runtime.rs:333-351 | a message captured over a full window, then a crash: active, not resumable, log final |
| RunWedge.OverfullReached | crates/contextdb-agent-runtime/src/runtime.rs:264-283 | a process that resumes such a run holds 65 exchanges and never opens |
| RunWedge.OversizeReplyWedges | crates/contextdb-agent-runtime/src/runtime/persistence.rs:280-291 | a captured reply of one byte over 1 MiB, then a crash: active, not resumable, log final |
| RunWedge.AbsentResultWedges | crates/contextdb-agent-runtime/src/runtime/tools.rs:316-325 | a tool result captured as completed without bytes, then a crash: active, not resumable, log final |
| RunWedge.IllegibleResultWedges | crates/contextdb-agent-runtime/src/rolling.rs:113-132 | a tool result captured with one byte that is not text, then a crash: active and not resumable, now or ever |
| RunWedge.ControlNameWedges | crates/contextdb-agent-runtime/src/rolling.rs:73-86 | an open obligation checkpointed under a name with a control character, then a crash: active and not resumable, now or ever, although nothing follows the checkpoint |
| RunWedge.RepeatedCallWedges | crates/contextdb-continuity/src/owned.rs:246-251 | a reply that repeats a call of an exchange that a validated policy evicted since the last checkpoint, then a crash: active, not resumable, log final |
| RunWedge.EncodingWedges | crates/contextdb-native-service/src/owned.rs:75-80 | under every first checkpoint within 389 bytes of the encoding limit, one captured byte of text, then a crash: active, not resumable, log final |
| AgentRuntime.NativeOwner.SentOnce | crates/contextdb-agent-runtime/src/runtime.rs:691-723 | whatever objects use one owner, no call is sent twice nor sent uncaptured |
| AgentRuntime.NativeOwner.SentFenced | crates/contextdb-agent-runtime/src/runtime.rs:691-717 | whatever objects use one owner, every call sent was accepted by its fence |
| AgentRuntime.NativeOwner.Window | crates/contextdb-agent-runtime/src/runtime.rs:317-351 | whatever objects use one owner, a process past opening holds at most 64 exchanges |
| AgentRuntime.ReplayTail | crates/contextdb-agent-runtime/src/runtime.rs:244-276 | the replay loop computes the recovery function, refusals included |
| AgentRuntime.OutstandingTools | crates/contextdb-agent-runtime/src/runtime/tools.rs:23-37 | true if and only if a call of the current exchange has no result |
| AgentRuntime.NextQueued | crates/contextdb-agent-runtime/src/runtime/tools.rs:41-92 | the call found is the first in protocol order without a result, as its captured proposal spells it out; it is found whenever that proposal decodes to the calls the checkpoint lists, and nothing is queued if and only if nothing is outstanding |
| AgentRuntime.Rehydrate | crates/contextdb-agent-runtime/src/rolling.rs:60-132 | succeeds if and only if every resident message and every open obligation is text and no open obligation's name has a control character |
| AgentRuntime.RepeatsCall | crates/contextdb-agent-runtime/src/runtime/model_output.rs:36-53 | true if and only if a proposed call repeats a resident one or another in the same reply |
| AgentRuntime.OwnedAgentRuntime.Rebuild | crates/contextdb-agent-runtime/src/runtime.rs:249-283 | the rebuilt object joins the run in exactly the resumed state: an uncaptured plan dropped, anything replayed to be checkpointed |
| AgentRuntime.OwnedAgentRuntime.Reopen | crates/contextdb-agent-runtime/src/runtime.rs:231-291 | an object comes back only from a log that met the recovery condition; it is the resumed process with its checkpoint acknowledged, holds at most 64 exchanges, all of them text, retains nothing, has reached no model or tool, and has an unknown outcome if and only if it has a pending call; when the owner answers and nobody else acts, one comes back if and only if the condition held |
| AgentRuntime.OwnedAgentRuntime.Open | crates/contextdb-agent-runtime/src/runtime.rs:277-291 | success means the checkpoint the resume called for is durable, everything renders, and the object is usable |
| AgentRuntime.OwnedAgentRuntime.SaveCheckpoint | crates/contextdb-agent-runtime/src/runtime/persistence.rs:235-277 | success advances exactly revision and position and that very state is in the log; failure keeps state and request for a retry |
| AgentRuntime.OwnedAgentRuntime.OfferCheckpoint | crates/contextdb-agent-runtime/src/runtime/persistence.rs:264-276 | the retained checkpoint itself is what is offered and adopted |
| AgentRuntime.OwnedAgentRuntime.FlushCapture | crates/contextdb-agent-runtime/src/runtime/persistence.rs:50-102 | success means the event is durable and applied; a model request leaves the process captured on its own wire and position; failure changes nothing |
| AgentRuntime.OwnedAgentRuntime.CaptureAndSave | crates/contextdb-agent-runtime/src/runtime.rs:347-350 | on success the state is the applied event's, checkpointed; otherwise something stays retained |
| AgentRuntime.OwnedAgentRuntime.AcceptUser | crates/contextdb-agent-runtime/src/runtime.rs:310-351 | refused, touching nothing, if and only if the boundary or the text is wrong; never for lack of an evictable group; on success the durable message is the one new open exchange and the window holds at most 64 |
| AgentRuntime.OwnedAgentRuntime.PrepareBounded | crates/contextdb-agent-runtime/src/runtime.rs:574-656 | however the bounded loop ends, the groups are the starting ones without exactly `removed` eligible leading groups, nothing else moved but positions, and attempts stay within the policy |
| AgentRuntime.OwnedAgentRuntime.Attempt | crates/contextdb-agent-runtime/src/runtime.rs:576-655 | one pass of the loop: it asks for another only on overflow, with something evicted and checkpointed, and never on the last |
| AgentRuntime.OwnedAgentRuntime.Prepare | crates/contextdb-agent-runtime/src/runtime.rs:564-690 | success leaves a captured request, the eligible groups gone and nothing else of the working state changed |
| AgentRuntime.TrimmedKeeps | crates/contextdb-agent-runtime/src/runtime.rs:574-656 | what the loop removes is complete, the open exchange survives, and so do the complete groups the policy keeps |
| AgentRuntime.OwnedAgentRuntime.RotateAndSave | crates/contextdb-agent-runtime/src/runtime.rs:576-593 | on success the state is unchanged if nothing left and otherwise checkpointed without what left; a failed recount keeps what had left |
| AgentRuntime.OwnedAgentRuntime.PlanCall | crates/contextdb-agent-runtime/src/runtime.rs:564-574 | the plan is checkpointed before anything else is known of the call |
| AgentRuntime.OwnedAgentRuntime.CaptureRequest | crates/contextdb-agent-runtime/src/runtime.rs:657-690 | refused, touching nothing, if and only if the reader's manifest differs from the planned call or the prepared wire; otherwise only a durable request leaves the process ready to send, and then on that wire at that position |
| AgentRuntime.OwnedAgentRuntime.PassFence | crates/contextdb-agent-runtime/src/runtime.rs:699-710 | acceptance is recorded for that call and request and changes nothing else; the owner's fence accepts only the head of the log with that request right after it; refusal touches nothing |
| AgentRuntime.OwnedAgentRuntime.DropCall | crates/contextdb-agent-runtime/src/runtime.rs:707-713 | a rejected fence and a denied call clear the pending call and nothing else, and return to a known boundary |
| AgentRuntime.OwnedAgentRuntime.Dispatch | crates/contextdb-agent-runtime/src/runtime.rs:714-747 | the call is sent first and once; everything after is persistence, and anything but a captured reply leaves the outcome unknown or something retained |
| AgentRuntime.OwnedAgentRuntime.TakeTurn | crates/contextdb-agent-runtime/src/runtime.rs:526-747 | `step`: refused, touching nothing, in doubt, with tools outstanding, on another reader, on one that cannot represent the resident protocol, or with no open exchange; otherwise at most one model call, accepted by the fence in the action just before, and no tool; success settles the call it sent, and the window is the old one without some eligible leading groups and with the reply in its open exchange |
| AgentRuntime.OwnedAgentRuntime.ReconcileModel | crates/contextdb-agent-runtime/src/runtime.rs:750-797 | never sends; only an answer for the same wire settles; a denial, only if no output was captured, clears the call and nothing else, and a completed one adds exactly the reply |
| AgentRuntime.OwnedAgentRuntime.CaptureReply | crates/contextdb-agent-runtime/src/runtime/model_output.rs:23-86 | a reply joins the open exchange, which is then complete if and only if no tool was proposed; a protocol the window or the reader cannot take is kept as partial output and stays an unknown outcome |
| AgentRuntime.OwnedAgentRuntime.CaptureInterruption | crates/contextdb-agent-runtime/src/runtime/model_output.rs:88-121 | on success the event with exactly that partial output is in the log, the pending call is marked with it and nothing else moved; the outcome stays unknown |
| AgentRuntime.TookAnswer | crates/contextdb-agent-runtime/src/runtime/persistence.rs:157-197 | applying a reply adds its message, or none when empty, and settles the call |
| AgentRuntime.OwnedAgentRuntime.RetryPersistence | crates/contextdb-agent-runtime/src/runtime.rs:354-374 | offers only what is retained, never reaches a model or a tool, and does nothing when nothing is retained |
| AgentRuntime.OwnedAgentRuntime.ExecuteNextTool | crates/contextdb-agent-runtime/src/runtime/tools.rs:112-208 | refused, touching nothing, off a boundary, without an outstanding call, where its captured proposal does not spell it out, for another operation, or for another call or action than the pending one; otherwise the target runs at most once and no model is called; on success the open exchange gained at most one message, the result of a call it was waiting for |
| AgentRuntime.OwnedAgentRuntime.PlanNextTool | crates/contextdb-agent-runtime/src/runtime/tools.rs:134-157 | the intent is checkpointed with the two positions right after the checkpoint reserved |
| AgentRuntime.OwnedAgentRuntime.OfferIntent | crates/contextdb-capture/src/tool.rs:226-227 | a newly accepted intent is durable and is this process's alone to run |
| AgentRuntime.OwnedAgentRuntime.CallTarget | crates/contextdb-capture/src/tool.rs:246-285 | a first run needs a newly accepted intent; a repeat needs an older one and grounds that make it safe |
| AgentRuntime.OwnedAgentRuntime.RunPlanned | crates/contextdb-capture/src/tool.rs:188-326 | at most one execution from intent to settled outcome; success applied the intent alone or exactly its outcome |
| AgentRuntime.OwnedAgentRuntime.CaptureOutcome | crates/contextdb-capture/src/tool.rs:297-325 | the observation is retained first, and on success settled on the state exactly |
| AgentRuntime.OwnedAgentRuntime.RetryTool | crates/contextdb-agent-runtime/src/runtime/tools.rs:210-234 | a retained outcome is captured and applied without calling the target |
| AgentRuntime.OwnedAgentRuntime.ApplyOutcome | crates/contextdb-agent-runtime/src/runtime/tools.rs:236-257 | a captured outcome is applied together with its intent and then checkpointed |
| RunEffects.SettledRoom | crates/contextdb-agent-runtime/src/runtime/tools.rs:266-328 | a known outcome adds its one message and frees the tool; an unknown one keeps the intent and reserves the position after the checkpoint, which is itself free |
| AgentRuntime.OwnedAgentRuntime.CloseObligation | crates/contextdb-agent-runtime/src/runtime.rs:419-445 | refused if and only if off a boundary or not closable; otherwise the first obligation of that identity is closed and only retention changes the rest |
| AgentRuntime.OwnedAgentRuntime.Finish | crates/contextdb-agent-runtime/src/runtime.rs:449-483 | refused if and only if off a boundary, not terminal, or completing with work open; otherwise nothing stays resident or open |
| AgentRuntime.OwnedAgentRuntime.SwitchReader | crates/contextdb-agent-runtime/src/runtime.rs:377-397 | refused, touching nothing, if and only if off a boundary, with an invalid reader or policy, or without tool results while a resident message proposes or answers a call; otherwise only the reader and the policy change |
| AgentRuntime.OwnedAgentRuntime.AddObligation | crates/contextdb-agent-runtime/src/runtime.rs:400-416 | refused, touching nothing, if and only if off a boundary or the state with it fails the bounded profile, which checks its name, its size, its scope, its identity and the limits; otherwise exactly the obligation is added |
| AgentRuntime.EndAdmissible | crates/contextdb-continuity/src/owned.rs:274-283 | at a known boundary a terminal state meets the profile if and only if no obligation is open |
| Obligations.Find | crates/contextdb-continuity/src/owned.rs:348-352 | the first obligation of an identity, or none exists |
| Obligations.RetainNewest | crates/contextdb-agent-runtime/src/runtime.rs:433-443 | the reversed, counted, reversed-back retention computes the newest-first selection |
| Obligations.NewestKeeps | crates/contextdb-agent-runtime/src/runtime.rs:433-443 | every open obligation stays in order, and of the terminal ones exactly the newest do |
| Rolling.EvictionKeeps | crates/contextdb-agent-runtime/src/rolling.rs:48-58 | an eviction drops complete leading groups only, leaves as many as the policy keeps, and the open group survives |
| Rolling.FullWindowEvicts | crates/contextdb-agent-runtime/src/rolling.rs:30-58 | under a validated policy a full window of complete groups always has one to evict |
| Rolling.HighDoesNotEvict | crates/contextdb-agent-runtime/src/economy.rs:207-214 | the adaptive high mark cannot change what one eviction removes |
| Rolling.Rotate | crates/contextdb-agent-runtime/src/rolling.rs:199-226 | for any count function it ends; the survivors are a suffix, `removed` the difference, all of it eligible; a triggered rotation stops at the first cut at or below the low mark or with nothing more eligible, an untriggered one removes nothing |
| Rolling.RotateAgain | crates/contextdb-agent-runtime/src/rolling.rs:199-226 | with a deterministic count, rotating again at once removes nothing |
| Economy.ValidMeans | crates/contextdb-agent-runtime/src/economy.rs:32-55 | a usage is valid if and only if its known input parts fit 64 bits and the total, make it up when all known, and reasoning is within output |
| Economy.ChargeMicros | crates/contextdb-agent-runtime/src/economy.rs:79-105 | a charge exists if and only if the usage is valid and complete, the currency accepted and the exact price fits 64 bits, and it is that price |
| Economy.RoundingOnce | crates/contextdb-agent-runtime/src/economy.rs:77-104 | rounding once charges at most what rounding each category would, and at most three micro-units less |
| Economy.LatchedGrows | crates/contextdb-agent-runtime/src/economy.rs:180-218 | the sticky mode, defined over the whole history as entered and not left since, evolves one operation at a time by the two thresholds |
| Economy.LatchedMeasured | crates/contextdb-agent-runtime/src/economy.rs:160-178 | while sticky, the window still holds as many samples as the policy that entered it asked for |
| Economy.WindowGrows | crates/contextdb-agent-runtime/src/economy.rs:160-178 | the last four samples since the last unmeasured call, one observation at a time |
| Economy.CacheResidencyController.Observe | crates/contextdb-agent-runtime/src/economy.rs:160-178 | the fields stay what the whole history says; an unmeasured call clears both |
| Economy.CacheResidencyController.Totals | crates/contextdb-agent-runtime/src/economy.rs:195-200 | the 128-bit sums are exact and cannot overflow |
| Economy.CacheResidencyController.Select | crates/contextdb-agent-runtime/src/economy.rs:180-218 | refused if and only if a policy is invalid; the policy returned validates and differs from the base in its high mark at most; the reason follows the window and the mode; between the marks the mode never flips |
| Telemetry.SharedIsLongest | crates/contextdb-agent-runtime/src/telemetry.rs:106-121 | the reference prefix is common to both wires and cannot be longer |
| Telemetry.FloorBounds | crates/contextdb-agent-runtime/src/telemetry.rs:106-121 | with no hash collision between the two wires' chunks, the floor is at most the longest common prefix, less than 256 below it, and the whole length for equal wires |
| Telemetry.Telemetry.Wire | crates/contextdb-agent-runtime/src/telemetry.rs:106-121 | the same of the loop against the wire before, which it replaces |
| Telemetry.Telemetry.Push | crates/contextdb-agent-runtime/src/telemetry.rs:92-98 | the ring holds the newest measurements, and every other one was handed out or counted |
| Telemetry.Telemetry.Drain | crates/contextdb-agent-runtime/src/telemetry.rs:99-105 | hands out exactly what is retained; with no drop reported every measurement ever pushed was handed out |
| Roadmap.DependencyClosure | tools/contextdb-release/contextdb_release.py:2023-2039 | terminates on cyclic graphs too; refused if and only if the target is unknown or reaches a dangling edge; otherwise exactly the reflexive-transitive closure |
| Roadmap.DepthFirst.Visit | tools/contextdb-release/contextdb_release.py:2046-2057 | fails only where a cycle or a dangling edge exists, and otherwise finishes the milestone and restores the trail |
| Roadmap.OrderedIsSound | tools/contextdb-release/contextdb_release.py:2042-2060 | an order of all milestones with dependencies first rules out cycles and dangling edges |
| Roadmap.AssertAcyclic | tools/contextdb-release/contextdb_release.py:2042-2060 | passes if and only if there is no cycle and no dangling edge |
| ProofClosure.BundleVerifier.GateIssue | tools/contextdb-release/contextdb_release.py:517-519 | an error in the release profile and only there |
| ProofClosure.BundleVerifier.RequireExit | tools/contextdb-release/contextdb_release.py:1961-1985 | no new error if and only if the first entry for the exit passed with evidence (or the profile is not release) |
| ProofClosure.BundleVerifier.RequireProofs | tools/contextdb-release/contextdb_release.py:1987-2016 | no new error if and only if every counting required path is supplied (or the profile is not release) |
| ProofClosure.BundleVerifier.RequireMilestone | tools/contextdb-release/contextdb_release.py:1933-1959 | no new error if and only if the milestone passed on both sides with every exit evidenced and every proof supplied (or the profile is not release) |
| ProofClosure.BundleVerifier.RequireNoGaps | tools/contextdb-release/contextdb_release.py:1823-1839 | no new error if and only if no known gap blocks (or the profile is not release) |
| BundleFiles.CleanIsSound | tools/contextdb-release/contextdb_release.py:524-587 | checked one by one, in any order, citations add no error if and only if each is intact, none differs from another or from an earlier one in case only, and none repeats an earlier path under another digest |
| ProofClosure.BundleVerifier.RegisterPath | tools/contextdb-release/contextdb_release.py:524-535 | an error if and only if the path folds like one registered under another spelling; otherwise its spelling is registered |
| ProofClosure.BundleVerifier.VerifyFile | tools/contextdb-release/contextdb_release.py:537-587 | no new error if and only if the path stays in the bundle, the digest is one, the file is there with digest and size, and spelling and digest agree with what was cited before |
| ProofClosure.BundleVerifier.VerifyIndex | tools/contextdb-release/contextdb_release.py:1841-1858 | no new error if and only if only known milestones are cited and all their files, in whatever order, are clean |
| ProofClosure.AllCited | tools/contextdb-release/contextdb_release.py:1793-1858 | checking the ledger and then every citation is clean if and only if all of them together are sound |
| ProofClosure.BundleVerifier.RequireTarget | tools/contextdb-release/contextdb_release.py:1867-1895 | no new error if and only if the channel's target exists and, in the release profile, every gate of the channel is proven |
| ProofClosure.BundleVerifier.VerifyProofClosure | tools/contextdb-release/contextdb_release.py:1773-1895 | no new error if and only if every cited file, the ledger first, is intact under one spelling and one digest, the roadmap is sound, the index matches, and in the release profile no gap blocks and every milestone the target reaches is proven; in either profile the unresolved gates are empty if and only if no gap blocks and all of that is proven |
| ProofClosure.StageInRelease | tools/contextdb-release/contextdb_release.py:1773-1895 | in the release profile a clean stage is exactly a proven release |
| ProofClosure.BundleVerifier.Verify | tools/contextdb-release/contextdb_release.py:628-631 | release-ready if and only if the profile is release, the release is proven over what earlier stages cited, and no other stage reported an error |
| ArchivePaths.UnderIsPrefix | tools/contextdb-release/contextdb_release.py:3154-3163 | the textual test with a trailing separator is exactly proper prefix by component |
| ArchivePaths.TextTells | tools/contextdb-release/contextdb_release.py:3147-3152 | different canonical paths have different texts |
| ArchivePaths.Registry.Register | tools/contextdb-release/contextdb_release.py:3135-3168 | accepted if and only if the entries so far with the new one are safe and pairwise compatible |
| ArchivePaths.RegisterAll | tools/contextdb-release/contextdb_release.py:3135-3168 | a listing is accepted if and only if its entries are safe and pairwise compatible |
| ArchivePaths.OrderDoesNotMatter | tools/contextdb-release/contextdb_release.py:3135-3168 | any two orders of the same entries are accepted or refused alike |
| ArchivePaths.Reservations.Reserve | tools/contextdb-release/contextdb_release.py:3493-3509 | reserved if and only if apart from every reserved path; the reservations stay prefix-free by component |
| SemVer.CompareMeans | tools/contextdb-release/contextdb_release.py:411-440 | on all versions: below exactly as section 11 of Semantic Versioning 2.0.0 says, zero exactly when only build metadata differs |
| SemVer.AntisymmetryExact | tools/contextdb-release/contextdb_release.py:411-440 | swapping the versions negates the answer if and only if their first difference is not one number spelled twice |
| SemVer.StandardUnambiguous | tools/contextdb-release/contextdb_release.py:36-39 | which never happens without leading zeros in numeric prerelease identifiers |
| SemVer.LeadingZeroCycles | tools/contextdb-release/contextdb_release.py:443-445 | 1.0.0-1 and 1.0.0-01 are each accepted as an upgrade of the other |
| SemVer.MutualUpgradeExact | tools/contextdb-release/contextdb_release.py:443-445 | two versions are upgrades of each other if and only if their difference is ambiguous in that way |
| SemVer.Transitive | tools/contextdb-release/contextdb_release.py:411-440 | below is transitive on all versions |
| SemVer.ChainNeverReturns | tools/contextdb-release/contextdb_release.py:443-445 | a chain of unambiguous upgrades never comes back, not even under other build metadata |
| DependencyListing.Resolve | tools/local-mcp-preview/generate_supply_chain.py:261-287 | accepted if and only if not empty, without a depth jump and without contradictory metadata; then nodes are the packages listed and edges lead from the nearest shallower line to each line |
| DependencyListing.TakeMeans | tools/local-mcp-preview/generate_supply_chain.py:269-287 | one line is accepted if and only if it follows the lines before it, and keeps the stack the open lines of each level |
| DependencyListing.ReadsPrinted | tools/local-mcp-preview/generate_supply_chain.py:269-287 | reading a printed forest below any open path adds exactly its packages and edges and returns to that path |
| DependencyListing.PrintedIsRead | tools/local-mcp-preview/generate_supply_chain.py:261-287 | a printed forest is accepted if and only if no package is described in two ways, and what is read back is its packages, its edges and its metadata |
| Sha256.Padded | crates/contextdb-bench/src/digest.rs:87-95 | always whole blocks, and the padding of section 5.1.1 of FIPS 180-4 for messages below 2^61 bytes |
| Sha256.PadTells | crates/contextdb-bench/src/digest.rs:87-95 | different messages are padded differently |
| Sha256.PadAligned | crates/contextdb-bench/src/digest.rs:87-95 | a padded message is a whole number of blocks |
| Sha256.Expand | crates/contextdb-bench/src/digest.rs:98-120 | the schedule array holds the recursive message schedule of section 6.2.2 of FIPS 180-4 |
| Sha256.Scramble | crates/contextdb-bench/src/digest.rs:122-148 | the eight shifting variables hold the sixty-four rounds of section 6.2.2 of FIPS 180-4 |
| Sha256.Hash | crates/contextdb-bench/src/digest.rs:86-164 | the digest of section 6.2 of FIPS 180-4 for every message below 2^61 bytes, and 32 bytes for any |
| Sha256.Hex | crates/contextdb-bench/src/digest.rs:168-176 | two digits a byte, from which the bytes can be read back |
| Dataset.MixIsPermutation | crates/contextdb-bench/src/workload.rs:330-335 | the mixer is a permutation of the 64-bit words: both compositions with its inverse are the identity |
| Dataset.FillersDiffer | crates/contextdb-bench/src/workload.rs:278-287 | under one seed, records of different ordinals begin their filler with different words |
| Dataset.KeyTells | crates/contextdb-bench/src/workload.rs:276-277 | different records have different keys, whatever their subjects |
| Dataset.Record | crates/contextdb-bench/src/workload.rs:269-293 | refused if and only if outside the dataset; otherwise the key is the subject and the ordinal spelled out, and the buffer is the ordinal, the subject and the filler, byte for byte |

## Left out

- RunRecovery.RecoveryExact: of the identity and the reader profile of a run only the scopes and the encoded length are modelled, and of a name only whether trimming empties it, whether it has control characters, and its length; digests that are all zero, which the original refuses, are not. An identity in the encoding has 36 characters, a digest 64, and a recorded time 16 digits.
- ProofClosure.BundleVerifier.Verify: the manifest, checksum, signature and inventory stages appear only as the issues they add and the files they cite.
- AgentRuntime.OwnedAgentRuntime.SwitchReader: of the settings it installs only the rotation policy and the input limit are modelled, and not that it resets the cache controller.
- AgentRuntime.OwnedAgentRuntime.PassFence: leases, policies and the owner's record of requests already admitted are not modelled, so the fence may also refuse what the model would accept.
- `drive.rs`, hooks, routes, and the counting of rendered messages (`count_base`): the count of a window is any function.
- `start`'s lost acknowledgement: a run begins once its first checkpoint is durable.
- 64-bit overflow of revisions and producer positions, which the original refuses.
- Identity, capability, lease and authorization checks of the native owner, budgets and clocks.
- UUID generation: identities are fresh numbers. BLAKE3: digests are numbers, and collision-freedom is assumed only where a contract says so.
- Parsing of version text, archive formats, JSON schemas, signatures and everything that reads files in the release tools.
- Case folding and Unicode normalization of paths: folding is any function, and an archive path is its folded components.
- Latency, token and byte counters of a step measurement: a measurement is any value.
