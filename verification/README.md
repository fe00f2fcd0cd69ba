# A verified model of the agents bridge

The bridge supervises delegated agent runs: it admits them under a concurrency cap, lets a
running agent put one question to a human, rests a run that needs input, continues it as a
successor once the answer arrives, and hands the operator one diff to accept per chain of
continuations. Around that sit the text filter every agent message passes, the reader of an
agent's event stream, the builder of its argument list, a rate limiter, and the goroutine that
waits for a child.

The project models these parts in Dafny and proves what they promise. `dafny verify
dfyconfig.toml` checks everything.

## How it is organised

- `RunLifecycle` gives one function per critical section of a run's lock, from the old fields
  to the new ones and to what is done after unlocking; `RunFate` says what becomes of a run by
  its history. `RunObject` is the `Run` class with the same operations in place; every method
  is proved to compute the corresponding function.
  `VerdictProtocol` interleaves those sections with goroutines that have unlocked but not yet
  sent, and `GateResolver` plays the gate's `Resolve` against all of them.
- `Registry` counts and admits runs while other goroutines move them between any two locks;
  `RegistryObject` is the class with its loops.
- `Bridge` is the continuation transaction, collection, acceptance and reaping over registry,
  change store and gates; `BridgeObject` is the server class that changes them step by step.
  `BridgeLaws` and `BridgeOperations` prove what each operation keeps, `BridgeHistory` what
  follows for every history, `BridgeDecisions` what asking, collecting and accepting do,
  `BridgeNoOp` what a refused continuation leaves behind and what a successful one adds, and
  `BridgeProgress` what an answer is told and exactly when one goes through, and `BridgeJourney`
  how a request comes to a patch against its own checkout. The fields `admitted`, `successor` and
  `applied` of the bridge state are history only: no operation reads them.
- `Utf8`, `TextSearch`, `Sanitize` and `Envelope` are the text filter on bytes, `Quote` the `%q`
  verb, `Prose` the bridge's own fixed sentences. `Seed` builds the prompt of a continuation from
  them: what the agent wrote inside one envelope, what bridge and operator wrote outside.
- `LineReading`, `Capped`, `EventStream` and `StreamObject` are the stream reader, each piece
  proved against a plain description of lists and prefixes.
- `RateLimiter`, `Argv` and `Supervise` stand alone.

Operations of the bridge are atomic with respect to one another; run transitions, including a
deadline that passes, may strike between any two of their steps. Run ids are fresh. At most one
question per run is put by a resolver at a time. What comes from outside (the clock, git, the
vendor's parser, the transcript's fate, policy, the operating system's answers) is a parameter,
arbitrary unless a contract says otherwise.

## Findings

- The elicitation branch of the resolver can lose an accepted operator answer: the answer
  decides the question, elicitation then finds nothing pending, and the agent is told that no
  human is reachable (internal/gate/resolver.go:92-116). `ElicitationCanLoseAnOperatorAnswer`
  gives the interleaving. `AcceptedAnswerIsReturned` gives the condition: an accepted answer is
  what Resolve returns if and only if a TUI is attached, the guard at internal/gate/resolver.go:88.
- A settled run's report is not final: `setDiagnostic` writes an empty diagnostic in any state
  (internal/run/steer.go:151-157), and the supervisor of a superseded run's child may still come
  to it. `SettledRunTakesADiagnostic` gives the case; `TerminalIsAbsorbing` says that everything
  else is final and what the diagnostic is, `DiagnosticSticks` that it changes at most once.
- Builder and loader disagree about placeholders in one direction: the loader passes a known
  placeholder inside other text, several of them, an opening pair nothing closes, a list bound to
  a flag, and a stray brace after a placeholder, all of which the builder refuses.
  `BuilderTakesExactly` draws the line. The builder accepts nothing the loader's scanner objects
  to (`BuilderImpliesLoader`).
- `EnvelopeTail` reports truncation in one case in which nothing was cut: the tail fills the
  budget and the body, though not empty, cleans to nothing (internal/sanitize/sanitize.go:64-67).
  `TruncationReportedWithoutACut` is such a case, `TruncatedIsHonest` the exact condition.
- A read that fails can cost an unended last line: one whose pieces so far filled the reader's
  buffer is dropped with the fault (internal/run/stream.go:154-163), where at the end of input it
  would have been kept. `ReadAll` and `StreamEvents` say that nothing else is lost.
- The release of a pending question inside expiry (internal/run/run.go:382-396) never has
  anything to release (`ExpiryNeverReleases`).

## Model

| member | source | states |
|---|---|---|
| RunLifecycle.RunKeepsInv | internal/run/run.go:352-468 | over any sequence of critical sections: done is closed iff the run is not running, a question is pending only while it runs and iff its channel is held, a running run has no deadline, a finish time exists iff the state is terminal |
| RunLifecycle.TerminalIsAbsorbing | internal/run/run.go:423-468 | the first terminal state wins for ever, with its whole report but the diagnostic, and nothing more is audited; the diagnostic is the first one recorded, before or after |
| RunLifecycle.DiagnosticSticks | internal/run/steer.go:151-157 | once a settled run has a diagnostic its report never changes again, whatever follows |
| RunLifecycle.SettledRunTakesADiagnostic | internal/run/steer.go:151-157 | a superseded run without a diagnostic takes the first one recorded after it settled |
| RunLifecycle.DoneClosesOnce | internal/run/question.go:196-237 | over any sequence done is closed once if the run leaves running, and never otherwise |
| RunLifecycle.NeedsInputExits | internal/run/continuation.go:107-133 | needs_input is left exactly by a passed deadline or by a successor |
| RunLifecycle.RestingRun | internal/run/run.go:382-396 | a resting run stays, fails or is superseded, with exactly the one audit transition that says so |
| RunLifecycle.ExpiryNeverReleases | internal/run/run.go:352-396 | whatever happened since the run was admitted, expiry has no pending question to release |
| RunLifecycle.RestingUntouched | internal/run/question.go:63-118 | questions, answers and the child's belated exit leave a resting run alone: only time moves it, and at most a first diagnostic is noted on it |
| RunLifecycle.SettledUntouched | internal/run/run.go:423-430 | nothing that happens on its own changes a settled run, but for having been awaited and for the first diagnostic |
| RunLifecycle.RestsForTheQuestionsSpan | internal/run/question.go:196-225 | over any run: one that stops for input keeps its pending question and rests for exactly the span that question was to have, from the moment it stopped, or for ever without one |
| RunFate.FirstExitDecides | internal/run/run.go:423-468 | whatever came before and comes after: a run that never rested ends in the state of its first exit, at that moment, with its output, failure, exit code and truncation, an earlier diagnostic in front of its own |
| RunFate.FirstStopDecides | internal/run/question.go:196-225 | a run that stops first rests with the reason as its failure and its output untouched, until the span of its question is over, and stays so until a successor or a look past that |
| RunFate.SuccessorDecides | internal/run/continuation.go:107-133 | a rest ends for ever in the first successor, who and when recorded |
| RunFate.DeadlineDecides | internal/run/run.go:352-396 | or in failure by the first look past the deadline, with the reason in failure and diagnostic |
| RunFate.AskedIsShown | internal/run/question.go:63-87 | a question is taken exactly by a running run with none pending, and is then, stamped, the one shown, running or at rest, until somebody resolves it or the run settles |
| RunFate.OnlyItsOwnAnswer | internal/run/question.go:103-118 | an answer goes to the question it names on that question's own channel, or to whichever is pending if it names none; one that names another changes nothing |
| RunFate.WaiterIsTold | internal/run/question.go:196-237 | whoever waits when a run ends or stops is owed the exit's failure or the reason on the question's own channel |
| RunFate.RecordOnce | internal/run/continuation.go:70-82 | the record can be taken exactly from a resting run that has it, and not twice |
| RunObject.StripControlExact | internal/run/question.go:139-149 | exactly the characters that are not controls survive, and a text without controls is unchanged |
| RunObject.StripControlInOrder | internal/run/question.go:139-149 | character by character, in order |
| RunObject.ByteLengthIsEncoded | internal/run/question.go:131-136 | the length that is limited is that of the text's UTF-8 encoding |
| RunObject.Run.Ask | internal/run/question.go:63-87 | a fresh capacity-one channel and the question recorded, or the exact refusal and no change |
| RunObject.Run.ResolvePending | internal/run/question.go:103-118 | the pending question is cleared and its channel carries the verdict and is closed, or the exact refusal and no change |
| RunObject.Run.AnswerQuestion | internal/run/question.go:131-136 | an answer within the size limit is delivered with controls stripped; every refusal leaves run and channel alone |
| RunObject.Run.DenyQuestion | internal/run/question.go:157-159 | whatever is pending is denied with the message, once |
| RunObject.Run.ClearForInput | internal/run/question.go:196-225 | under the lock the run comes to rest with its deadline measured from now, and the caller is owed the cleared channel |
| RunObject.Run.StopForInput | internal/run/question.go:196-237 | the cleared channel gets exactly the denial and is closed, and the child is cancelled iff the run was running |
| RunObject.Run.TakeReport | internal/run/run.go:430-450 | the child's report replaces the old one, the earlier diagnostic kept in front |
| RunObject.Run.SetDiagnostic | internal/run/steer.go:151-157 | in any state the first diagnostic is kept and every later one refused, and nothing else changes |
| RunObject.Run.ClearForExit | internal/run/run.go:423-460 | under the lock a running run settles in the exit's state with what it reports, any other is left alone, and the caller is owed the cleared channel |
| RunObject.Run.Finish | internal/run/run.go:423-468 | settling takes the exit's state and report, delivers a denial to a waiter, if there was one, and closes its channel |
| RunObject.Run.ExpireIfDue | internal/run/run.go:352-396 | a resting run past its deadline fails with one transition, any other run is untouched |
| RunObject.Run.TakeContinuation | internal/run/continuation.go:70-82 | the record is given out once, only while the run rests; every refusal changes nothing |
| RunObject.Run.Supersede | internal/run/continuation.go:107-133 | a resting run becomes superseded by its successor with one transition; any other is refused unchanged |
| RunObject.Run.TakeWorktree | internal/run/run.go:298-304 | the handle is given out once and nothing else changes |
| RunObject.Run.Retire | internal/run/run.go:340-344 | the run stops counting as live and nothing else changes |
| VerdictProtocol.LockKeepsGood | internal/run/question.go:103-118 | no critical section puts a channel in two places or in none |
| VerdictProtocol.ExecKeepsGood | internal/run/run.go:423-468 | no interleaving of critical sections, sends and closes does |
| VerdictProtocol.ExactlyOneVerdict | internal/run/question.go:63-118 | in every reachable state each channel is pending on a running run, held by the one goroutine that owes it, or delivered exactly once and closed exactly once |
| VerdictProtocol.SendsNeverBlockOrPanic | internal/run/question.go:196-237 | no sender ever meets a full or a closed channel |
| VerdictProtocol.NobodyStranded | internal/run/run.go:352-396 | once the run has settled, letting the senders finish delivers every question ever asked |
| VerdictProtocol.DrainDelivers | internal/run/run.go:423-468 | the senders in flight can always finish, and then nothing is undelivered |
| VerdictProtocol.VerdictIsFinal | internal/run/question.go:103-118 | the verdict decided when a question was cleared is never replaced, and nothing else is ever sent |
| GateResolver.PlayKeepsGateGood | internal/gate/resolver.go:47-117 | at every point of every interleaving the resolver's position agrees with who decided the question |
| GateResolver.AwaitVerdictLosesNoAnswer | internal/gate/resolver.go:180-219 | with a TUI attached an operator answer that decided the question is returned word for word; a no-human reply means the denial won and the run is no longer running |
| GateResolver.AcceptedAnswerIsReturned | internal/gate/resolver.go:88-219 | an answer accepted at any moment is what Resolve returns iff a TUI is attached, whatever timeout, cancellation or exit races with it; otherwise the agent hears that no human is there and the run has stopped |
| GateResolver.ElicitationRelaysOnlyItsOwn | internal/gate/resolver.go:92-116 | without a TUI an answer is relayed exactly when elicitation decided the question; an operator's then ends in the no-human reply and a stopped run |
| GateResolver.RelayedIsSaid | internal/gate/resolver.go:88-219 | told by the moves: without a TUI elicitation is tried once where it can be and what is relayed is what it brought, controls stripped; with one it is an answer some operator gave, unless a settling run decided |
| GateResolver.ElicitedAnswerIsReturned | internal/gate/resolver.go:92-103 | what elicitation brought is what Resolve returns, if it fits and its question is still pending then |
| GateResolver.StopsForItsReason | internal/gate/resolver.go:189-219 | a run stopped while running rests for the reason the resolver gave up, time or cancellation, whichever it was |
| GateResolver.StopsForWantOfAChannel | internal/gate/resolver.go:110-116 | or for want of a channel to a human |
| GateResolver.ResolveEnds | internal/gate/resolver.go:47-219 | whatever the others do Resolve makes at most seven moves of its own, and until it is done it can always make one, at worst after a send under way |
| GateResolver.ElicitationCanLoseAnOperatorAnswer | internal/gate/resolver.go:92-116 | for every question and answer, an interleaving in which the accepted operator answer is lost |
| GateResolver.BlockingReadsEnd | internal/gate/resolver.go:196-219 | whenever the resolver reads without a way out, the verdict is there or the goroutine holding it can send it at once |
| GateResolver.DeciderIsFinal | internal/gate/resolver.go:180-219 | who decided the question is settled once |
| Registry.HappenAllFacts | internal/run/run.go:331-335 | while nobody is admitted, the set of runs holding a slot only shrinks |
| Registry.SweepIsOneLook | internal/run/run.go:587-597 | an undisturbed sweep that meets a run any number of times is one look at its deadline, and no run outside the sweep is touched |
| Registry.NothingIsDueAfterSweep | internal/run/run.go:587-597 | however other goroutines move the runs between its looks, after a sweep no run it visited is past its deadline by the sweep's clock |
| Registry.AdmittedIsNew | internal/run/exec.go:108-147 | an admission brings in exactly one run, running, with no question, deadline or history, holding its spec's checkout, confinement, record and predecessor; nobody else is touched but a predecessor retired |
| Registry.ForgetsExactly | internal/run/run.go:638-646 | looking runs up forgets exactly those that settled before the cutoff |
| Registry.FoundAfterItsEnd | internal/run/run.go:638-646 | a run that ended in an exit is found as long as that exit is not before the cutoff, whatever was done with it since |
| Registry.CountNeverLow | internal/run/run.go:658-669 | the count, taken run by run while others move, never comes out below the slots occupied when it ends |
| Registry.CountExactWhenQuiet | internal/run/run.go:658-669 | with nobody moving it is exactly the number of occupied slots |
| Registry.AdmitLive | internal/run/exec.go:108-147 | a successor takes over its predecessor's slot in its own admission step |
| Registry.StartKeepsCap | internal/run/exec.go:95-147 | one admission keeps the cap whatever moves while it counts, and a refusal admits nothing |
| Registry.CapKept | internal/run/exec.go:95-147 | every history of admissions, prunings and transitions keeps the cap |
| Registry.ConcurrencyCap | internal/run/exec.go:95-147 | in every reachable state, inside a count too, at most maxLive runs are neither terminal nor retiring |
| RegistryObject.RunRegistry.constructor | internal/run/run.go:504-512 | an empty registry; a limit of zero or less means four |
| RegistryObject.RunRegistry.SweepExpired | internal/run/run.go:587-597 | the loop is one expiry check per known run |
| RegistryObject.RunRegistry.PruneLocked | internal/run/run.go:638-646 | exactly the runs that settled before the cutoff are forgotten |
| RegistryObject.RunRegistry.LiveCountExcludingLocked | internal/run/run.go:658-669 | the loop computes the interleaved count |
| RegistryObject.RunRegistry.Get | internal/run/run.go:547-557 | sweep, then prune, then look up |
| RegistryObject.RunRegistry.Start | internal/run/exec.go:87-147 | admission with the slot handover, or the refusing count and nothing inserted |
| BridgeObject.ChangeStore.Discard | cmd/bridge/changes.go:47-58 | the entry is forgotten and no other one touched |
| BridgeObject.BridgeServer.BuildingSpec | cmd/bridge/tools.go:312-463 | the spec with its continuation record, or a refusal after which no gate of this attempt is open |
| BridgeObject.BridgeServer.Asking | cmd/bridge/tools.go:221-256 | a run admitted and its worktree registered at spawn, or a refusal with the gate closed |
| BridgeObject.BridgeServer.ContinueRun | cmd/bridge/continuation.go:81-226 | the whole transaction, every refusal giving the record back |
| BridgeObject.BridgeServer.Proceeding | cmd/bridge/continuation.go:92-102 | depth and confinement are checked with the record in hand |
| BridgeObject.BridgeServer.Resuming | cmd/bridge/continuation.go:104-151 | the question, the workspace and the successor's record, one turn longer |
| BridgeObject.BridgeServer.Committing | cmd/bridge/continuation.go:133-184 | authority, spec, start and registration, in that order |
| BridgeObject.BridgeServer.Retiring | cmd/bridge/continuation.go:186-218 | label, handle, entry and gate, the last three whatever became of the label |
| BridgeObject.BridgeServer.CollectingDiff | cmd/bridge/changes.go:99-123 | a patch is stored, an empty one drops the entry, a failed diff leaves the store alone |
| BridgeObject.BridgeServer.Reaping | cmd/bridge/changes.go:82-95 | exactly the entries without a patch of known runs that settled but did not complete are dropped |
| BridgeObject.BridgeServer.Collecting | cmd/bridge/tools.go:536-597 | by the state found: nothing, the gate, or gate, handle, diff and reaping |
| BridgeObject.BridgeServer.AcceptFromOperator | cmd/bridge/controlhandler.go:83-104 | a superseded run is refused with its successor; otherwise the patch is applied and the entry dropped, or neither |
| BridgeObject.BridgeServer.AcceptFromAgent | cmd/bridge/changes.go:166-206 | an unknown, superseded or unconfined run is refused; otherwise the patch is applied and the entry dropped, or neither |
| BridgeObject.BridgeServer.Rejecting | cmd/bridge/controlhandler.go:107-113 | the entry is dropped |
| BridgeLaws.NaturalKeeps | internal/run/run.go:352-396 | what runs do on their own keeps records, handles and terminal states, and frees slots only |
| BridgeLaws.MeanwhileSound | cmd/bridge/continuation.go:186-218 | runs moving between two steps of a transaction keep the chain invariants, even half way through a handover |
| BridgeLaws.CountingIsElapsing | internal/run/run.go:658-669 | counting changes nothing beyond what the runs did meanwhile |
| BridgeLaws.LaunchSound | internal/run/exec.go:95-147 | admitting a run keeps every chain a chain, the predecessor being handed over |
| BridgeLaws.LabelSound | cmd/bridge/continuation.go:206-206 | after the label was tried the predecessor no longer rests, whether it was labelled or had expired |
| BridgeLaws.RetireSound | cmd/bridge/continuation.go:186-218 | retiring the predecessor ends the handover, whatever strikes between its steps |
| BridgeOperations.AskKeeps | cmd/bridge/tools.go:221-256 | asking keeps the bridge's invariant |
| BridgeOperations.CommitKeeps | cmd/bridge/continuation.go:133-218 | starting the successor and retiring the predecessor keep it |
| BridgeOperations.ContinueKeeps | cmd/bridge/continuation.go:81-218 | a continuation keeps it on every path |
| BridgeOperations.CollectKeeps | cmd/bridge/tools.go:536-597 | collection keeps it |
| BridgeOperations.TakeableIsFree | internal/run/continuation.go:70-82 | a run whose record can be taken has no successor and its patch was never applied |
| BridgeOperations.PatchedIsFree | cmd/bridge/changes.go:99-123 | a stored patch belongs to a settled run that was neither continued nor applied |
| BridgeOperations.AcceptKeeps | cmd/bridge/controlhandler.go:83-104 | the operator's accept keeps the invariant |
| BridgeOperations.AcceptChangesKeeps | cmd/bridge/changes.go:166-206 | so does the model's |
| BridgeOperations.RejectKeeps | cmd/bridge/controlhandler.go:107-113 | so does a rejection |
| BridgeHistory.HistoryKeeps | cmd/bridge/continuation.go:81-218 | every history of bridge operations keeps the invariant |
| BridgeHistory.ChainsAreLinear | cmd/bridge/continuation.go:87-159 | in every reachable state a run has at most one successor |
| BridgeHistory.RecordsTellTheChain | cmd/bridge/tools.go:440-459 | a record's depth is the distance from the root and within the limit, it holds one turn per link extending its predecessor's, and the root's prompt; a record still on its run is that record |
| BridgeHistory.EveryRunHasARoot | cmd/bridge/tools.go:440-459 | every run ends a path from a root as long as its depth says |
| BridgeHistory.PathsAgree | cmd/bridge/continuation.go:87-159 | two paths from one root agree as far as both go |
| BridgeHistory.ContinuedOwnsNothing | cmd/bridge/continuation.go:186-218 | a run with a successor has no entry, handle or gate and was never applied, superseded or expired alike |
| BridgeHistory.ExpiryBeatsTheLabel | cmd/bridge/continuation.go:197-218 | a deadline that strikes after the successor started leaves the label refused and everything the chain owned gone |
| BridgeHistory.ContinuedIsNeverCollected | cmd/bridge/tools.go:536-597 | collecting a continued run again, with any diff, gives it no entry |
| BridgeHistory.OnePatchPerChain | cmd/bridge/changes.go:166-206 | over any history at most one patch per continuation chain is applied |
| BridgeHistory.SlotsWithinLimit | internal/run/exec.go:95-147 | over any history of bridge operations the cap holds |
| BridgeNoOp.RecordPlaysNoPart | internal/run/continuation.go:60-82 | a run behaves the same on its own with its record taken out |
| BridgeNoOp.WithoutAll | internal/run/continuation.go:60-82 | so does a whole registry |
| BridgeNoOp.FailedContinueIsNoOp | cmd/bridge/continuation.go:87-177 | a refused continuation equals its own lookup and the runs' own transitions, at whatever step and for whatever reason it was refused |
| BridgeNoOp.FailedContinueKeepsThePredecessor | cmd/bridge/continuation.go:92-177 | apart from expiry and a first diagnostic the predecessor keeps state, question, record, entry and slot, no run or gate remains, and nothing but expiries is audited |
| BridgeNoOp.QuietRetryMeetsTheSameDecision | cmd/bridge/continuation.go:167-177 | in a call in which nothing else moves, the same attempt meets the same decision again |
| BridgeNoOp.ContinueExtendsTheChain | cmd/bridge/continuation.go:144-218 | a success adds exactly one run, whose record is the predecessor's with the resting question and the answer and whose checkout is cut from the predecessor's, strips the predecessor, and leaves every other run to itself |
| BridgeProgress.CommitExactly | cmd/bridge/continuation.go:133-177 | with the successor's record built, it is started exactly when policy and spec allow and there is room beside everyone but the predecessor |
| BridgeProgress.ContinueAnswersExactly | cmd/bridge/continuation.go:81-177 | with nothing else moving: which refusal is given, or that the successor's id is, by what the caller could look up |
| BridgeProgress.ContinueSucceedsExactly | cmd/bridge/continuation.go:81-177 | with nothing else moving a continuation goes through exactly when the run rests on a question with its record in place, its chain is short enough, its workspace is at hand, the collaborators agree and there is room |
| BridgeProgress.ChainsForm | cmd/bridge/continuation.go:81-218 | wherever there is a slot and continuations are allowed, a reachable state holds a continued run |
| BridgeDecisions.LookupsForget | internal/run/run.go:547-557 | every accept, whatever comes of it, and every lookup leaves known exactly the runs that had not settled before the cutoff |
| BridgeDecisions.CollectForgets | cmd/bridge/changes.go:82-95 | so does collecting a settled run |
| BridgeDecisions.RefusedAskIsNoOp | cmd/bridge/tools.go:221-256 | a refused request leaves what the passage of time alone would have left, gate included |
| BridgeDecisions.CollectStoresThePatch | cmd/bridge/tools.go:592-597 | collecting a settled run closes its gate, consumes its handle and leaves exactly the patch git reported, surviving the reaping that follows |
| BridgeDecisions.CollectsOnce | internal/run/run.go:298-304 | collecting again, whatever git would say by then, leaves a stored patch alone |
| BridgeDecisions.CollectsNothingElse | cmd/bridge/tools.go:536-597 | collecting a run that has not settled closes its gate if it rests and does nothing else; nor is there anything to collect of a superseded one |
| BridgeDecisions.CollectLeavesOthers | cmd/bridge/changes.go:99-123 | no other run's diff or gate is touched |
| BridgeDecisions.ReapSparesDecisions | cmd/bridge/changes.go:82-95 | reaping takes no entry that has a patch or may still get one |
| BridgeDecisions.ReapsExactly | cmd/bridge/changes.go:82-95 | dropped are exactly the entries without a patch of known runs that settled short of completion |
| BridgeDecisions.AbandonedGoes | cmd/bridge/tools.go:592-597 | collecting any settled run takes the entry of a known, settled one nobody collected, unless that one completed |
| BridgeDecisions.AcceptExactly | cmd/bridge/controlhandler.go:83-104 | in every reachable state the operator's accept applies a patch and drops its entry exactly when there is a real one that applies cleanly, changes neither otherwise, tells which it was, and a refusal as superseded names the run's actual successor |
| BridgeDecisions.AcceptChangesExactly | cmd/bridge/changes.go:166-206 | so does the model's, for known and confined runs only |
| BridgeDecisions.RejectsExactly | cmd/bridge/controlhandler.go:107-113 | the entry goes and no other, or the operator hears there was none |
| BridgeJourney.AskAdds | cmd/bridge/tools.go:221-256 | an accepted request adds exactly one new run with its checkout, registered at spawn, the root record of its prompt, mode and confinement, and its gate |
| BridgeJourney.AskAnswersExactly | cmd/bridge/tools.go:221-256 | with nothing else moving: which refusal a request meets, or that it gets its run, by what the caller could look up |
| BridgeJourney.HistoryStill | internal/run/run.go:298-304 | over any history a run keeps its checkout and record until it is itself collected or continued |
| BridgeJourney.AskComesToAPatch | cmd/bridge/changes.go:99-123 | a confined write request that settles, whatever is done to others meanwhile, and is collected with a patch leaves that patch with the very checkout cut for it |
| BridgeJourney.ContinueComesToAPatch | cmd/bridge/continuation.go:113-184 | so does a continuation, with a checkout handed forward from its predecessor's |
| Utf8.DecodeEncode | internal/sanitize/sanitize.go:115-120 | decoding an encoded rune gives it back, whatever follows (RFC 3629 section 3) |
| Utf8.DecodeIsExact | internal/sanitize/sanitize.go:115-120 | a decoded rune is exactly the bytes it came from, or the replacement for one bad byte |
| Utf8.CutBetween | internal/sanitize/sanitize.go:152-161 | a cut at a byte that starts a rune falls between two runes |
| TextSearch.ReplaceRemoves | internal/sanitize/sanitize.go:140-141 | replacing a delimiter removes every occurrence and assembles no other |
| TextSearch.ReplaceRejoins | internal/sanitize/sanitize.go:140-141 | a text taken apart at the delimiter and joined with the replacement: nothing between the occurrences is touched |
| TextSearch.PiecesHoldNone | internal/sanitize/sanitize.go:140-141 | and nothing between them holds one |
| TextSearch.CountSeam | internal/sanitize/sanitize.go:70-74 | no delimiter straddles a joining newline |
| Sanitize.FilterIsSafe | internal/sanitize/sanitize.go:115-133 | nothing that should be stripped survives, and the result is well-formed |
| Sanitize.FilterKeepsSafe | internal/sanitize/sanitize.go:115-133 | nothing that should survive is stripped |
| Sanitize.FilterExactly | internal/sanitize/sanitize.go:115-133 | of every text exactly the runes outside the stripped code points survive, in order, and the count is that of the stripped and replaced |
| Sanitize.RunesOfText | internal/sanitize/sanitize.go:115-120 | a well-formed text decodes to the runes it encodes |
| Sanitize.EscapesAreHtml | internal/sanitize/sanitize.go:136-141 | what replaces a delimiter is its HTML escape |
| Sanitize.NeutralIsTagFree | internal/sanitize/sanitize.go:136-141 | the two replacement passes leave no opening or closing delimiter, for any text |
| Sanitize.ReplaceKeepsSafe | internal/sanitize/sanitize.go:136-141 | replacing never splits a rune |
| Sanitize.CutAt | internal/sanitize/sanitize.go:152-161 | the cut is the last rune boundary not after the limit |
| Sanitize.TruncateUtf8 | internal/sanitize/sanitize.go:152-161 | the loop finds that cut |
| Sanitize.CleanRune | internal/sanitize/sanitize.go:116-132 | the switch keeps and counts exactly as specified |
| Sanitize.FilterText | internal/sanitize/sanitize.go:110-134 | the loop over runes, with its count for the audit record |
| Sanitize.CleanText | internal/sanitize/sanitize.go:110-149 | the whole method computes the specified result |
| Sanitize.CleanIsClean | internal/sanitize/sanitize.go:110-161 | the result is well-formed, free of delimiters, within the cap, and the longest fitting rune-boundary prefix of the cleaned text; truncation is reported iff something was cut |
| Sanitize.CleanLeavesAlone | internal/sanitize/sanitize.go:110-161 | a text is left alone exactly when it is safe, free of delimiters and fits |
| Sanitize.CleanIsIdempotent | internal/sanitize/sanitize.go:110-161 | cleaning again with the same cap changes and truncates nothing |
| Envelope.WrapDelimits | internal/sanitize/sanitize.go:84-98 | around any clean payload, notice included, the opening tag occurs once at the start and the closing tag once at the very end |
| Envelope.EnvelopesAreDelimited | internal/sanitize/sanitize.go:39-98 | so it does for every body and tail, every cap and every source and run without '<', which are quoted into the opening tag |
| Envelope.EnvelopeHolds | internal/sanitize/sanitize.go:39-98 | a reader finds the opening line, the preamble, a rule, and up to the closing tag exactly the payload, with the notice iff it was cut; the flag and the count are the payload's; an empty tail makes it the plain envelope |
| Envelope.RemovedIsCounted | internal/sanitize/sanitize.go:52-81 | the count is of everything stripped or replaced in both parts, or in the tail alone where it left no room for a body |
| Envelope.OpeningNames | internal/sanitize/sanitize.go:86-86 | the opening line holds source and run, quoted |
| Envelope.JoinIsClean | internal/sanitize/sanitize.go:70-74 | the seam between body and tail assembles nothing |
| Envelope.PayloadFits | internal/sanitize/sanitize.go:52-81 | the payload is valid, within the cap and ends with the whole cleaned tail; the body's part is its longest rune-boundary prefix with which the two still fit |
| Envelope.TruncatedIsHonest | internal/sanitize/sanitize.go:52-81 | not truncated means the cleaned parts joined and uncut; truncated means something was cut, but for a body that cleans to nothing and finds no room |
| Envelope.TruncationReportedWithoutACut | internal/sanitize/sanitize.go:64-67 | the exception exists: at a budget of one byte, a body that cleans to nothing is reported truncated and nothing was cut |
| Quote.QuotedKeepsPlain | internal/sanitize/sanitize.go:86-86 | quoting a text, whatever counts as printable, brings no '<' that was not there |
| Quote.QuotedReadsBack | cmd/bridge/continuation.go:283-287 | quoted text is read back as it was, whatever follows: no name passes for another or for the text around it |
| Prose.DecimalReadsBack | internal/sanitize/sanitize.go:92-92 | a number reads back, without leading zeros |
| Seed.BuildSeed | cmd/bridge/continuation.go:307-373 | the builders and their loops assemble the specified seed |
| Seed.OpeningIsTagFree | cmd/bridge/continuation.go:310-329 | the bridge's own words hold no delimiter, however many turns and files they count |
| Seed.UntrustedIsDelimited | cmd/bridge/continuation.go:331-355 | all questions and file names together stand in one envelope |
| Seed.AnswersAreTagFree | cmd/bridge/continuation.go:357-371 | no answer, truncated or not, brings a delimiter |
| Seed.SeedHasOneEnvelope | cmd/bridge/continuation.go:307-373 | before the original prompt each delimiter occurs exactly once, whatever the questions, file names and answers say |
| Seed.AgentStaysInside | cmd/bridge/continuation.go:271-287 | what is outside the envelope does not depend on what the agent wrote, questions and file names alike, but for how many there are |
| Seed.OperatorStaysOutside | cmd/bridge/continuation.go:288-298 | what is inside the envelope does not depend on what the operator answered |
| Seed.AnswerIsThere | cmd/bridge/continuation.go:364-371 | every turn's answer is there, after those before it and under its number, cleaned, with the notice iff it was cut |
| Seed.QuestionIsThere | cmd/bridge/continuation.go:331-337 | every turn's question is there, after those before it, under its number, agent and run |
| Seed.AgentIsThere | cmd/bridge/continuation.go:355-355 | a reader finds in the envelope exactly questions and files, cleaned and capped |
| Seed.NamesReadBack | cmd/bridge/continuation.go:344-349 | the list of names is read back as the names it was made of |
| Seed.FilesAreListed | cmd/bridge/continuation.go:338-354 | at most fifty names and exactly the first are listed, more announced iff there are more, and the bridge's own words count them all |
| Seed.PromptIsLast | cmd/bridge/continuation.go:373-373 | the chain's original prompt comes last, word for word |
| LineReading.ItemsAreTheLines | internal/run/stream.go:135-137 | one result a line, in order, exactly those over the limit replaced |
| LineReading.LinesOfWritten | internal/run/stream.go:148-149 | writing lines and reading them back gives the lines, each ended by a newline with or without a carriage return, and the last by either or nothing |
| LineReading.LineAcross | internal/run/stream.go:150-175 | a line begun in one piece ends as it would have whole |
| LineReading.BufReader.ReadLine | internal/run/stream.go:144-146 | whatever the buffer size, what is handed out is a piece of the unread input that cuts no carriage return off its newline, and the end or the fault is reported only when all was handed out |
| LineReading.LineReader.Next | internal/run/stream.go:150-175 | the next line however it arrives, an unterminated one that ends with the buffer included; a line over the limit is consumed to its end; a read that fails takes along at most an unended line |
| LineReading.ReadAll | internal/run/stream.go:150-175 | for every buffer size and every fall of the reads the results are the specified ones; a read that fails costs at most the last line, if nothing ends it |
| Capped.Capped.Append | internal/run/exec.go:498-511 | the first limit bytes of everything offered are kept, over iff more was |
| Capped.Capped.Drain | internal/run/exec.go:469-495 | the same for raw reads of any sizes |
| Capped.KeptOfKept | internal/run/exec.go:458-467 | keeping in stages is keeping at once, and what overflowed once is final |
| EventStream.RunNotes.SetVendorSession | internal/run/run.go:245-251 | the first id wins |
| EventStream.RunNotes.NoteVendorError | internal/run/run.go:262-272 | counted up to ten, kept if there is a text |
| EventStream.RunNotes.NoteVendorFailure | internal/run/run.go:277-286 | the first reason wins |
| EventStream.SpeakKeeps | internal/run/stream.go:96-119 | the answer so far is what the events so far amount to, a result record adding text only when no message preceded it |
| EventStream.NoteKeeps | internal/run/stream.go:87-127 | session, failure, error count, errors and the closed input are what the events so far amount to |
| EventStream.ConsumeKeeps | internal/run/stream.go:19-133 | answer, truncation and notes are what the events handled amount to, the overflow flag says whether the transcript stopped the run, and a failed transcript write is on record |
| EventStream.ConsumeInOrder | internal/run/stream.go:58-131 | the events handled are the first of those parsed, in order, and all of them unless the transcript's limit stops the run |
| EventStream.TranscriptTells | internal/run/stream.go:37-81 | the transcript is given the parsed events and a mark for each line too long, in order; it takes them up to the first write that fails, which leaves the diagnostic, or up to the one over its limit, after which nothing is given |
| EventStream.WholeStream | internal/run/stream.go:19-133 | of a stream read to its end or to a fault, with no transcript limit in the way, the answer kept is the first bytes of everything said, reported truncated iff more was said than fits or a line was too long |
| StreamObject.Append | internal/run/stream.go:37-57 | a failed write leaves a diagnostic and ends writing, an overfull transcript flags the run and cancels it |
| StreamObject.Hear | internal/run/stream.go:87-127 | the switch does to output and notes what the specification says |
| StreamObject.StreamEvents | internal/run/stream.go:19-133 | the loop does what consuming the lines one by one does, overflow, write failures and read faults with their diagnostics included |
| RateLimiter.Limiter.Compact | internal/policy/toggles.go:93-100 | the in-place compaction is the filter |
| RateLimiter.Limiter.Attempt | internal/policy/toggles.go:86-107 | the method computes the specified attempt |
| RateLimiter.RememberedEnough | internal/policy/toggles.go:93-100 | what is forgotten would never count again |
| RateLimiter.RefusedExactly | internal/policy/toggles.go:101-106 | an attempt is refused iff the minute before it already holds perMin admitted ones, over the whole history |
| RateLimiter.NoWindowExceeds | internal/policy/toggles.go:86-107 | no minute, wherever it falls, holds more than perMin admitted attempts |
| Argv.Index | internal/adapter/argv.go:87-98 | the first occurrence, or none |
| Argv.BuildArgs | internal/adapter/argv.go:42-80 | the loop assembles the elements' pieces in order and stops at the first refusal |
| Argv.ElementAccepted | internal/adapter/argv.go:42-93 | whatever the values, accepted are exactly text without placeholders, a known placeholder alone, and a known single-valued one bound to a flag |
| Argv.BuildAccepted | internal/adapter/argv.go:42-80 | a template is accepted iff every element is |
| Argv.BuildRefusesTheFirst | internal/adapter/argv.go:42-80 | a refusal names the first element refused, and why |
| Argv.BuildInOrder | internal/adapter/argv.go:42-80 | the arguments are those of the elements, in their order |
| Argv.PlainValues | internal/adapter/argv.go:109-131 | prompt, directory and gate file give their own values as they are |
| Argv.OptionalValues | internal/adapter/argv.go:100-131 | message, model, turns and session give their own values unless they are empty |
| Argv.ListValues | internal/adapter/argv.go:125-131 | each list gives its own flags, element by element |
| Argv.BoundGivesTheSame | internal/adapter/argv.go:63-72 | bound to a flag a placeholder gives the value it gives alone, kept even when empty |
| Argv.BoundArgumentSplits | internal/adapter/argv.go:63-72 | a bound argument split at its first '=' gives back exactly the flag and the value |
| Argv.PromptLandsWhole | internal/adapter/argv.go:49-72 | the prompt is one whole argument or the value of one flag |
| Argv.PromptDoesNotInterfere | internal/adapter/argv.go:42-134 | two prompts give the same refusal, or argument lists of one length from the same elements that differ only where the prompt goes |
| Argv.ExtractPlaceholders | internal/config/semantics.go:281-295 | the scanner's loop |
| Argv.ValidateArgs | internal/config/semantics.go:265-279 | the first element that is a bypass flag or holds an unknown placeholder is reported, with that placeholder |
| Argv.BypassesAreCaught | internal/config/semantics.go:265-274 | forbidden flags are caught bare, with a value and with anything hyphenated on to them |
| Argv.ScannerAgrees | internal/config/semantics.go:281-295 | in an acceptable element the scanner finds the one placeholder it holds and nothing else |
| Argv.BuilderImpliesLoader | internal/config/semantics.go:265-279 | of a template the builder accepts under any values the loader can object to nothing but bypass flags |
| Argv.LoaderPassesInterpolation | internal/adapter/argv.go:74-93 | text before or after a known placeholder passes the loader; the builder takes it iff there is none, or it is a flag and '=' before a single-valued placeholder |
| Argv.BuilderTakesExactly | internal/adapter/argv.go:42-93 | of the elements whose every placeholder the loader knows, the builder takes exactly those without an opening pair and those that are one placeholder or bind a single-valued one to a flag |
| Argv.LoaderPassesBoundList | internal/adapter/argv.go:69-71 | the loader passes a list bound to a flag, the builder refuses it |
| Argv.LoaderPassesStrayBrace | internal/adapter/argv.go:82-85 | the loader passes a placeholder followed by a brace, the builder does not know it |
| Supervise.RunKeeps | internal/run/exec.go:312-346 | every interleaving of waiter, supervisor, timer, cancellation, readers and child keeps the handshake's invariant |
| Supervise.WaitedForOnce | internal/run/exec.go:312-414 | cmd.Wait is called at most once and by the end exactly once, and its result decides between completed and failed |
| Supervise.ReapFindsItsResult | internal/run/exec.go:340-346 | when reap comes for the waiter's result it is there; otherwise the leader is an unreaped zombie nobody has waited for |
| Supervise.KillsPrecedeTheReap | internal/run/exec.go:362-414 | whenever WaitExit succeeded every KillAll precedes the reap |
| Supervise.KillsAreMade | internal/run/exec.go:362-456 | under every schedule the group is killed: once past its kill when timer or cancellation woke the supervisor, on every path before it reaps, and once more, before the second wait begins, iff the first wait of the grace ran out |
| Supervise.OrdinaryExit | internal/run/exec.go:355-396 | a schedule in which the exit wait succeeds, the group is killed while its leader is a zombie, and the run completes |
| Supervise.OutcomeIsTheCause | internal/run/exec.go:355-414 | the outcome is that of whatever woke the supervisor and, for an exit, of the one wait; readers count as stuck iff all three waits ran out |
| Supervise.WaiterEnds | internal/run/exec.go:319-339 | once the child is dead the waiter closes exited on its own |
| Supervise.SupervisorEnds | internal/run/exec.go:362-414 | with exited closed the supervisor finishes without waiting for anyone |
| Supervise.NobodyStranded | internal/run/exec.go:312-456 | from every reachable state a schedule of the child's death, the waiter and the supervisor finishes the run |
| Supervise.EveryStepCounts | internal/run/exec.go:312-456 | every step that is taken, by whomever and in whatever stage of the grace periods, lowers one rank |
| Supervise.EveryScheduleFinishes | internal/run/exec.go:312-456 | under every schedule at most eighteen steps are taken, and none can be taken iff the run is done and the waiter gone |

## Left out

- ElicitationRelaysOnlyItsOwn: does not promise that an operator answer is never lost there, because it can be; the exact condition is proved instead.
- TerminalIsAbsorbing: does not promise that the whole report is final, because the diagnostic may still be written once.
- EnvelopesAreDelimited: asks that source and run hold no '<'; what counts as printable to the `%q` verb is arbitrary.
- SeedHasOneEnvelope: asks that the agent's name and the run's id hold no '<', and says nothing of the original prompt, which is the caller's and is appended as it is.
- EnvelopeHolds: asks that a newline is no printable character, as Unicode has it.
- WholeStream: speaks of transcripts that never overflow; overflow is covered by ConsumeInOrder and StreamEvents.
- LineReading.BufReader.ReadLine: stands for the standard library's buffered reader, as far as ReadLine goes; a read that failed once is taken to fail again.
- NoWindowExceeds: asks for a clock that never steps back, as the monotonic clock of the standard library does.
- SweepIsOneLook: speaks of a sweep that nothing disturbs; NothingIsDueAfterSweep covers a disturbed one.
- NothingIsDueAfterSweep: speaks of the sweep's own instant; a deadline may pass between the sweep and the lookup that follows it.
- QuietRetryMeetsTheSameDecision: compares a retry with a call in which nothing else moves, since any expiry or exit meanwhile may rightly change the decision.
- BridgeObject.ChangeStore.Discard: does not remove the checkout from disk nor report that removal's error.
- BridgeObject.BridgeServer.BuildingSpec: takes arguments, parser and transcript as one answer, whether all three could be had; the arguments are in Argv.
- BridgeObject.BridgeServer.ContinueRun: leaves out the audit entries; the seed's text is in Seed.
- BridgeObject.BridgeServer.Resuming: leaves out how the changed files are listed, and the seed's text, which is in Seed.
- BridgeObject.BridgeServer.CollectingDiff: leaves out that the checkout is removed when the diff fails, the list of changed files and the audit entries.
- BridgeObject.BridgeServer.AcceptFromAgent: leaves out the refusal of an accepted diff, whose entry is dropped in the same operation that accepts it, and the audit entries.
- StreamObject.Append: does not model how a transcript writes an event, only which it was given and whether it could; the fixed text that marks a line too long is not modelled.
- ContinueAnswersExactly: speaks of a call in which nothing else moves; what may happen otherwise is FailedContinueIsNoOp and ContinueExtendsTheChain.
- AskAnswersExactly: likewise; RefusedAskIsNoOp and AskAdds speak of every call.
- Runs in the registry and the bridge are values kept by id, not shared objects: aliasing between a run handle and the registry's map is not captured there. The Run class is proved against the same functions on its own.
- Insertion of a successor and the retirement of its predecessor are one step, as they are under the registry's lock; the retired run's own lock inside that section is not a separate step.
- A cancel function is a flag saying that cancellation was requested; contexts are not modelled.
- The guards that keep done from being closed twice where it cannot be open are shown redundant rather than copied.
- A spent rate-limiter slot is not given back when a later step of the same attempt fails; authorisation is one arbitrary answer here.
- The approval branch of the gate's Resolve and the reading of the vendor's question: answered from one field.
- Steering messages, the agent's steering cap and watcher counts: counters beside the protocol.
- Panics in supervise, every path of supervise before the waiter is started, and the diagnostics it records, which are RunLifecycle's.
- Git, processes, sockets, files, process groups, schema and YAML loading, vendor parsers, the transcript's file and audit rotation, the TUI, command-line verbs and platform code: outside calls, parameters here.
- Functions that only list or report (getChanges, List, Snapshot beyond the shown question), feature toggles and the single semantic rules of the loader other than placeholders and bypass flags: they would add easy members only.
- Test hooks that bypass admission.
