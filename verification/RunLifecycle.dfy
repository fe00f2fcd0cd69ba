/** The life of one delegated run: its states, its pending question and its
    consume-once resources. Every critical section of the run's own lock is one
    function from the old value to the new one, together with what the code does
    after unlocking (internal/run/run.go, question.go, continuation.go). */
module RunLifecycle {
  import opened Wrappers

  /** Bridge-minted run ids; only their equality matters. */
  type RunId = nat

  /** Identities of verdict channels. */
  type ChanId = nat

  datatype State =
    Running | Completed | Failed | Cancelled | Refused | NeedsInput | Superseded
  {
    predicate IsTerminal() {
      Completed? || Failed? || Cancelled? || Refused? || Superseded?
    }
  }

  /** Instants are integers; None is Go's zero time. */
  datatype Question = Question(id: string, text: string, asked: Option<int>, deadline: Option<int>)

  datatype Verdict = Verdict(deny: bool, message: string)

  datatype Mode = ReadOnly | Write

  datatype QATurn = QATurn(question: Question, answer: string)

  datatype ContinuationRecord = ContinuationRecord(
    prompt: string, mode: Mode, confined: bool, turns: seq<QATurn>, depth: nat)

  /** An opaque checkout handle. */
  datatype Worktree = Worktree(branch: nat)

  datatype Event = Expired(run: RunId) | SupersededBy(run: RunId, successor: RunId)

  /** What a run hands to its caller and its operator. */
  datatype Report = Report(output: string, failure: string, diag: string, exitCode: Option<int>, truncated: bool)

  /** The fields of a run that its methods read or write. */
  datatype RunView = RunView(
    id: RunId,
    confined: bool,
    resumedFrom: Option<RunId>,
    state: State,
    retiring: bool,
    report: Report,
    finished: Option<int>,
    doneClosed: bool,
    awaited: bool,
    pending: Option<Question>,
    verdict: Option<ChanId>,
    lastQuestion: Option<Question>,
    deadline: Option<int>,
    worktree: Option<Worktree>,
    continuation: Option<ContinuationRecord>,
    resumedBy: Option<RunId>)
  {
    predicate CountsAsLive() { !state.IsTerminal() && !retiring }
  }

  const EXPIRY_REASON := "no operator answered before the question's deadline"

  /** A run as Registry.Start builds it. */
  function Fresh(id: RunId, confined: bool, worktree: Option<Worktree>,
                    continuation: Option<ContinuationRecord>, resumedFrom: Option<RunId>): RunView
  {
    RunView(id, confined, resumedFrom, Running, false, Report("", "", "", None, false), None, false, false,
            None, None, None, None, worktree, continuation, None)
  }

  // ---------------------------------------------------------------- critical sections

  /** A verdict whose channel was cleared under the lock and is sent after it. */
  datatype Send = Send(ch: ChanId, verdict: Verdict)

  /** What one critical section did: the new value, whether it closed `done`,
      the send it owes and the audit transition it dispatches after unlocking. */
  datatype Effect = Effect(view: RunView, closesDone: bool, send: Option<Send>, event: Option<Event>)

  function Only(v: RunView): Effect { Effect(v, false, None, None) }

  datatype AskError = RunNotLive | QuestionPending
  datatype ResolveError = NoQuestion | QuestionChanged
  datatype ContinuationError = NotAwaitingInput | ContinuationUnavailable

  function AskRefusal(v: RunView): Option<AskError> {
    if v.state.IsTerminal() || v.state == NeedsInput then Some(RunNotLive)
    else if v.pending.Some? then Some(QuestionPending)
    else None
  }

  function Stamped(q: Question, now: int): Question {
    if q.asked.None? then q.(asked := Some(now)) else q
  }

  function Ask(v: RunView, q: Question, ch: ChanId, now: int): RunView {
    if AskRefusal(v).Some? then v
    else
      var q' := Stamped(q, now);
      v.(pending := Some(q'), lastQuestion := Some(q'), verdict := Some(ch))
  }

  /** The empty id resolves whatever is pending. */
  function ResolveRefusal(v: RunView, wantId: string): Option<ResolveError> {
    if v.pending.None? then Some(NoQuestion)
    else if wantId != "" && v.pending.value.id != wantId then Some(QuestionChanged)
    else None
  }

  function PendingSend(v: RunView, verdict: Verdict): Option<Send> {
    if v.pending.Some? && v.verdict.Some? then Some(Send(v.verdict.value, verdict)) else None
  }

  function Released(v: RunView): RunView { v.(pending := None, verdict := None) }

  function Resolve(v: RunView, wantId: string, verdict: Verdict): Effect {
    if ResolveRefusal(v, wantId).Some? then Only(v)
    else Effect(Released(v), false, PendingSend(v, verdict), None)
  }

  /** The rest period is the question's own asked-to-deadline span, measured from now. */
  function RestDeadline(v: RunView, now: int): Option<int> {
    match v.lastQuestion
    case Some(Question(_, _, Some(asked), Some(deadline))) =>
      if deadline - asked > 0 then Some(now + (deadline - asked)) else v.deadline
    case _ => v.deadline
  }

  function EnterNeedsInput(v: RunView, reason: string, now: int): Effect {
    if v.state.IsTerminal() || v.state == NeedsInput then Only(v)
    else
      Effect(Released(v).(state := NeedsInput, report := v.report.(failure := reason), deadline := RestDeadline(v, now),
                          doneClosed := true),
             !v.doneClosed, PendingSend(v, Verdict(true, reason)), None)
  }

  /** What a child's end reports. */
  datatype Exit = Exit(state: State, report: Report)

  predicate ExitState(s: State) { s == Completed || s == Failed || s == Cancelled }

  function MergeDiag(was: string, diag: string): string {
    if was == "" then diag else if diag != "" then was + "; " + diag else was
  }

  function Finish(v: RunView, x: Exit, now: int): Effect {
    if v.state.IsTerminal() || v.state == NeedsInput then Only(v)
    else
      Effect(Released(v).(state := x.state, report := x.report.(diag := MergeDiag(v.report.diag, x.report.diag)),
                          finished := Some(now), doneClosed := true),
             !v.doneClosed, PendingSend(v, Verdict(true, x.report.failure)), None)
  }

  predicate Due(v: RunView, now: int) {
    v.state == NeedsInput && v.deadline.Some? && now > v.deadline.value
  }

  function Expire(v: RunView, now: int): Effect {
    if !Due(v, now) then Only(v)
    else
      var report := v.report.(failure := EXPIRY_REASON, diag := EXPIRY_REASON);
      var failed := v.(state := Failed, report := report, finished := Some(now));
      Effect(if v.pending.Some? && v.verdict.Some? then Released(failed) else failed,
             false, PendingSend(v, Verdict(true, EXPIRY_REASON)), Some(Expired(v.id)))
  }

  function Supersede(v: RunView, successor: RunId, now: int): Effect {
    if v.state != NeedsInput then Only(v)
    else
      Effect(v.(state := Superseded, resumedBy := Some(successor), continuation := None,
                finished := Some(now), doneClosed := true),
             !v.doneClosed, None, Some(SupersededBy(v.id, successor)))
  }

  function TakeRefusal(v: RunView): Option<ContinuationError> {
    if v.state != NeedsInput then Some(NotAwaitingInput)
    else if v.continuation.None? then Some(ContinuationUnavailable)
    else None
  }

  function TakeContinuation(v: RunView): RunView {
    if TakeRefusal(v).Some? then v else v.(continuation := None)
  }

  predicate DepthAllowed(rec: ContinuationRecord, maxContinuations: int) {
    rec.depth + 1 <= maxContinuations
  }

  /** An operator-facing fault may be recorded in any state, the first one only. */
  function SetDiagnostic(v: RunView, msg: string): RunView {
    if v.report.diag == "" then v.(report := v.report.(diag := msg)) else v
  }

  /** The question a snapshot shows: the pending one, else the retained one while resting. */
  function ShownQuestion(v: RunView): Option<Question> {
    if v.pending.Some? then v.pending
    else if v.state == NeedsInput then v.lastQuestion
    else None
  }

  // ---------------------------------------------------------------- whole runs

  /** Every way these fields change after Start. */
  datatype Op =
    | OpAsk(q: Question, ch: ChanId, now: int)
    | OpResolve(wantId: string, verdict: Verdict)
    | OpNeedsInput(reason: string, now: int)
    | OpFinish(exit: Exit, now: int)
    | OpExpire(now: int)
    | OpSupersede(successor: RunId, now: int)
    | OpTakeContinuation
    | OpSetContinuation(rec: ContinuationRecord)
    | OpTakeWorktree
    | OpRetire
    | OpAwait
    | OpSetDiagnostic(msg: string)

  predicate OpOk(op: Op) { op.OpFinish? ==> ExitState(op.exit.state) }

  function Apply(v: RunView, op: Op): Effect {
    match op
    case OpAsk(q, ch, now) => Only(Ask(v, q, ch, now))
    case OpResolve(wantId, verdict) => Resolve(v, wantId, verdict)
    case OpNeedsInput(reason, now) => EnterNeedsInput(v, reason, now)
    case OpFinish(exit, now) => Finish(v, exit, now)
    case OpExpire(now) => Expire(v, now)
    case OpSupersede(successor, now) => Supersede(v, successor, now)
    case OpTakeContinuation => Only(TakeContinuation(v))
    case OpSetContinuation(rec) => Only(v.(continuation := Some(rec)))
    case OpTakeWorktree => Only(v.(worktree := None))
    case OpRetire => Only(v.(retiring := true))
    case OpAwait => Only(v.(awaited := true))
    case OpSetDiagnostic(msg) => Only(SetDiagnostic(v, msg))
  }

  /** What every step keeps. */
  predicate Inv(v: RunView) {
    && v.state != Refused
    && (v.doneClosed <==> v.state != Running)
    && (v.pending.Some? ==> v.state == Running)
    && (v.pending.Some? <==> v.verdict.Some?)
    && (v.finished.Some? <==> v.state.IsTerminal())
    && (v.resumedBy.Some? <==> v.state == Superseded)
    && (v.state == Running ==> v.deadline.None?)
  }

  lemma StepKeepsInv(v: RunView, op: Op)
    requires Inv(v) && OpOk(op)
    ensures Inv(Apply(v, op).view)
  {
  }

  function Run(v: RunView, ops: seq<Op>): RunView
    decreases |ops|
  {
    if ops == [] then v else Run(Apply(v, ops[0]).view, ops[1..])
  }

  predicate OpsOk(ops: seq<Op>) { forall i :: 0 <= i < |ops| ==> OpOk(ops[i]) }

  /** How often `done` was closed along the way. */
  function DoneCloses(v: RunView, ops: seq<Op>): nat
    decreases |ops|
  {
    if ops == [] then 0
    else (if Apply(v, ops[0]).closesDone then 1 else 0) + DoneCloses(Apply(v, ops[0]).view, ops[1..])
  }

  /** The audit transitions dispatched along the way, in order. */
  function Events(v: RunView, ops: seq<Op>): seq<Event>
    decreases |ops|
  {
    if ops == [] then []
    else
      var e := Apply(v, ops[0]);
      (if e.event.Some? then [e.event.value] else []) + Events(e.view, ops[1..])
  }

  lemma {:induction false} RunKeepsInv(v: RunView, ops: seq<Op>)
    requires Inv(v) && OpsOk(ops)
    ensures Inv(Run(v, ops))
    decreases |ops|
  {
    if ops != [] {
      assert OpOk(ops[0]);
      StepKeepsInv(v, ops[0]);
      RunKeepsInv(Apply(v, ops[0]).view, ops[1..]);
    }
  }

  function NextDiag(diag: string, op: Op): string {
    if diag == "" && op.OpSetDiagnostic? then op.msg else diag
  }

  /** The diagnostic of a run that nothing settles: the one it has, or else the first recorded. */
  function FirstDiag(diag: string, ops: seq<Op>): string
    decreases |ops|
  {
    if ops == [] then diag else FirstDiag(NextDiag(diag, ops[0]), ops[1..])
  }

  lemma {:induction false} FirstDiagSticks(diag: string, ops: seq<Op>)
    requires diag != ""
    ensures FirstDiag(diag, ops) == diag
    decreases |ops|
  {
    if ops != [] { FirstDiagSticks(diag, ops[1..]); }
  }

  /** What a settled run reports, its diagnostic apart. */
  predicate SameResult(v: RunView, w: RunView) {
    && w.state == v.state && w.report == v.report.(diag := w.report.diag) && w.finished == v.finished
    && w.resumedBy == v.resumedBy && w.doneClosed == v.doneClosed
  }

  /** The steps that happen to a run on their own, outside the bridge's own operations on it. */
  predicate Environment(op: Op) {
    op.OpAsk? || op.OpResolve? || op.OpNeedsInput? || op.OpFinish? || op.OpExpire? || op.OpAwait? || op.OpSetDiagnostic?
  }

  predicate EnvironmentOps(ops: seq<Op>) {
    forall i :: 0 <= i < |ops| ==> Environment(ops[i]) && OpOk(ops[i])
  }

  /** v, but for having been awaited and for its diagnostic. */
  function Remarked(v: RunView, awaited: bool, diag: string): RunView {
    v.(awaited := awaited, report := v.report.(diag := diag))
  }

  /** What one step may do to a run that nothing moves. */
  function Noted(v: RunView, op: Op): RunView {
    Remarked(v, v.awaited || op.OpAwait?, NextDiag(v.report.diag, op))
  }

  lemma TerminalStep(v: RunView, op: Op)
    requires Inv(v) && OpOk(op) && v.state.IsTerminal()
    ensures SameResult(v, Apply(v, op).view) && Apply(v, op).event.None?
    ensures Apply(v, op).view.report.diag == NextDiag(v.report.diag, op)
    ensures Environment(op) ==> Apply(v, op).view == Noted(v, op)
  {
    if op.OpAsk? || op.OpResolve? || op.OpNeedsInput? || op.OpFinish? || op.OpExpire? || op.OpSupersede? {
      assert Apply(v, op).view == v && Apply(v, op).event.None?;
    } else {
      hide Ask, Resolve, EnterNeedsInput, Finish, Expire, Supersede;
    }
  }

  lemma RestingStep(v: RunView, op: Op)
    requires Inv(v) && OpOk(op) && Environment(op) && v.state == NeedsInput
    ensures Apply(v, op).view == if op.OpExpire? && Due(v, op.now) then Expire(v, op.now).view else Noted(v, op)
  {
  }

  /** The first terminal state wins, with everything it reports but the diagnostic, and is
      silent ever after; the diagnostic, if there was none, is the first one recorded. */
  lemma {:induction false} TerminalIsAbsorbing(v: RunView, ops: seq<Op>)
    requires Inv(v) && OpsOk(ops) && v.state.IsTerminal()
    ensures SameResult(v, Run(v, ops))
    ensures Run(v, ops).report.diag == FirstDiag(v.report.diag, ops)
    ensures Events(v, ops) == []
    decreases |ops|
  {
    if ops != [] {
      assert OpOk(ops[0]);
      StepKeepsInv(v, ops[0]);
      TerminalStep(v, ops[0]);
      TerminalIsAbsorbing(Apply(v, ops[0]).view, ops[1..]);
    }
  }

  /** So the diagnostic of a settled run changes at most once, and only from nothing. */
  lemma DiagnosticSticks(v: RunView, before: seq<Op>, after: seq<Op>)
    requires Inv(v) && OpsOk(before) && OpsOk(after) && v.state.IsTerminal()
    ensures Run(v, before).report.diag != "" ==> Run(Run(v, before), after).report == Run(v, before).report
  {
    TerminalIsAbsorbing(v, before);
    RunKeepsInv(v, before);
    TerminalIsAbsorbing(Run(v, before), after);
    if Run(v, before).report.diag != "" { FirstDiagSticks(Run(v, before).report.diag, after); }
  }

  /** It does change: a superseded run without a diagnostic takes the first one, when the
      supervisor of its cancelled child comes to record it. */
  lemma SettledRunTakesADiagnostic(v: RunView, reason: string, now: int, successor: RunId, msg: string)
    requires Inv(v) && v.state == Running && v.report.diag == "" && msg != ""
    ensures var w := Supersede(EnterNeedsInput(v, reason, now).view, successor, now).view;
            && w.state == Superseded && w.report.diag == ""
            && SetDiagnostic(w, msg).report.diag == msg
  {
  }

  lemma DoneStep(v: RunView, op: Op)
    requires Inv(v) && OpOk(op)
    ensures Apply(v, op).closesDone <==> v.state == Running && Apply(v, op).view.state != Running
    ensures v.state != Running ==> Apply(v, op).view.state != Running
  {
  }

  /** `done` is closed at most once over any run, and it is closed exactly when the run is not running. */
  lemma {:induction false} DoneClosesOnce(v: RunView, ops: seq<Op>)
    requires Inv(v) && OpsOk(ops)
    ensures DoneCloses(v, ops) == if v.state == Running && Run(v, ops).state != Running then 1 else 0
    ensures v.state != Running ==> Run(v, ops).state != Running
    decreases |ops|
  {
    if ops != [] {
      hide Apply, Inv;
      assert OpOk(ops[0]);
      StepKeepsInv(v, ops[0]);
      DoneStep(v, ops[0]);
      DoneClosesOnce(Apply(v, ops[0]).view, ops[1..]);
    }
  }

  /** needs_input is left by a passed deadline or by a successor, and by nothing else. */
  lemma NeedsInputExits(v: RunView, op: Op)
    requires Inv(v) && v.state == NeedsInput
    ensures Apply(v, op).view.state != NeedsInput
       <==> (op.OpExpire? && Due(v, op.now)) || op.OpSupersede?
    ensures op.OpExpire? && Due(v, op.now) ==> Apply(v, op).view.state == Failed
    ensures op.OpSupersede? ==> Apply(v, op).view.state == Superseded
  {
  }

  /** One step of a resting run, and what it says about it. */
  lemma RestingSays(v: RunView, op: Op)
    requires Inv(v) && OpOk(op) && v.state == NeedsInput
    ensures var e := Apply(v, op);
            match e.view.state
            case NeedsInput => e.event.None? && e.view.id == v.id
            case Failed => e.event == Some(Expired(v.id))
            case Superseded => e.view.resumedBy.Some? && e.event == Some(SupersededBy(v.id, e.view.resumedBy.value))
            case _ => false
  {
  }

  /** A resting run stays, fails or is superseded, with exactly one audit transition when it moves. */
  lemma {:induction false} RestingRun(v: RunView, ops: seq<Op>)
    requires Inv(v) && OpsOk(ops) && v.state == NeedsInput
    ensures match Run(v, ops).state
            case NeedsInput => Events(v, ops) == []
            case Failed => Events(v, ops) == [Expired(v.id)]
            case Superseded =>
              Run(v, ops).resumedBy.Some? && Events(v, ops) == [SupersededBy(v.id, Run(v, ops).resumedBy.value)]
            case _ => false
    decreases |ops|
  {
    if ops != [] {
      hide Apply, Inv;
      assert OpOk(ops[0]);
      StepKeepsInv(v, ops[0]);
      RestingSays(v, ops[0]);
      var e := Apply(v, ops[0]);
      if e.view.state == NeedsInput {
        RestingRun(e.view, ops[1..]);
      } else {
        TerminalIsAbsorbing(e.view, ops[1..]);
      }
    }
  }

  /** Whatever happened since Start, the release inside expiry has nothing to release. */
  lemma ExpiryNeverReleases(id: RunId, confined: bool, worktree: Option<Worktree>, rec: Option<ContinuationRecord>,
                               from: Option<RunId>, ops: seq<Op>, now: int)
    requires OpsOk(ops)
    ensures Expire(Run(Fresh(id, confined, worktree, rec, from), ops), now).send.None?
  {
    RunKeepsInv(Fresh(id, confined, worktree, rec, from), ops);
  }

  // ---------------------------------------------------------------- how long a run rests

  /** The pending question is the one retained. */
  predicate Retained(v: RunView) { v.pending.Some? ==> v.lastQuestion == v.pending }

  lemma {:induction false} RunKeepsRetained(v: RunView, ops: seq<Op>)
    requires Inv(v) && Retained(v) && OpsOk(ops)
    ensures Retained(Run(v, ops))
    decreases |ops|
  {
    if ops != [] {
      assert OpOk(ops[0]);
      StepKeepsInv(v, ops[0]);
      StepKeepsRetained(v, ops[0]);
      RunKeepsRetained(Apply(v, ops[0]).view, ops[1..]);
    }
  }

  lemma StepKeepsRetained(v: RunView, op: Op)
    requires Inv(v) && Retained(v) && OpOk(op)
    ensures Retained(Apply(v, op).view)
  {
  }

  /** How long the operator was to have for a question; none when it never was to end. */
  function Span(q: Option<Question>): Option<int> {
    match q
    case Some(Question(_, _, Some(asked), Some(deadline))) => if deadline > asked then Some(deadline - asked) else None
    case _ => None
  }

  /** A run that stops for input rests for exactly the span its last question was to have,
      counted from the moment it stopped, and for ever without one. */
  lemma RestsForTheQuestionsSpan(id: RunId, confined: bool, worktree: Option<Worktree>, rec: Option<ContinuationRecord>,
                                 from: Option<RunId>, ops: seq<Op>, reason: string, now: int, later: int)
    requires OpsOk(ops) && Run(Fresh(id, confined, worktree, rec, from), ops).state == Running
    ensures var v := Run(Fresh(id, confined, worktree, rec, from), ops);
            var w := EnterNeedsInput(v, reason, now).view;
            && (v.pending.Some? ==> w.lastQuestion == v.pending)
            && (Due(w, later) <==> Span(v.lastQuestion).Some? && later - now > Span(v.lastQuestion).value)
  {
    RunKeepsInv(Fresh(id, confined, worktree, rec, from), ops);
    RunKeepsRetained(Fresh(id, confined, worktree, rec, from), ops);
  }

  // ---------------------------------------------------------------- what others may do to a run

  /** w is v, but for time-driven expiry, for having been awaited, and for a diagnostic it
      did not have; expiry writes its own. */
  ghost predicate SameButExpired(v: RunView, w: RunView) {
    || (w == Remarked(v, w.awaited, w.report.diag) && (v.report.diag != "" ==> w.report.diag == v.report.diag))
    || exists now :: Due(v, now) && w == Expire(v, now).view.(awaited := w.awaited)
  }

  /** A settled run is left alone, but for having been awaited and for the first diagnostic. */
  lemma {:induction false} SettledUntouched(v: RunView, ops: seq<Op>)
    requires Inv(v) && EnvironmentOps(ops) && v.state.IsTerminal()
    ensures Run(v, ops) == Remarked(v, Run(v, ops).awaited, FirstDiag(v.report.diag, ops))
    decreases |ops|
  {
    if ops != [] {
      assert Environment(ops[0]) && OpOk(ops[0]);
      StepKeepsInv(v, ops[0]);
      TerminalStep(v, ops[0]);
      SettledUntouched(Apply(v, ops[0]).view, ops[1..]);
    }
  }

  lemma ExpiresAlike(v: RunView, awaited: bool, diag: string, now: int)
    ensures Due(Remarked(v, awaited, diag), now) == Due(v, now)
    ensures Due(v, now) ==> Expire(Remarked(v, awaited, diag), now).view == Expire(v, now).view.(awaited := awaited)
  {
  }

  lemma StillSameButExpired(v: RunView, op: Op, w: RunView)
    requires SameButExpired(Noted(v, op), w)
    ensures SameButExpired(v, w)
  {
    var u := Noted(v, op);
    if exists now :: Due(u, now) && w == Expire(u, now).view.(awaited := w.awaited) {
      var now :| Due(u, now) && w == Expire(u, now).view.(awaited := w.awaited);
      ExpiresAlike(v, u.awaited, u.report.diag, now);
      assert Due(v, now) && w == Expire(v, now).view.(awaited := w.awaited);
    }
  }

  /** A resting run is beyond questions, answers and the child's belated exit: only time
      moves it, and at most a diagnostic is noted on it. */
  lemma {:induction false} RestingUntouched(v: RunView, ops: seq<Op>)
    requires Inv(v) && EnvironmentOps(ops) && v.state == NeedsInput
    ensures SameButExpired(v, Run(v, ops))
    decreases |ops|
  {
    if ops != [] {
      assert Environment(ops[0]) && OpOk(ops[0]);
      StepKeepsInv(v, ops[0]);
      RestingStep(v, ops[0]);
      var u := Apply(v, ops[0]).view;
      if ops[0].OpExpire? && Due(v, ops[0].now) {
        var now := ops[0].now;
        SettledUntouched(u, ops[1..]);
        FirstDiagSticks(EXPIRY_REASON, ops[1..]);
        assert Due(v, now) && Run(u, ops[1..]) == Expire(v, now).view.(awaited := Run(u, ops[1..]).awaited);
      } else {
        RestingUntouched(u, ops[1..]);
        StillSameButExpired(v, ops[0], Run(u, ops[1..]));
      }
    }
  }
}
