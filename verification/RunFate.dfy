/** What becomes of a run, told by its history: the first exit or the first stop decides,
    a question asked is the one shown, and an answer to another question is refused
    (internal/run/run.go, question.go, continuation.go). */
module RunFate {
  import opened Wrappers
  import opened RunLifecycle

  // ---------------------------------------------------------------- histories in parts

  lemma {:induction false} RunInParts(v: RunView, a: seq<Op>, b: seq<Op>)
    ensures Run(v, a + b) == Run(Run(v, a), b)
    decreases |a|
  {
    if a == [] {
      assert a + b == b;
    } else {
      assert (a + b)[1..] == a[1..] + b;
      RunInParts(Apply(v, a[0]).view, a[1..], b);
    }
  }

  lemma RunOne(v: RunView, op: Op)
    ensures Run(v, [op]) == Apply(v, op).view
  {
    assert [op][1..] == [];
  }

  lemma OneBetween(v: RunView, before: seq<Op>, op: Op, after: seq<Op>)
    ensures Run(v, before + [op] + after) == Run(Apply(Run(v, before), op).view, after)
  {
    RunInParts(v, before + [op], after);
    RunInParts(v, before, [op]);
    RunOne(Run(v, before), op);
  }

  // ---------------------------------------------------------------- while it runs

  /** Nothing that ends a run or stops it for input. */
  predicate Undecided(ops: seq<Op>) {
    OpsOk(ops) && forall i :: 0 <= i < |ops| ==> !ops[i].OpFinish? && !ops[i].OpNeedsInput?
  }

  lemma StepStaysRunning(v: RunView, op: Op)
    requires Inv(v) && v.state == Running && OpOk(op) && !op.OpFinish? && !op.OpNeedsInput?
    ensures var w := Apply(v, op).view;
      w.state == Running && w.report == v.report.(diag := NextDiag(v.report.diag, op))
  {
  }

  lemma {:induction false} StaysRunning(v: RunView, ops: seq<Op>)
    requires Inv(v) && v.state == Running && Undecided(ops)
    ensures var w := Run(v, ops);
      Inv(w) && w.state == Running && w.report == v.report.(diag := FirstDiag(v.report.diag, ops))
    decreases |ops|
  {
    if ops != [] {
      assert OpOk(ops[0]);
      StepKeepsInv(v, ops[0]);
      StepStaysRunning(v, ops[0]);
      StaysRunning(Apply(v, ops[0]).view, ops[1..]);
    }
  }

  // ---------------------------------------------------------------- it ends

  /** Both are there, the earlier one in front. */
  predicate InFrontOf(was: string, now: string, all: string) {
    && was <= all && |now| <= |all| && all[|all| - |now|..] == now
    && (was == "" ==> all == now) && (now == "" ==> all == was)
    && (was != "" && now != "" ==> |all| == |was| + 2 + |now| && all[|was|..|was| + 2] == "; ")
  }

  /** A run that never rested is what its first exit says, whatever follows: its state, the
      moment it finished and all it reports, an earlier diagnostic kept in front. */
  lemma FirstExitDecides(v: RunView, before: seq<Op>, x: Exit, now: int, after: seq<Op>)
    requires Inv(v) && v.state == Running && Undecided(before) && ExitState(x.state) && OpsOk(after)
    ensures var w := Run(v, before + [OpFinish(x, now)] + after);
      && w.state == x.state && w.finished == Some(now) && w.resumedBy.None?
      && w.report.output == x.report.output && w.report.failure == x.report.failure
      && w.report.exitCode == x.report.exitCode && w.report.truncated == x.report.truncated
      && exists diag :: InFrontOf(FirstDiag(v.report.diag, before), x.report.diag, diag)
                        && w.report.diag == FirstDiag(diag, after)
  {
    var op := OpFinish(x, now);
    var u := Run(v, before);
    StaysRunning(v, before);
    OneBetween(v, before, op, after);
    StepKeepsInv(u, op);
    TerminalIsAbsorbing(Apply(u, op).view, after);
    assert InFrontOf(u.report.diag, x.report.diag, Apply(u, op).view.report.diag);
  }

  // ---------------------------------------------------------------- or it stops for input

  /** Nothing takes a run from its rest: no successor, no look past its deadline. */
  predicate Undisturbed(ops: seq<Op>, deadline: Option<int>) {
    && OpsOk(ops)
    && forall i :: 0 <= i < |ops| ==>
         && !ops[i].OpSupersede?
         && (ops[i].OpExpire? ==> deadline.None? || ops[i].now <= deadline.value)
  }

  /** What a rest keeps. */
  predicate SameRest(v: RunView, w: RunView) {
    && w.state == NeedsInput && w.deadline == v.deadline && w.lastQuestion == v.lastQuestion
    && w.report == v.report.(diag := w.report.diag)
  }

  lemma StepStaysResting(v: RunView, op: Op)
    requires Inv(v) && v.state == NeedsInput && OpOk(op) && !op.OpSupersede?
    requires op.OpExpire? ==> v.deadline.None? || op.now <= v.deadline.value
    ensures SameRest(v, Apply(v, op).view)
  {
  }

  lemma {:induction false} StaysResting(v: RunView, ops: seq<Op>)
    requires Inv(v) && v.state == NeedsInput && Undisturbed(ops, v.deadline)
    ensures Inv(Run(v, ops)) && SameRest(v, Run(v, ops))
    decreases |ops|
  {
    if ops != [] {
      assert OpOk(ops[0]);
      StepKeepsInv(v, ops[0]);
      StepStaysResting(v, ops[0]);
      StaysResting(Apply(v, ops[0]).view, ops[1..]);
    }
  }

  /** When the operator's time is up: the question's own span after the run came to rest. */
  function RestEnd(q: Option<Question>, now: int): Option<int> {
    match Span(q) case None => None case Some(span) => Some(now + span)
  }

  /** The run at the moment it came to rest, and all through its rest: the reason is what it
      reports, with nothing of its output lost, and the deadline the span of its question. */
  lemma FirstStopDecides(v: RunView, before: seq<Op>, reason: string, now: int, during: seq<Op>)
    requires Inv(v) && v.state == Running && Undecided(before)
    requires Undisturbed(during, RestEnd(Run(v, before).lastQuestion, now))
    ensures var u, w := Run(v, before), Run(v, before + [OpNeedsInput(reason, now)] + during);
      && Inv(w) && w.state == NeedsInput && w.deadline == RestEnd(u.lastQuestion, now)
      && w.lastQuestion == u.lastQuestion
      && w.report == Report(v.report.output, reason, w.report.diag, v.report.exitCode, v.report.truncated)
  {
    var op := OpNeedsInput(reason, now);
    var u := Run(v, before);
    StaysRunning(v, before);
    OneBetween(v, before, op, during);
    StepKeepsInv(u, op);
    var r := Apply(u, op).view;
    assert r.deadline == RestEnd(u.lastQuestion, now) && r.state == NeedsInput;
    StaysResting(r, during);
  }

  /** A rest ends in the successor that came first, for ever. */
  lemma SuccessorDecides(v: RunView, successor: RunId, now: int, after: seq<Op>)
    requires Inv(v) && v.state == NeedsInput && OpsOk(after)
    ensures var w := Run(v, [OpSupersede(successor, now)] + after);
      && w.state == Superseded && w.resumedBy == Some(successor) && w.finished == Some(now)
      && w.report == v.report.(diag := FirstDiag(v.report.diag, after))
  {
    var op := OpSupersede(successor, now);
    OneBetween(v, [], op, after);
    assert [] + [op] == [op];
    StepKeepsInv(v, op);
    TerminalIsAbsorbing(Apply(v, op).view, after);
  }

  /** Or in failure, by the first look past the deadline, which says why. */
  lemma DeadlineDecides(v: RunView, now: int, after: seq<Op>)
    requires Inv(v) && v.state == NeedsInput && v.deadline.Some? && v.deadline.value < now && OpsOk(after)
    ensures var w := Run(v, [OpExpire(now)] + after);
      && w.state == Failed && w.resumedBy.None? && w.finished == Some(now)
      && w.report == v.report.(failure := EXPIRY_REASON, diag := EXPIRY_REASON)
  {
    var op := OpExpire(now);
    OneBetween(v, [], op, after);
    assert [] + [op] == [op];
    StepKeepsInv(v, op);
    TerminalIsAbsorbing(Apply(v, op).view, after);
    FirstDiagSticks(EXPIRY_REASON, after);
  }

  // ---------------------------------------------------------------- questions

  /** q, stamped with the moment it was asked if it carried none. */
  predicate IsAsked(shown: Question, q: Question, now: int) {
    && shown.id == q.id && shown.text == q.text && shown.deadline == q.deadline
    && shown.asked == Some(if q.asked.Some? then q.asked.value else now)
  }

  predicate NobodyResolves(ops: seq<Op>) { OpsOk(ops) && forall i :: 0 <= i < |ops| ==> !ops[i].OpResolve? }

  /** Where a question stands from the moment it is asked: waiting on its channel while the
      run runs, retained while it rests. */
  predicate Stands(v: RunView, q: Question, ch: ChanId) {
    && v.lastQuestion == Some(q)
    && (v.state == Running ==> v.pending == Some(q) && v.verdict == Some(ch))
  }

  lemma {:induction false} StaysStanding(v: RunView, ops: seq<Op>, q: Question, ch: ChanId)
    requires Inv(v) && NobodyResolves(ops) && Stands(v, q, ch)
    ensures var w := Run(v, ops);
      !w.state.IsTerminal() ==> Inv(w) && Stands(w, q, ch) && ShownQuestion(w) == Some(q)
    decreases |ops|
  {
    if ops != [] {
      assert OpOk(ops[0]);
      StepKeepsInv(v, ops[0]);
      var w := Apply(v, ops[0]).view;
      if v.state.IsTerminal() {
        TerminalIsAbsorbing(v, ops);
      } else if w.state.IsTerminal() {
        TerminalIsAbsorbing(w, ops[1..]);
      } else {
        StaysStanding(w, ops[1..], q, ch);
      }
    }
  }

  /** A question is taken exactly by a running run with none pending, and is then the one
      shown, running or at rest, whatever else is asked of the run meanwhile. */
  lemma AskedIsShown(v: RunView, q: Question, ch: ChanId, now: int, ops: seq<Op>)
    requires Inv(v) && NobodyResolves(ops)
    ensures var u, w := Apply(v, OpAsk(q, ch, now)).view, Run(Apply(v, OpAsk(q, ch, now)).view, ops);
      if v.state == Running && v.pending.None?
      then u.verdict == Some(ch) && u.pending.Some? && IsAsked(u.pending.value, q, now)
           && (!w.state.IsTerminal() ==> ShownQuestion(w) == u.pending)
      else u == v
  {
    if v.state == Running && v.pending.None? {
      var u := Apply(v, OpAsk(q, ch, now)).view;
      StepKeepsInv(v, OpAsk(q, ch, now));
      StaysStanding(u, ops, u.pending.value, ch);
    }
  }

  /** An answer reaches exactly the question it names, or whichever is pending if it names
      none: as long as the run runs and nobody else resolved it, the question gets the
      verdict on its own channel, and an answer that names another one, an earlier one
      say, changes nothing. */
  lemma OnlyItsOwnAnswer(v: RunView, q: Question, ch: ChanId, now: int, ops: seq<Op>, wantId: string, verdict: Verdict)
    requires Inv(v) && v.state == Running && v.pending.None? && NobodyResolves(ops)
    requires Run(Apply(v, OpAsk(q, ch, now)).view, ops).state == Running
    ensures var w := Run(Apply(v, OpAsk(q, ch, now)).view, ops);
      var e := Apply(w, OpResolve(wantId, verdict));
      if wantId == "" || wantId == q.id
      then e.send == Some(Send(ch, verdict)) && e.view == w.(pending := None, verdict := None)
      else e == Effect(w, false, None, None)
  {
    var u := Apply(v, OpAsk(q, ch, now)).view;
    StepKeepsInv(v, OpAsk(q, ch, now));
    StaysStanding(u, ops, u.pending.value, ch);
  }

  /** Whoever waits when the run ends, or stops, is told why on the question's own channel. */
  lemma WaiterIsTold(v: RunView, q: Question, ch: ChanId, x: Exit, reason: string, now: int)
    requires Inv(v) && v.pending == Some(q) && v.verdict == Some(ch)
    ensures Apply(v, OpFinish(x, now)).send == Some(Send(ch, Verdict(true, x.report.failure)))
    ensures Apply(v, OpNeedsInput(reason, now)).send == Some(Send(ch, Verdict(true, reason)))
  {
  }

  /** With nothing pending an answer goes nowhere. */
  lemma NoQuestionNoAnswer(v: RunView, wantId: string, verdict: Verdict)
    requires Inv(v) && v.pending.None?
    ensures Apply(v, OpResolve(wantId, verdict)) == Effect(v, false, None, None)
  {
  }

  // ---------------------------------------------------------------- the record

  /** The record comes out exactly of a resting run that has one, and once. */
  lemma RecordOnce(v: RunView, now: int)
    requires Inv(v)
    ensures TakeRefusal(v).None? <==> v.state == NeedsInput && v.continuation.Some?
    ensures TakeRefusal(v).None? ==> TakeRefusal(Apply(v, OpTakeContinuation).view) == Some(ContinuationUnavailable)
    ensures v.state != NeedsInput ==> TakeRefusal(v) == Some(NotAwaitingInput)
  {
  }
}
