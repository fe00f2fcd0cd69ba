/** The gate resolver asking one question of one run, against the operator, the
    timer, the request's cancellation and the run settling on its own
    (internal/gate/resolver.go). At most one Resolve is outstanding per run. */
module GateResolver {
  import opened Wrappers
  import opened RunLifecycle
  import opened VerdictProtocol
  import opened RunObject

  const NO_HUMAN := "No operator is reachable. The run has stopped; report what you needed to know."
  const TIMED_OUT := "the operator did not answer in time"
  const CANCELLED := "the request was cancelled while waiting for an answer"
  const NO_CHANNEL := "no operator channel was available to answer a question"

  /** Both replies are denials on the wire; a question is answered by the message. */
  datatype Reply = Relayed(message: string) | NoHuman(asked: bool)

  /** Where the resolver's own goroutine is. */
  datatype Pc =
    | Begin
    | Attached             // Ask accepted, channel not chosen yet
    | Priority             // the non-blocking look before the select
    | Selecting
    | Denying(reason: string)
    | ReadingLost          // the denial lost the race; blocking read
    | Stopping(reason: string)
    | Eliciting
    | Elicited(text: string)
    | ReadingOwn
    | FailDenying
    | FailStopping
    | Done(reply: Reply)

  /** Who decided the question. History only: no step reads it. */
  datatype Decider = ByOperator(text: string) | ByElicitation(text: string) | ByDenial | BySettling

  datatype Gate = Gate(sys: Sys, pc: Pc, chan: ChanId, questionId: string, tui: bool, decider: Option<Decider>)

  datatype Move =
    // the resolver
    | DoAsk(q: Question, now: int)
    | DoAttach(tui: bool, canElicit: bool)
    | DoPriority
    | DoSelectVerdict
    | DoSelectTimeout
    | DoSelectCancel
    | DoDeny
    | DoReadLost
    | DoStop(now: int)
    | DoElicit(answer: Option<string>)
    | DoAnswer
    | DoReadOwn
    | DoFailDeny
    | DoFailStop(now: int)
    // everyone else
    | OperatorAnswers(wantId: string, text: string)
    | RunMoves(op: Op)
    | SenderMoves(step: Step)

  /** The run's other transitions: nobody else asks, resolves or stops it for input. */
  predicate Elsewhere(op: Op) {
    OpOk(op) && !op.OpAsk? && !op.OpResolve? && !op.OpNeedsInput?
  }

  predicate Ready(g: Gate) { g.chan < |g.sys.chans| && g.sys.chans[g.chan].sent != [] }

  predicate CanMove(g: Gate, m: Move) {
    match m
    case DoAsk(q, _) => g.pc.Begin? && q.id != ""
    case DoAttach(_, _) => g.pc.Attached?
    case DoPriority => g.pc.Priority?
    case DoSelectVerdict => g.pc.Selecting? && Ready(g)
    case DoSelectTimeout => g.pc.Selecting?
    case DoSelectCancel => g.pc.Selecting?
    case DoDeny => g.pc.Denying?
    case DoReadLost => g.pc.ReadingLost? && Ready(g)
    case DoStop(_) => g.pc.Stopping?
    case DoElicit(_) => g.pc.Eliciting?
    case DoAnswer => g.pc.Elicited?
    case DoReadOwn => g.pc.ReadingOwn? && Ready(g)
    case DoFailDeny => g.pc.FailDenying?
    case DoFailStop(_) => g.pc.FailStopping?
    case OperatorAnswers(_, _) => true
    case RunMoves(op) => Elsewhere(op)
    case SenderMoves(step) => !step.Locked? && Enabled(g.sys, step)
  }

  function Received(g: Gate): Reply
    requires Ready(g)
  {
    Relayed(g.sys.chans[g.chan].sent[0].message)
  }

  /** One resolve under the lock, noting who it was. */
  function Resolved(g: Gate, wantId: string, message: string, who: Decider): Gate {
    g.(sys := AfterLock(g.sys, OpResolve(wantId, Verdict(true, message))), decider := Some(who))
  }

  function Moved(g: Gate, op: Op): Gate
    requires Enabled(g.sys, Locked(op))
  {
    var decides := g.decider.None? && !g.pc.Begin? && Apply(g.sys.run, op).send.Some?;
    g.(sys := AfterLock(g.sys, op), decider := if decides then Some(BySettling) else g.decider)
  }

  predicate AnswerLands(g: Gate, wantId: string, text: string) {
    ByteLength(text) <= MAX_STEER_BYTES && ResolveRefusal(g.sys.run, wantId).None?
  }

  function Advance(g: Gate, m: Move): Gate
    requires CanMove(g, m)
  {
    match m
    case DoAsk(q, now) =>
      if AskRefusal(g.sys.run).Some? then g.(pc := Done(NoHuman(false)))
      else
        var ch := |g.sys.chans|;
        g.(sys := AfterLock(g.sys, OpAsk(q, ch, now)), pc := Attached, chan := ch, questionId := q.id, decider := None)
    case DoAttach(tui, canElicit) =>
      if tui then g.(tui := true, pc := Priority)
      else g.(tui := false, pc := if canElicit then Eliciting else FailDenying)
    case DoPriority => g.(pc := if Ready(g) then Done(Received(g)) else Selecting)
    case DoSelectVerdict => g.(pc := Done(Received(g)))
    case DoSelectTimeout => g.(pc := Denying(TIMED_OUT))
    case DoSelectCancel => g.(pc := Denying(CANCELLED))
    case DoDeny =>
      if ResolveRefusal(g.sys.run, "").Some? then g.(pc := ReadingLost)
      else Resolved(g, "", NO_HUMAN, ByDenial).(pc := Stopping(g.pc.reason))
    case DoReadLost => g.(pc := Done(Received(g)))
    case DoStop(now) => Moved(g, OpNeedsInput(g.pc.reason, now)).(pc := Done(NoHuman(true)))
    case DoElicit(answer) => g.(pc := if answer.Some? then Elicited(answer.value) else FailDenying)
    case DoAnswer =>
      if AnswerLands(g, g.questionId, g.pc.text)
      then Resolved(g, g.questionId, StripControl(g.pc.text), ByElicitation(g.pc.text)).(pc := ReadingOwn)
      else g.(pc := FailDenying)
    case DoReadOwn => g.(pc := Done(Received(g)))
    case DoFailDeny =>
      if ResolveRefusal(g.sys.run, "").Some? then g.(pc := FailStopping)
      else Resolved(g, "", NO_HUMAN, ByDenial).(pc := FailStopping)
    case DoFailStop(now) => Moved(g, OpNeedsInput(NO_CHANNEL, now)).(pc := Done(NoHuman(true)))
    case OperatorAnswers(wantId, text) =>
      if AnswerLands(g, wantId, text) then Resolved(g, wantId, StripControl(text), ByOperator(text)) else g
    case RunMoves(op) => Moved(g, op)
    case SenderMoves(step) => g.(sys := Next(g.sys, step))
  }

  // ---------------------------------------------------------------- the invariant

  /** A verdict agrees with whoever decided it. */
  predicate Agrees(v: Verdict, who: Decider) {
    match who
    case ByOperator(text) => v == Verdict(true, StripControl(text))
    case ByElicitation(text) => v == Verdict(true, StripControl(text))
    case ByDenial => v == Verdict(true, NO_HUMAN)
    case BySettling => true
  }

  predicate Outside(who: Option<Decider>) { who.None? || who.value.ByOperator? || who.value.BySettling? }

  predicate PcGood(g: Gate)
    requires g.chan < |g.sys.chans|
  {
    match g.pc
    case Priority | Selecting | Denying(_) => g.tui && Outside(g.decider)
    case Attached => Outside(g.decider)
    case ReadingLost => g.tui && Outside(g.decider) && g.decider.Some?
    case Stopping(_) => g.tui && g.decider == Some(ByDenial)
    case Eliciting | Elicited(_) | FailDenying => !g.tui && Outside(g.decider)
    case ReadingOwn => !g.tui && g.decider.Some? && g.decider.value.ByElicitation?
    case FailStopping => !g.tui && g.decider.Some? && !g.decider.value.ByElicitation?
    case Done(Relayed(m)) =>
      && g.sys.chans[g.chan].sent != [] && m == g.sys.chans[g.chan].sent[0].message
      && g.decider.Some? && (g.tui ==> Outside(g.decider)) && (!g.tui ==> g.decider.value.ByElicitation?)
    case Done(NoHuman(_)) =>
      && g.sys.run.state != Running
      && g.decider.Some? && (g.tui ==> g.decider.value.ByDenial?) && (!g.tui ==> !g.decider.value.ByElicitation?)
    case Begin => false
  }

  predicate Refused(g: Gate) { g.pc == Done(NoHuman(false)) }

  predicate GateGood(g: Gate) {
    && Good(g.sys)
    && (g.pc.Begin? || Refused(g) ||
        (&& g.chan < |g.sys.chans|
         && (g.sys.run.verdict.Some? ==>
               g.sys.run.verdict == Some(g.chan) && g.sys.run.pending.value.id == g.questionId)
         && (g.decider.None? <==> g.sys.chans[g.chan].owed.None?)
         && (g.decider.Some? ==> Agrees(g.sys.chans[g.chan].owed.value, g.decider.value))
         && PcGood(g)))
  }

  /** Nothing sent is unsent, and only a send owed to this channel decides it. */
  predicate Follows(before: Chan, after: Chan, send: Option<Send>) {
    && before.sent <= after.sent
    && after.owed == (if send.Some? then Some(send.value.verdict) else before.owed)
  }

  /** The one pending question is the one whose channel the run still holds. */
  lemma PlacedFacts(s: Sys, c: ChanId)
    requires Good(s) && c < |s.chans|
    ensures s.run.verdict.Some? ==> s.run.verdict.value < |s.chans|
    ensures s.run.verdict == Some(c) <==> s.chans[c].owed.None?
    ensures s.run.pending.Some? <==> s.run.verdict.Some?
  {
    assert Placed(s, c);
  }

  /** What one critical section of the run means for the channel c. */
  lemma LockFacts(s: Sys, op: Op, c: ChanId)
    requires Good(s) && Enabled(s, Locked(op)) && c < |s.chans|
    ensures var t := AfterLock(s, op);
            && c < |t.chans|
            && (s.run.state != Running ==> t.run.state != Running)
            && (!op.OpAsk? && t.run.verdict.Some? ==> t.run.verdict == s.run.verdict && t.run.pending == s.run.pending)
            && Follows(s.chans[c], t.chans[c], if s.run.verdict == Some(c) then Apply(s.run, op).send else None)
    ensures s.run.verdict.Some? ==> s.run.verdict.value < |s.chans|
    ensures s.run.verdict == Some(c) <==> s.chans[c].owed.None?
    ensures s.run.pending.Some? <==> s.run.verdict.Some?
    ensures Apply(s.run, op).send.Some? ==> s.run.verdict.Some?
  {
    PlacedFacts(s, c);
    assert Inv(s.run);
    hide Good, Placed;
  }

  predicate Local(m: Move) {
    m.DoAttach? || m.DoPriority? || m.DoSelectVerdict? || m.DoSelectTimeout? || m.DoSelectCancel?
  }

  lemma LocalKeepsGateGood(g: Gate, m: Move)
    requires GateGood(g) && CanMove(g, m) && Local(m)
    ensures GateGood(Advance(g, m))
  {
    assert Placed(g.sys, g.chan);
    hide Good, StripControl, Placed, Apply, Enabled;
  }

  lemma ReadKeepsGateGood(g: Gate, m: Move)
    requires GateGood(g) && CanMove(g, m) && (m.DoReadLost? || m.DoElicit? || m.DoReadOwn?)
    ensures GateGood(Advance(g, m))
  {
    assert Placed(g.sys, g.chan);
    hide Good, StripControl, Placed, Apply, Enabled;
  }

  lemma AskKeepsGateGood(g: Gate, m: Move)
    requires GateGood(g) && CanMove(g, m) && m.DoAsk?
    ensures GateGood(Advance(g, m))
  {
    if AskRefusal(g.sys.run).None? {
      LockKeepsGood(g.sys, OpAsk(m.q, |g.sys.chans|, m.now));
    }
  }

  /** The question is under way: its channel exists. */
  predicate Underway(g: Gate) { !g.pc.Begin? && !Refused(g) && g.chan < |g.sys.chans| }

  lemma DenyKeepsGateGood(g: Gate, m: Move)
    requires GateGood(g) && CanMove(g, m) && (m.DoDeny? || m.DoFailDeny?)
    ensures GateGood(Advance(g, m))
  {
    hide Good, AfterLock, Placed;
    var op := OpResolve("", Verdict(true, NO_HUMAN));
    LockKeepsGood(g.sys, op);
    LockFacts(g.sys, op, g.chan);
    hide Apply, Enabled;
  }

  lemma StopKeepsGateGood(g: Gate, m: Move)
    requires GateGood(g) && CanMove(g, m) && (m.DoStop? || m.DoFailStop?)
    ensures GateGood(Advance(g, m))
  {
    hide Good, AfterLock, Placed;
    var op := OpNeedsInput(if m.DoStop? then g.pc.reason else NO_CHANNEL, m.now);
    LockKeepsGood(g.sys, op);
    LockFacts(g.sys, op, g.chan);
    StopsTheRun(g.sys, op);
  }

  lemma StopsTheRun(s: Sys, op: Op)
    requires Enabled(s, Locked(op)) && op.OpNeedsInput?
    ensures AfterLock(s, op).run.state != Running
  {
  }

  lemma AnswerKeepsGateGood(g: Gate, m: Move)
    requires GateGood(g) && CanMove(g, m) && m.DoAnswer?
    ensures GateGood(Advance(g, m))
  {
    hide Good, AfterLock, Placed, StripControl, ByteLength;
    var op := OpResolve(g.questionId, Verdict(true, StripControl(g.pc.text)));
    LockKeepsGood(g.sys, op);
    LockFacts(g.sys, op, g.chan);
  }

  lemma OperatorKeepsGateGood(g: Gate, m: Move)
    requires GateGood(g) && CanMove(g, m) && m.OperatorAnswers?
    ensures GateGood(Advance(g, m))
  {
    hide Good, AfterLock, Placed, StripControl, ByteLength;
    var op := OpResolve(m.wantId, Verdict(true, StripControl(m.text)));
    LockKeepsGood(g.sys, op);
    if Underway(g) { LockFacts(g.sys, op, g.chan); }
  }

  lemma RunKeepsGateGood(g: Gate, m: Move)
    requires GateGood(g) && CanMove(g, m) && m.RunMoves?
    ensures GateGood(Advance(g, m))
  {
    hide Good, AfterLock, Placed, Apply;
    LockKeepsGood(g.sys, m.op);
    if Underway(g) { LockFacts(g.sys, m.op, g.chan); }
  }

  lemma SenderKeepsGateGood(g: Gate, m: Move)
    requires GateGood(g) && CanMove(g, m) && m.SenderMoves?
    ensures GateGood(Advance(g, m))
  {
    hide Good, Next, Placed;
    StepKeepsGood(g.sys, m.step);
    if Underway(g) { SenderFacts(g.sys, m.step, g.chan); }
  }

  lemma SenderFacts(s: Sys, step: Step, c: ChanId)
    requires Good(s) && Enabled(s, step) && !step.Locked? && c < |s.chans|
    ensures var t := Next(s, step); c < |t.chans| && t.run == s.run && Follows(s.chans[c], t.chans[c], None)
  {
    assert Placed(s, c);
  }

  lemma MoveKeepsGateGood(g: Gate, m: Move)
    requires GateGood(g) && CanMove(g, m)
    ensures GateGood(Advance(g, m))
  {
    if Local(m) { LocalKeepsGateGood(g, m); }
    else if m.DoReadLost? || m.DoElicit? || m.DoReadOwn? { ReadKeepsGateGood(g, m); }
    else if m.DoAsk? { AskKeepsGateGood(g, m); }
    else if m.DoDeny? || m.DoFailDeny? { DenyKeepsGateGood(g, m); }
    else if m.DoStop? || m.DoFailStop? { StopKeepsGateGood(g, m); }
    else if m.DoAnswer? { AnswerKeepsGateGood(g, m); }
    else if m.OperatorAnswers? { OperatorKeepsGateGood(g, m); }
    else if m.RunMoves? { RunKeepsGateGood(g, m); }
    else { SenderKeepsGateGood(g, m); }
  }

  // ---------------------------------------------------------------- every interleaving

  predicate Interleaving(g: Gate, moves: seq<Move>)
    decreases |moves|
  {
    moves == [] || (CanMove(g, moves[0]) && Interleaving(Advance(g, moves[0]), moves[1..]))
  }

  function Play(g: Gate, moves: seq<Move>): Gate
    requires Interleaving(g, moves)
    decreases |moves|
  {
    if moves == [] then g else Play(Advance(g, moves[0]), moves[1..])
  }

  lemma {:induction false} PlayKeepsGateGood(g: Gate, moves: seq<Move>)
    requires GateGood(g) && Interleaving(g, moves)
    ensures GateGood(Play(g, moves))
    decreases |moves|
  {
    if moves != [] {
      MoveKeepsGateGood(g, moves[0]);
      PlayKeepsGateGood(Advance(g, moves[0]), moves[1..]);
    }
  }

  /** A resolver about to ask, over a run in any reachable condition. */
  predicate Opening(g: Gate) { Good(g.sys) && g.pc.Begin? }

  /** While a TUI is attached the reply is decided by whoever decided the question:
      an accepted operator answer is relayed word for word, a denial that won is the
      only way to the no-human reply, and then the run has stopped. */
  lemma AwaitVerdictLosesNoAnswer(g: Gate, moves: seq<Move>)
    requires Opening(g) && Interleaving(g, moves)
    ensures var h := Play(g, moves);
            h.pc.Done? && h.tui && h.pc.reply != NoHuman(false) ==>
              && h.decider.Some?
              && (h.decider.value.ByOperator? ==> h.pc.reply == Relayed(StripControl(h.decider.value.text)))
              && (h.pc.reply == NoHuman(true) <==> h.decider.value.ByDenial?)
              && (h.pc.reply == NoHuman(true) ==> h.sys.run.state != Running)
              && !h.decider.value.ByElicitation?
  {
    PlayKeepsGateGood(g, moves);
    var h := Play(g, moves);
    if h.pc.Done? && h.pc.reply != NoHuman(false) { assert Placed(h.sys, h.chan); }
  }

  /** Without a TUI only the elicited answer is relayed: it is, exactly when it is the
      one that decided the question. Anyone else's answer is lost, and the run stops. */
  lemma ElicitationRelaysOnlyItsOwn(g: Gate, moves: seq<Move>)
    requires Opening(g) && Interleaving(g, moves)
    ensures var h := Play(g, moves);
            h.pc.Done? && !h.tui && h.pc.reply != NoHuman(false) ==>
              && h.decider.Some?
              && (h.pc.reply.Relayed? <==> h.decider.value.ByElicitation?)
              && (h.decider.value.ByElicitation? ==> h.pc.reply == Relayed(StripControl(h.decider.value.text)))
              && (h.decider.value.ByOperator? ==> h.pc.reply == NoHuman(true) && h.sys.run.state != Running)
  {
    PlayKeepsGateGood(g, moves);
    var h := Play(g, moves);
    if h.pc.Done? && h.pc.reply != NoHuman(false) { assert Placed(h.sys, h.chan); }
  }

  // ---------------------------------------------------------------- told by the moves

  /** What elicitation brought, each time it was tried. */
  function Elicitations(moves: seq<Move>): seq<Option<string>> {
    if moves == [] then []
    else
      var rest, last := Elicitations(moves[..|moves| - 1]), moves[|moves| - 1];
      if last.DoElicit? then rest + [last.answer] else rest
  }

  /** Which channels there were to a human. */
  datatype Reach = Reach(tui: bool, elicit: bool)

  /** The same each time somebody looked. */
  function Attachments(moves: seq<Move>): seq<Reach> {
    if moves == [] then []
    else
      var rest, last := Attachments(moves[..|moves| - 1]), moves[|moves| - 1];
      if last.DoAttach? then rest + [Reach(last.tui, last.canElicit)] else rest
  }

  /** Why the resolver gave up waiting, each time it did. */
  function GaveUp(moves: seq<Move>): seq<string> {
    if moves == [] then []
    else
      var rest, last := GaveUp(moves[..|moves| - 1]), moves[|moves| - 1];
      if last.DoSelectTimeout? then rest + [TIMED_OUT]
      else if last.DoSelectCancel? then rest + [CANCELLED] else rest
  }

  /** The text was somebody's answer. */
  ghost predicate SaidBy(moves: seq<Move>, who: Decider) {
    match who
    case ByOperator(text) => exists wantId :: OperatorAnswers(wantId, text) in moves
    case ByElicitation(text) => Elicitations(moves) == [Some(text)]
    case _ => true
  }

  /** Who decided the question, if anyone did, said what the decider notes. */
  ghost predicate DeciderSaid(g: Gate, moves: seq<Move>) {
    g.decider.Some? && !g.pc.Begin? && !Refused(g) ==> SaidBy(moves, g.decider.value)
  }

  /** The resolver's position is what its moves so far brought. */
  predicate At(g: Gate, elicited: seq<Option<string>>, attached: seq<Reach>, gaveUp: seq<string>) {
    match g.pc
    case Begin => elicited == [] && attached == [] && gaveUp == []
    case Attached => elicited == [] && attached == [] && gaveUp == []
    case Priority => elicited == [] && ByTui(attached) && gaveUp == []
    case Selecting => elicited == [] && ByTui(attached) && gaveUp == []
    case Denying(reason) => elicited == [] && ByTui(attached) && gaveUp == [reason]
    case ReadingLost => elicited == [] && ByTui(attached)
    case Stopping(reason) => elicited == [] && ByTui(attached) && gaveUp == [reason]
    case Eliciting => elicited == [] && attached == [Reach(false, true)]
    case Elicited(text) => elicited == [Some(text)] && attached == [Reach(false, true)]
    case ReadingOwn => |elicited| == 1 && attached == [Reach(false, true)]
    case FailDenying => WithoutTui(elicited, attached)
    case FailStopping => WithoutTui(elicited, attached)
    case Done(reply) =>
      reply == NoHuman(false) || (if g.tui then elicited == [] && ByTui(attached) else WithoutTui(elicited, attached))
  }

  predicate ByTui(attached: seq<Reach>) { |attached| == 1 && attached[0].tui }

  /** Elicitation is tried once where it can be, and not at all where it cannot. */
  predicate WithoutTui(elicited: seq<Option<string>>, attached: seq<Reach>) {
    |attached| == 1 && !attached[0].tui && |elicited| == if attached[0].elicit then 1 else 0
  }

  ghost predicate Recalls(g: Gate, moves: seq<Move>) {
    DeciderSaid(g, moves) && At(g, Elicitations(moves), Attachments(moves), GaveUp(moves))
  }

  lemma OneMoreMove(moves: seq<Move>, m: Move)
    ensures Elicitations(moves + [m]) == if m.DoElicit? then Elicitations(moves) + [m.answer] else Elicitations(moves)
    ensures Attachments(moves + [m])
         == if m.DoAttach? then Attachments(moves) + [Reach(m.tui, m.canElicit)] else Attachments(moves)
    ensures GaveUp(moves + [m])
         == if m.DoSelectTimeout? then GaveUp(moves) + [TIMED_OUT]
            else if m.DoSelectCancel? then GaveUp(moves) + [CANCELLED] else GaveUp(moves)
  {
    assert (moves + [m])[..|moves|] == moves;
  }

  lemma StillSaid(moves: seq<Move>, m: Move, who: Decider)
    requires SaidBy(moves, who) && (who.ByElicitation? ==> Elicitations(moves + [m]) == Elicitations(moves))
    ensures SaidBy(moves + [m], who)
  {
    if who.ByOperator? {
      var wantId :| OperatorAnswers(wantId, who.text) in moves;
      assert OperatorAnswers(wantId, who.text) in moves + [m];
    }
  }

  lemma MoveIsSaid(g: Gate, moves: seq<Move>, m: Move)
    requires GateGood(g) && CanMove(g, m) && Recalls(g, moves)
    ensures DeciderSaid(Advance(g, m), moves + [m])
  {
    OneMoreMove(moves, m);
    hide Good, AfterLock, Placed, StripControl, ByteLength, Elicitations, Attachments, GaveUp;
    if g.decider.Some? && !g.pc.Begin? && !Refused(g) { StillSaid(moves, m, g.decider.value); }
    if m.OperatorAnswers? { assert OperatorAnswers(m.wantId, m.text) in moves + [m]; }
  }

  lemma MoveIsAt(g: Gate, m: Move, e: seq<Option<string>>, a: seq<Reach>, w: seq<string>)
    requires GateGood(g) && CanMove(g, m) && At(g, e, a, w)
    ensures var e' := if m.DoElicit? then e + [m.answer] else e;
      var a' := if m.DoAttach? then a + [Reach(m.tui, m.canElicit)] else a;
      var w' := if m.DoSelectTimeout? then w + [TIMED_OUT] else if m.DoSelectCancel? then w + [CANCELLED] else w;
      At(Advance(g, m), e', a', w')
  {
    hide Good, AfterLock, Placed, StripControl, ByteLength, Agrees, Apply, Enabled;
    if !Own(m) {
      OthersLeave(g, m);
      hide Advance, GateGood;
    } else if Local(m) {
      LocalIsAt(g, m, e, a, w);
      hide At, Advance, GateGood;
    }
  }

  lemma LocalIsAt(g: Gate, m: Move, e: seq<Option<string>>, a: seq<Reach>, w: seq<string>)
    requires CanMove(g, m) && Local(m) && At(g, e, a, w) && (!g.pc.Begin? && !g.pc.Attached? ==> g.tui)
    ensures var a' := if m.DoAttach? then a + [Reach(m.tui, m.canElicit)] else a;
      var w' := if m.DoSelectTimeout? then w + [TIMED_OUT] else if m.DoSelectCancel? then w + [CANCELLED] else w;
      At(Advance(g, m), e, a', w')
  {
    hide AfterLock, StripControl, ByteLength, Apply, Enabled;
  }

  lemma OthersLeave(g: Gate, m: Move)
    requires CanMove(g, m) && !Own(m)
    ensures Advance(g, m).pc == g.pc && Advance(g, m).tui == g.tui
  {
    hide AfterLock, StripControl, ByteLength, Apply, Enabled;
  }

  /** Once Resolve is done somebody had looked, once, for a TUI. */
  lemma LookedOnce(g: Gate, moves: seq<Move>)
    requires Recalls(g, moves) && g.pc.Done? && !Refused(g)
    ensures |Attachments(moves)| == 1 && Attachments(moves)[0].tui == g.tui
  {
    hide Attachments, Elicitations, GaveUp;
  }

  lemma MoveRecalls(g: Gate, moves: seq<Move>, m: Move)
    requires GateGood(g) && CanMove(g, m) && Recalls(g, moves)
    ensures Recalls(Advance(g, m), moves + [m])
  {
    OneMoreMove(moves, m);
    MoveIsSaid(g, moves, m);
    MoveIsAt(g, m, Elicitations(moves), Attachments(moves), GaveUp(moves));
    hide At, DeciderSaid, GateGood, Advance, Elicitations, Attachments, GaveUp;
  }

  lemma {:induction false} PlayRecalls(g: Gate, done: seq<Move>, moves: seq<Move>)
    requires GateGood(g) && Interleaving(g, moves) && Recalls(g, done)
    ensures Recalls(Play(g, moves), done + moves)
    decreases |moves|
  {
    hide Recalls, Advance, GateGood, CanMove;
    if moves == [] {
      assert done + moves == done;
    } else {
      MoveKeepsGateGood(g, moves[0]);
      MoveRecalls(g, done, moves[0]);
      PlayRecalls(Advance(g, moves[0]), done + [moves[0]], moves[1..]);
      assert (done + [moves[0]]) + moves[1..] == done + moves;
    }
  }

  lemma Recalling(g: Gate, moves: seq<Move>)
    requires Opening(g) && Interleaving(g, moves)
    ensures Recalls(Play(g, moves), moves) && GateGood(Play(g, moves))
  {
    PlayKeepsGateGood(g, moves);
    PlayRecalls(g, [], moves);
    assert [] + moves == moves;
  }

  /** What Resolve says is what somebody said. Where no TUI was attached elicitation was tried
      if it could be, and what is relayed is what it brought, controls stripped; where one
      was, the answer an operator gave, unless a settling run's own reason decided. */
  lemma RelayedIsSaid(g: Gate, moves: seq<Move>)
    requires Opening(g) && Interleaving(g, moves)
    requires Play(g, moves).pc.Done? && Play(g, moves).pc.reply != NoHuman(false)
    ensures var h, e, a := Play(g, moves), Elicitations(moves), Attachments(moves);
      && |a| == 1 && a[0].tui == h.tui && |e| == (if !a[0].tui && a[0].elicit then 1 else 0)
      && (h.pc.reply.Relayed? && !a[0].tui ==>
            exists text :: e == [Some(text)] && h.pc.reply == Relayed(StripControl(text)))
      && (h.pc.reply.Relayed? && a[0].tui && h.decider != Some(BySettling) ==>
            exists wantId, text :: OperatorAnswers(wantId, text) in moves && h.pc.reply == Relayed(StripControl(text)))
  {
    Recalling(g, moves);
    var h := Play(g, moves);
    if h.pc.reply.Relayed? {
      RelayedFacts(h);
      if h.decider.value.ByOperator? {
        var text := h.decider.value.text;
        var wantId :| OperatorAnswers(wantId, text) in moves;
      }
    }
  }

  lemma RelayedFacts(g: Gate)
    requires GateGood(g) && g.pc.Done? && g.pc.reply.Relayed?
    ensures g.decider.Some? && (g.tui ==> Outside(g.decider)) && (!g.tui ==> g.decider.value.ByElicitation?)
    ensures g.decider.value.ByOperator? || g.decider.value.ByElicitation? ==>
      g.pc.reply == Relayed(StripControl(g.decider.value.text))
  {
    assert Placed(g.sys, g.chan);
  }

  /** A run the resolver stops while it is still running rests for the reason the resolver
      gave up: time, or the request's cancellation, whichever it was. */
  lemma StopsForItsReason(g: Gate, moves: seq<Move>, now: int)
    requires Opening(g) && Interleaving(g, moves) && Play(g, moves).pc.Stopping?
    ensures var h := Play(g, moves);
      var r := Advance(h, DoStop(now)).sys.run;
      h.sys.run.state == Running ==> r.state == NeedsInput && GaveUp(moves) == [r.report.failure]
  {
    Recalling(g, moves);
    hide Good, PcGood, Play, Interleaving, GaveUp, Elicitations, Attachments, DeciderSaid;
  }

  /** Or, where there was no TUI, for want of a channel to a human. */
  lemma StopsForWantOfAChannel(g: Gate, now: int)
    requires g.pc.FailStopping? && g.sys.run.state == Running
    ensures var h := Advance(g, DoFailStop(now));
      h.sys.run.state == NeedsInput && h.sys.run.report.failure == NO_CHANNEL && h.pc == Done(NoHuman(true))
  {
  }

  /** A blocking read always ends: the verdict is there, or the goroutine holding it can send it. */
  lemma BlockingReadsEnd(g: Gate, moves: seq<Move>)
    requires Opening(g) && Interleaving(g, moves)
    ensures var h := Play(g, moves);
            h.pc.ReadingLost? || h.pc.ReadingOwn? ==>
              || Ready(h)
              || (CanMove(h, SenderMoves(SendNow(0))) && Ready(Advance(h, SenderMoves(SendNow(0)))))
  {
    PlayKeepsGateGood(g, moves);
    var h := Play(g, moves);
    if h.pc.ReadingLost? || h.pc.ReadingOwn? { assert Placed(h.sys, h.chan); }
  }

  lemma {:induction false} DeciderIsFinal(g: Gate, moves: seq<Move>)
    requires GateGood(g) && Interleaving(g, moves) && !g.pc.Begin? && !Refused(g) && g.decider.Some?
    ensures Play(g, moves).decider == g.decider && !Refused(Play(g, moves))
    decreases |moves|
  {
    if moves != [] {
      assert Placed(g.sys, g.chan);
      MoveKeepsGateGood(g, moves[0]);
      DeciderIsFinal(Advance(g, moves[0]), moves[1..]);
    }
  }

  lemma {:induction false} PlayInParts(g: Gate, before: seq<Move>, after: seq<Move>)
    requires Interleaving(g, before) && Interleaving(Play(g, before), after)
    ensures Interleaving(g, before + after) && Play(g, before + after) == Play(Play(g, before), after)
    decreases |before|
  {
    if before == [] {
      assert before + after == after;
    } else {
      assert (before + after)[1..] == before[1..] + after;
      PlayInParts(Advance(g, before[0]), before[1..], after);
    }
  }

  /** The operator's answer accepted at any moment after the question was recorded is,
      whatever races with it, what Resolve returns exactly when a TUI is attached. */
  lemma AcceptedAnswerIsReturned(g: Gate, before: seq<Move>, wantId: string, text: string, after: seq<Move>)
    requires Opening(g) && Interleaving(g, before)
    requires var h := Play(g, before); !h.pc.Begin? && !Refused(h) && AnswerLands(h, wantId, text)
    requires Interleaving(Advance(Play(g, before), OperatorAnswers(wantId, text)), after)
    ensures var end := Play(Advance(Play(g, before), OperatorAnswers(wantId, text)), after);
            end.pc.Done? ==>
              && (end.pc.reply == Relayed(StripControl(text)) <==> end.tui)
              && (!end.tui ==> end.pc.reply == NoHuman(true) && end.sys.run.state != Running)
              && var a := Attachments(before + [OperatorAnswers(wantId, text)] + after);
                 |a| == 1 && a[0].tui == end.tui
  {
    PlayKeepsGateGood(g, before);
    var h := Play(g, before);
    AnswerRecalled(g, before, OperatorAnswers(wantId, text), after);
    MoveKeepsGateGood(h, OperatorAnswers(wantId, text));
    var k := Advance(h, OperatorAnswers(wantId, text));
    assert k.decider == Some(ByOperator(text)) && !k.pc.Begin? && !Refused(k);
    hide Advance, Good, Recalls, GateGood, Play, Interleaving, Attachments, StripControl;
    DeciderIsFinal(k, after);
    PlayKeepsGateGood(k, after);
    if Play(k, after).pc.Done? {
      DoneTells(Play(k, after), text);
      LookedOnce(Play(k, after), before + [OperatorAnswers(wantId, text)] + after);
    }
  }

  lemma AnswerRecalled(g: Gate, before: seq<Move>, m: Move, after: seq<Move>)
    requires Opening(g) && Interleaving(g, before) && CanMove(Play(g, before), m)
    requires Interleaving(Advance(Play(g, before), m), after)
    ensures Recalls(Play(Advance(Play(g, before), m), after), before + [m] + after)
  {
    Recalling(g, before);
    hide Recalls, Advance, GateGood, CanMove;
    MoveKeepsGateGood(Play(g, before), m);
    MoveRecalls(Play(g, before), before, m);
    PlayRecalls(Advance(Play(g, before), m), before + [m], after);
  }

  lemma DoneTells(g: Gate, text: string)
    requires GateGood(g) && !Refused(g) && g.decider == Some(ByOperator(text)) && g.pc.Done?
    ensures g.pc.reply == Relayed(StripControl(text)) <==> g.tui
    ensures !g.tui ==> g.pc.reply == NoHuman(true) && g.sys.run.state != Running
  {
    assert Placed(g.sys, g.chan);
  }

  /** What elicitation brought is what Resolve returns, if its question is still pending
      when it comes to be answered and the text is not too long. */
  lemma ElicitedAnswerIsReturned(g: Gate, before: seq<Move>, text: string, after: seq<Move>)
    requires Opening(g) && Interleaving(g, before) && Play(g, before).pc.Elicited?
    requires Elicitations(before) == [Some(text)]
    requires var h := Play(g, before); AnswerLands(h, h.questionId, text)
    requires Interleaving(Advance(Play(g, before), DoAnswer), after)
    ensures var end := Play(Advance(Play(g, before), DoAnswer), after);
      end.pc.Done? ==> end.pc.reply == Relayed(StripControl(text))
  {
    Recalling(g, before);
    var h := Play(g, before);
    MoveKeepsGateGood(h, DoAnswer);
    var k := Advance(h, DoAnswer);
    assert k.decider == Some(ByElicitation(text));
    hide Advance, Good;
    DeciderIsFinal(k, after);
    PlayKeepsGateGood(k, after);
    if Play(k, after).pc.Done? { OwnAnswerTold(Play(k, after), text); }
  }

  lemma OwnAnswerTold(g: Gate, text: string)
    requires GateGood(g) && !Refused(g) && g.decider == Some(ByElicitation(text)) && g.pc.Done?
    ensures g.pc.reply == Relayed(StripControl(text))
  {
    assert Placed(g.sys, g.chan);
  }

  // ---------------------------------------------------------------- Resolve comes to an end

  predicate Own(m: Move) { !m.OperatorAnswers? && !m.RunMoves? && !m.SenderMoves? }

  /** How many moves of its own the resolver may still make. */
  function MovesLeft(pc: Pc): nat {
    match pc
    case Begin => 7
    case Attached => 6
    case Priority => 5
    case Selecting => 4
    case Denying(_) => 3
    case Eliciting => 4
    case Elicited(_) => 3
    case FailDenying => 2
    case Done(_) => 0
    case _ => 1
  }

  function OwnMoves(moves: seq<Move>): nat {
    if moves == [] then 0 else (if Own(moves[0]) then 1 else 0) + OwnMoves(moves[1..])
  }

  lemma MoveCounts(g: Gate, m: Move)
    requires CanMove(g, m)
    ensures MovesLeft(Advance(g, m).pc) + (if Own(m) then 1 else 0) <= MovesLeft(g.pc)
  {
    hide AfterLock, StripControl, ByteLength;
  }

  lemma {:induction false} MovesAreFew(g: Gate, moves: seq<Move>)
    requires Interleaving(g, moves)
    ensures MovesLeft(Play(g, moves).pc) + OwnMoves(moves) <= MovesLeft(g.pc)
    decreases |moves|
  {
    if moves != [] {
      MoveCounts(g, moves[0]);
      MovesAreFew(Advance(g, moves[0]), moves[1..]);
    }
  }

  /** A move of the resolver's own that it may make where it stands. */
  function NextMove(g: Gate): Move {
    match g.pc
    case Attached => DoAttach(true, false)
    case Priority => DoPriority
    case Selecting => DoSelectTimeout
    case Denying(_) => DoDeny
    case ReadingLost => DoReadLost
    case Stopping(_) => DoStop(0)
    case Eliciting => DoElicit(None)
    case Elicited(_) => DoAnswer
    case ReadingOwn => DoReadOwn
    case FailDenying => DoFailDeny
    case _ => DoFailStop(0)
  }

  /** Resolve ends: whatever the others do it makes at most seven moves of its own, and until
      it is done it can always make one, at worst after a send that is under way. */
  lemma ResolveEnds(g: Gate, moves: seq<Move>)
    requires Opening(g) && Interleaving(g, moves)
    ensures OwnMoves(moves) <= 7
    ensures var h, sent := Play(g, moves), SenderMoves(SendNow(0));
      !h.pc.Begin? && !h.pc.Done? ==>
        && Own(NextMove(h))
        && (CanMove(h, NextMove(h)) || (CanMove(h, sent) && CanMove(Advance(h, sent), NextMove(h))))
  {
    MovesAreFew(g, moves);
    BlockingReadsEnd(g, moves);
  }

  lemma PlayTwo(g: Gate, m: Move, n: Move)
    requires CanMove(g, m) && CanMove(Advance(g, m), n)
    ensures Interleaving(g, [m, n]) && Play(g, [m, n]) == Advance(Advance(g, m), n)
  {
    var h := Advance(g, m);
    assert [m, n][1..] == [n] && [n][1..] == [];
    assert Interleaving(Advance(h, n), []) && Play(Advance(h, n), []) == Advance(h, n);
    assert Interleaving(h, [n]) && Play(h, [n]) == Advance(h, n);
  }

  /** The lost answer is real: the operator's answer lands first, elicitation then
      finds nothing pending, and the child is told nobody was there. */
  lemma ElicitationCanLoseAnOperatorAnswer(g: Gate, q: Question, text: string) returns (moves: seq<Move>)
    requires g == Gate(Initial(Fresh(0, false, None, None, None)), Begin, 0, "", false, None)
    requires q.id != "" && ByteLength(text) <= MAX_STEER_BYTES
    ensures Opening(g) && Interleaving(g, moves) && OperatorAnswers(q.id, text) in moves
    ensures Play(g, moves).decider == Some(ByOperator(text)) && Play(g, moves).pc == Done(NoHuman(true))
  {
    var asked := AskedFirst(g, q);
    hide *;
    var lost := LostAfterAsking(Play(g, asked), q, text);
    PlayInParts(g, asked, lost);
    assert lost[0] in asked + lost;
    moves := asked + lost;
  }

  lemma AskedFirst(g: Gate, q: Question) returns (asked: seq<Move>)
    requires g == Gate(Initial(Fresh(0, false, None, None, None)), Begin, 0, "", false, None) && q.id != ""
    ensures Opening(g) && Interleaving(g, asked)
    ensures var h := Play(g, asked);
      h.pc == Eliciting && h.questionId == q.id && h.sys.run.pending.Some? && h.sys.run.pending.value.id == q.id
  {
    asked := [DoAsk(q, 1), DoAttach(false, true)];
    PlayTwo(g, asked[0], asked[1]);
  }

  lemma LostAfterAsking(g: Gate, q: Question, text: string) returns (lost: seq<Move>)
    requires g.pc == Eliciting && g.questionId == q.id && q.id != "" && ByteLength(text) <= MAX_STEER_BYTES
    requires g.sys.run.pending.Some? && g.sys.run.pending.value.id == q.id
    ensures |lost| > 0 && lost[0] == OperatorAnswers(q.id, text) && Interleaving(g, lost)
    ensures Play(g, lost).decider == Some(ByOperator(text)) && Play(g, lost).pc == Done(NoHuman(true))
  {
    var first := [OperatorAnswers(q.id, text), DoElicit(Some(text))];
    PlayTwo(g, first[0], first[1]);
    var rest := StopsAfterLosing(Play(g, first), text);
    PlayInParts(g, first, rest);
    lost := first + rest;
  }

  lemma StopsAfterLosing(g: Gate, text: string) returns (rest: seq<Move>)
    requires g.pc == Elicited(text) && g.sys.run.pending.None? && g.decider.Some?
    ensures Interleaving(g, rest)
    ensures Play(g, rest).decider == g.decider && Play(g, rest).pc == Done(NoHuman(true))
  {
    var one, two := [DoAnswer, DoFailDeny], [DoFailStop(2)];
    PlayTwo(g, one[0], one[1]);
    var h := Play(g, one);
    assert two[1..] == [];
    assert Interleaving(h, two) && Play(h, two) == Advance(h, two[0]);
    PlayInParts(g, one, two);
    rest := one + two;
  }
}
