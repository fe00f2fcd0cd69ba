/** Exactly when a continuation goes through, with nothing else moving during the call. */
module BridgeProgress {
  import opened Wrappers
  import opened RunLifecycle
  import opened Registry
  import opened Bridge
  import opened BridgeLaws
  import opened BridgeOperations
  import opened BridgeNoOp
  import opened BridgeHistory

  /** The collaborators outside: policy, gate, arguments, and git where a worktree is needed. */
  predicate SpecBuilds(a: Attempt, predWorktree: Option<Worktree>) {
    && (a.wantsGate ==> a.gateStarts) && a.argsBuild
    && (a.mode == Write && a.confined ==> predWorktree.Some? && a.checkout(predWorktree).Some?)
  }

  /** There is room beside everyone but the predecessor. */
  predicate RoomBeside(s: RegistryState, pred: RunId, maxLive: nat) { |Live(s) - {pred}| < maxLive }

  /** What a caller could look up: the run rests on a question with its record in place,
      its chain is short enough and its workspace at hand, the collaborators agree, and
      there is room. */
  predicate MayContinue(b: BridgeState, limits: Limits, pred: RunId, a: Attempt) {
    && pred in b.reg.runs && pred in b.reg.objects
    && var v := b.reg.objects[pred];
    && v.state == NeedsInput && v.continuation.Some? && v.lastQuestion.Some?
    && MayProceed(b, limits, pred, v.continuation.value, a)
  }

  predicate MayProceed(b: BridgeState, limits: Limits, pred: RunId, rec: ContinuationRecord, a: Attempt) {
    && rec.depth < limits.maxContinuations
    && (rec.mode == Write ==> rec.confined && pred in b.store)
    && a.authorised
    && SpecBuilds(a, if rec.mode == Write && rec.confined then Some(b.store[pred].wt) else None)
    && RoomBeside(b.reg, pred, limits.maxLive)
  }

  lemma CountIsRoom(s: RegistryState, order: seq<RunId>, pred: RunId)
    requires RegistryInv(s) && IterationOf(order, s.runs)
    ensures CountLive(s, order, Some(pred), []) == (s, |Live(s) - {pred}|)
  {
    CountExactWhenQuiet(s, order, Some(pred));
    assert Occupying(s, order, Some(pred)) == Live(s) - {pred};
  }

  lemma SpecBuildsExactly(b: BridgeState, a: Attempt, prompt: string, seed: Seed)
    ensures BuildSpec(b, a, prompt, Some(seed)).1.Some? <==> SpecBuilds(a, seed.predWorktree)
  {
  }

  /** Taking the record changes nobody's liveness and no question. */
  lemma WithoutIsLive(b: BridgeState, pred: RunId)
    requires pred in b.reg.objects && RegistryInv(b.reg)
    ensures var c := BridgeWithout(b, pred);
      && RegistryInv(c.reg) && Live(c.reg) == Live(b.reg) && c.reg.runs == b.reg.runs && c.store == b.store
      && ShownQuestion(c.reg.objects[pred]) == ShownQuestion(b.reg.objects[pred])
  {
    WithoutKeepsInv(b, pred);
    hide RegistryInv;
    assert Live(BridgeWithout(b, pred).reg) == Live(b.reg);
  }

  lemma ShownAtRest(v: RunView)
    requires Inv(v) && v.state == NeedsInput
    ensures ShownQuestion(v) == v.lastQuestion
  {
  }

  // ---------------------------------------------------------------- what the operator is told

  /** What stands in the way of starting a run, `others` being how many slots are occupied
      beside the predecessor's. */
  function AtStart(limits: Limits, workspace: Option<Worktree>, a: Attempt, others: nat): Option<Refusal> {
    if !a.authorised then Some(NotAuthorised)
    else if !SpecBuilds(a, workspace) then Some(SpecFailed)
    else if others >= limits.maxLive then Some(NoSlot(others))
    else None
  }

  function AtRest(limits: Limits, rec: ContinuationRecord, asked: bool, workspace: Option<Worktree>, a: Attempt,
                  others: nat): Option<Refusal>
  {
    if !asked then Some(NoQuestionRecorded)
    else if rec.mode == Write && workspace.None? then Some(NoWorkspace)
    else AtStart(limits, if rec.mode == Write then workspace else None, a, others)
  }

  /** The first thing that stands in the way of a record in hand, in the order in which it is
      complained of. */
  function Standing(limits: Limits, rec: ContinuationRecord, asked: bool, workspace: Option<Worktree>, a: Attempt,
                    others: nat): Option<Refusal>
  {
    if rec.depth >= limits.maxContinuations then Some(ChainTooDeep)
    else if rec.mode == Write && !rec.confined then Some(Unconfined)
    else AtRest(limits, rec, asked, workspace, a, others)
  }

  function Stored(b: BridgeState, id: RunId): Option<Worktree> {
    if id in b.store then Some(b.store[id].wt) else None
  }

  function Others(b: BridgeState, pred: RunId): nat { |Live(b.reg) - {pred}| }

  /** The same by what a caller could look up beforehand. */
  function Objection(b: BridgeState, limits: Limits, pred: RunId, a: Attempt): Option<Refusal> {
    if pred !in b.reg.runs || pred !in b.reg.objects then Some(NoSuchRun)
    else
      var v := b.reg.objects[pred];
      if v.state != NeedsInput then Some(NotContinuable(NotAwaitingInput))
      else if v.continuation.None? then Some(NotContinuable(ContinuationUnavailable))
      else Standing(limits, v.continuation.value, v.lastQuestion.Some?, Stored(b, pred), a, Others(b, pred))
  }

  function Answered(objection: Option<Refusal>, id: RunId): Result<RunId, Refusal> {
    match objection case Some(why) => Err(why) case None => Ok(id)
  }

  lemma CommitAnswers(b: BridgeState, limits: Limits, seed: Seed, taken: ContinuationRecord, t: Turn)
    requires RegistryInv(b.reg) && IterationOf(t.order, b.reg.runs) && Quiet(t)
    ensures Commit(b, limits, seed, taken, t).1
         == Answered(AtStart(limits, seed.predWorktree, t.attempt, Others(b, seed.pred)), t.attempt.id)
  {
    SpecBuildsExactly(b, t.attempt, taken.prompt, seed);
    var (b1, spec) := BuildSpec(b, t.attempt, taken.prompt, Some(seed));
    if t.attempt.authorised && spec.Some? {
      BuiltSpec(b, t.attempt, taken.prompt, Some(seed));
      assert Meanwhile(b1, Between(t.env, 3)) == b1;
      CountIsRoom(b1.reg, t.order, seed.pred);
    }
  }

  lemma ProceedAnswers(b: BridgeState, limits: Limits, pred: RunId, answer: string, rec: ContinuationRecord, t: Turn)
    requires RegistryInv(b.reg) && IterationOf(t.order, b.reg.runs) && Quiet(t) && pred in b.reg.objects
    ensures Proceed(b, limits, pred, answer, rec, t).1
         == Answered(Standing(limits, rec, ShownQuestion(b.reg.objects[pred]).Some?, Stored(b, pred), t.attempt,
                              Others(b, pred)), t.attempt.id)
  {
    assert Meanwhile(b, Between(t.env, 2)) == b;
    hide RegistryInv, Live, ShownQuestion, AtRest, Resume, IterationOf;
    if !(rec.mode == Write && !rec.confined) { ResumeAnswers(b, limits, pred, answer, rec, t); }
  }

  lemma ResumeAnswers(b: BridgeState, limits: Limits, pred: RunId, answer: string, rec: ContinuationRecord, t: Turn)
    requires RegistryInv(b.reg) && IterationOf(t.order, b.reg.runs) && Quiet(t) && pred in b.reg.objects
    requires rec.mode == Write ==> rec.confined
    ensures Resume(b, limits, pred, answer, rec, t).1
         == Answered(AtRest(limits, rec, ShownQuestion(b.reg.objects[pred]).Some?, Stored(b, pred), t.attempt,
                            Others(b, pred)), t.attempt.id)
  {
    var question := ShownQuestion(b.reg.objects[pred]);
    hide RegistryInv, Live, ShownQuestion, AtStart, Commit, IterationOf;
    if question.Some? && !WorkspaceLost(b, pred, rec) {
      CommitAnswers(b, limits, NextSeed(b, pred, question.value, answer, rec), rec, t);
    }
  }

  lemma TakenAnswers(b: BridgeState, limits: Limits, pred: RunId, answer: string, t: Turn)
    requires RegistryInv(b.reg) && IterationOf(t.order, b.reg.runs) && Quiet(t)
    requires pred in b.reg.runs && pred in b.reg.objects && TakeRefusal(b.reg.objects[pred]).None?
    ensures var taken := b.reg.objects[pred].continuation.value;
      Proceed(OnRun(b, pred, OpTakeContinuation), limits, pred, answer, taken, t).1
      == Answered(Objection(b, limits, pred, t.attempt), t.attempt.id)
  {
    ShownAtRest(b.reg.objects[pred]);
    Taken(b, pred);
    WithoutIsLive(b, pred);
    hide RegistryInv, Live, ShownQuestion, Standing, Proceed, OnRun, IterationOf;
    ProceedAnswers(BridgeWithout(b, pred), limits, pred, answer, b.reg.objects[pred].continuation.value, t);
  }

  /** With nothing else moving: what the answer is told, by what the caller could look up. */
  lemma ContinueAnswersExactly(b: BridgeState, limits: Limits, pred: RunId, answer: string, t: Turn)
    requires BridgeInv(b, limits) && TurnOk(b, t) && Quiet(t)
    ensures Continue(b, limits, pred, answer, t).1
         == Answered(Objection(Arrive(b, [], t.cutoff), limits, pred, t.attempt), t.attempt.id)
  {
    var b1 := Arrive(b, [], t.cutoff);
    ArriveSound(b, limits, [], t.cutoff);
    assert Meanwhile(b1, Between(t.env, 1)) == b1;
    SoundRegistry(b1, limits, None);
    hide Sound, RegistryInv, Live, Proceed, Standing, Arrive, OnRun, IterationOf;
    if pred in b1.reg.runs && pred in b1.reg.objects && TakeRefusal(b1.reg.objects[pred]).None? {
      TakenAnswers(b1, limits, pred, answer, t);
    }
  }

  lemma CommitExactly(b: BridgeState, limits: Limits, seed: Seed, taken: ContinuationRecord, t: Turn)
    requires RegistryInv(b.reg) && IterationOf(t.order, b.reg.runs) && Quiet(t)
    ensures Commit(b, limits, seed, taken, t).1.Ok?
       <==> t.attempt.authorised && SpecBuilds(t.attempt, seed.predWorktree)
            && RoomBeside(b.reg, seed.pred, limits.maxLive)
  {
    CommitAnswers(b, limits, seed, taken, t);
  }

  /** So a continuation goes through exactly when it may. */
  lemma ContinueSucceedsExactly(b: BridgeState, limits: Limits, pred: RunId, answer: string, t: Turn)
    requires BridgeInv(b, limits) && TurnOk(b, t) && Quiet(t)
    ensures Continue(b, limits, pred, answer, t).1.Ok?
       <==> MayContinue(Arrive(b, [], t.cutoff), limits, pred, t.attempt)
  {
    ContinueAnswersExactly(b, limits, pred, answer, t);
    NothingObjected(Arrive(b, [], t.cutoff), limits, pred, t.attempt);
    hide Sound, Objection, MayContinue, Arrive, Continue, TurnOk;
  }

  lemma NothingObjected(b: BridgeState, limits: Limits, pred: RunId, a: Attempt)
    ensures Objection(b, limits, pred, a).None? <==> MayContinue(b, limits, pred, a)
  {
    hide Live;
  }

  // ---------------------------------------------------------------- chains do form

  function Plain(id: RunId): Attempt { Attempt(id, true, ReadOnly, false, false, false, true, _ => None) }

  const FIRST_RECORD := ContinuationRecord("task", ReadOnly, false, [], 0)
  const ASKED := Question("q", "which one?", None, None)

  /** One run, admitted into an empty bridge. */
  function OneRun(v: RunView): BridgeState {
    BridgeState(RegistryState(map[0 := v], {0}, []), map[], {}, map[0 := FIRST_RECORD], map[], [])
  }

  lemma FirstAsk(limits: Limits)
    requires limits.maxLive > 0
    ensures AskAgent(EmptyBridge, limits, Plain(0), "task", [], []).0
         == OneRun(Fresh(0, false, None, Some(FIRST_RECORD), None))
  {
  }

  /** It asks, nobody answers, and it comes to rest. */
  lemma FirstRest(v: RunView) returns (es: seq<RunEvent>, w: RunView)
    requires v == Fresh(0, false, None, Some(FIRST_RECORD), None)
    ensures Natural(es) && Meanwhile(OneRun(v), es) == OneRun(w)
    ensures w.state == NeedsInput && w.continuation == Some(FIRST_RECORD) && w.lastQuestion.Some?
  {
    var ask, stop := RunEvent(0, OpAsk(ASKED, 0, 1)), RunEvent(0, OpNeedsInput("nobody answered", 2));
    es := [ask, stop];
    var u := Apply(v, ask.op).view;
    w := Apply(u, stop.op).view;
    assert es[1..] == [stop] && [stop][1..] == [];
    assert Happen(OneRun(v).reg, ask) == OneRun(u).reg;
    assert Happen(OneRun(u).reg, stop) == OneRun(w).reg;
    assert HappenAll(OneRun(u).reg, [stop]) == OneRun(w).reg;
  }

  lemma RestMayContinue(w: RunView, limits: Limits, cutoff: int)
    requires limits.maxLive > 0 && limits.maxContinuations > 0
    requires w.state == NeedsInput && w.continuation == Some(FIRST_RECORD) && w.lastQuestion.Some?
    ensures Arrive(OneRun(w), [], cutoff) == OneRun(w)
    ensures MayContinue(OneRun(w), limits, 0, Plain(1))
  {
    assert Prune(OneRun(w).reg, cutoff).runs == {0};
    assert Live(OneRun(w).reg) - {0} == {};
  }

  /** A run resting in a reachable state. */
  lemma RestIsReachable(limits: Limits) returns (w: RunView)
    requires limits.maxLive > 0
    ensures Reachable(OneRun(w), limits)
    ensures w.state == NeedsInput && w.continuation == Some(FIRST_RECORD) && w.lastQuestion.Some?
  {
    EmptyIsReachable(limits);
    var asks := Asks(Plain(0), "task", [], []);
    FirstAsk(limits);
    assert CanBe(EmptyBridge, asks);
    ReachableStep(EmptyBridge, limits, asks);
    var v := Fresh(0, false, None, Some(FIRST_RECORD), None);
    var es, u := FirstRest(v);
    ReachableStep(OneRun(v), limits, RunsMove(es));
    w := u;
  }

  /** Wherever there is a slot and continuations are allowed, chains do form. */
  lemma ChainsForm(limits: Limits) returns (b: BridgeState)
    requires limits.maxLive > 0 && limits.maxContinuations > 0
    ensures Reachable(b, limits) && HasSuccessor(b, 0, 1)
  {
    hide Continue, Reachable, BridgeInv;
    var w := RestIsReachable(limits);
    var t := Turn(Plain(1), 0, 3, [0], [], []);
    var rest := OneRun(w);
    ReachableIsSound(rest, limits);
    RestMayContinue(w, limits, 0);
    assert TurnOk(rest, t);
    ContinueSucceedsExactly(rest, limits, 0, "that one", t);
    ReachableStep(rest, limits, Continues(0, "that one", t));
    b := After(rest, limits, Continues(0, "that one", t));
    var q, elapsed := ContinueExtendsTheChain(rest, limits, 0, "that one", t);
    ReachableIsSound(b, limits);
    assert b.successor[0] == 1;
    SuccOf(b, limits, None, 0);
  }
}
