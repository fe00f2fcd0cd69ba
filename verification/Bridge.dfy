/** The bridge's own operations on runs, diffs and gates: asking, continuing,
    collecting, accepting, rejecting and reaping (cmd/bridge). They are atomic
    with respect to one another; run transitions strike between their steps. */
module Bridge {
  import opened Wrappers
  import opened RunLifecycle
  import opened Registry

  /** A finished write run waiting for a decision; the patch is empty until collected. */
  datatype PendingChanges = PendingChanges(wt: Worktree, patch: string)

  /** `admitted`, `successor` and `applied` are history: the record each run was
      started with, who continued it, and the runs whose patch reached the tree. */
  datatype BridgeState = BridgeState(
    reg: RegistryState,
    store: map<RunId, PendingChanges>,
    gates: set<RunId>,
    admitted: map<RunId, ContinuationRecord>,
    successor: map<RunId, RunId>,
    applied: seq<RunId>)

  datatype Limits = Limits(maxLive: nat, maxContinuations: nat)

  const EmptyBridge := BridgeState(EmptyRegistry, map[], {}, map[], map[], [])

  /** What the collaborators outside the model said to one attempt at starting a run:
      policy, the gate socket, argument and transcript building, and git, which cuts a
      checkout from the tree or from a given workspace, or fails. */
  datatype Attempt = Attempt(
    id: RunId, authorised: bool, mode: Mode, confined: bool, wantsGate: bool, gateStarts: bool,
    argsBuild: bool, checkout: Option<Worktree> -> Option<Worktree>)

  /** A continuation's contribution to its successor's spec. */
  datatype Seed = Seed(pred: RunId, rec: ContinuationRecord, predWorktree: Option<Worktree>)

  datatype Refusal =
    | NoSuchRun
    | NotContinuable(why: ContinuationError)
    | ChainTooDeep
    | Unconfined
    | NoQuestionRecorded
    | NoWorkspace
    | NotAuthorised
    | SpecFailed
    | NoSlot(live: nat)

  // ---------------------------------------------------------------- shared steps

  /** Other goroutines moving runs. */
  function Meanwhile(b: BridgeState, es: seq<RunEvent>): BridgeState {
    b.(reg := HappenAll(b.reg, es))
  }

  /** Get and List: the sweep is among the events, then pruning. */
  function Arrive(b: BridgeState, es: seq<RunEvent>, cutoff: int): BridgeState {
    b.(reg := Prune(HappenAll(b.reg, es), cutoff))
  }

  function OnRun(b: BridgeState, id: RunId, op: Op): BridgeState {
    b.(reg := Happen(b.reg, RunEvent(id, op)))
  }

  function CloseGate(b: BridgeState, id: RunId): BridgeState { b.(gates := b.gates - {id}) }

  function Discard(b: BridgeState, id: RunId): BridgeState { b.(store := b.store - {id}) }

  function RecordFor(a: Attempt, prompt: string, seed: Option<Seed>): ContinuationRecord {
    match seed
    case None => ContinuationRecord(prompt, a.mode, a.confined, [], 0)
    case Some(s) => s.rec.(mode := a.mode, confined := a.confined)
  }

  /** Cut from the caller's tree, or handed forward from the predecessor's. */
  function Workspace(a: Attempt, seed: Option<Seed>): Option<Worktree> {
    match seed
    case None => a.checkout(None)
    case Some(s) => if s.predWorktree.None? then None else a.checkout(s.predWorktree)
  }

  /** A gate opened on the way to a failure is closed again. */
  function BuildSpec(b: BridgeState, a: Attempt, prompt: string, seed: Option<Seed>): (BridgeState, Option<Spec>) {
    if a.wantsGate && !a.gateStarts then (b, None)
    else
      var b1 := if a.wantsGate then b.(gates := b.gates + {a.id}) else b;
      var confinedWrite := a.mode == Write && a.confined;
      if !a.argsBuild || (confinedWrite && Workspace(a, seed).None?) then
        (if a.wantsGate then CloseGate(b1, a.id) else b1, None)
      else
        (b1, Some(Spec(a.id, a.confined, if confinedWrite then Workspace(a, seed) else None,
                       if seed.Some? then Some(seed.value.pred) else None, RecordFor(a, prompt, seed))))
  }

  function Launch(b: BridgeState, limits: Limits, spec: Spec, order: seq<RunId>, env: seq<seq<RunEvent>>)
    : (BridgeState, Result<RunId, nat>)
  {
    var (reg, r) := Start(b.reg, limits.maxLive, spec, order, env);
    if r.Err? then (b.(reg := reg), r)
    else
      (b.(reg := reg,
          admitted := b.admitted[spec.id := spec.continuation],
          successor := if spec.resumedFrom.Some? then b.successor[spec.resumedFrom.value := spec.id] else b.successor),
       r)
  }

  /** Registered at spawn, not at collection. */
  function Register(b: BridgeState, spec: Spec): BridgeState {
    if spec.worktree.Some? then b.(store := b.store[spec.id := PendingChanges(spec.worktree.value, "")]) else b
  }

  // ---------------------------------------------------------------- asking

  function AskAgent(b: BridgeState, limits: Limits, a: Attempt, prompt: string, order: seq<RunId>,
                    env: seq<seq<RunEvent>>)
    : (BridgeState, Result<RunId, Refusal>)
  {
    if !a.authorised then (b, Err(NotAuthorised))
    else
      var (b1, spec) := BuildSpec(b, a, prompt, None);
      if spec.None? then (b1, Err(SpecFailed))
      else
        var (b2, r) := Launch(b1, limits, spec.value, order, env);
        match r
        case Err(live) => (CloseGate(b2, a.id), Err(NoSlot(live)))
        case Ok(id) => (Register(b2, spec.value), Ok(id))
  }

  // ---------------------------------------------------------------- continuing

  /** One call of continueRun: what the collaborators said, and what every other
      goroutine did to the runs before each of its steps. */
  datatype Turn = Turn(
    attempt: Attempt, cutoff: int, now: int, order: seq<RunId>,
    env: seq<seq<RunEvent>>, countEnv: seq<seq<RunEvent>>)

  /** The record goes back to its run; nothing else was done. */
  function Restore(b: BridgeState, pred: RunId, rec: ContinuationRecord): BridgeState {
    OnRun(b, pred, OpSetContinuation(rec))
  }

  /** Label the predecessor if it still rests, then take its handle, its entry and its
      gate whatever the label came to. */
  function RetirePredecessor(b: BridgeState, pred: RunId, succ: RunId, now: int, env: seq<seq<RunEvent>>): BridgeState {
    var b1 := OnRun(Meanwhile(b, Between(env, 4)), pred, OpSupersede(succ, now));
    var b2 := OnRun(Meanwhile(b1, Between(env, 5)), pred, OpTakeWorktree);
    var b3 := Discard(Meanwhile(b2, Between(env, 6)), pred);
    CloseGate(b3, pred)
  }

  /** From the moment the spec is built. */
  function Launching(b: BridgeState, limits: Limits, seed: Seed, taken: ContinuationRecord, spec: Spec, t: Turn)
    : (BridgeState, Result<RunId, Refusal>)
  {
    var (b2, r) := Launch(Meanwhile(b, Between(t.env, 3)), limits, spec, t.order, t.countEnv);
    match r
    case Err(live) => (CloseGate(Restore(b2, seed.pred, taken), t.attempt.id), Err(NoSlot(live)))
    case Ok(id) => (RetirePredecessor(Register(b2, spec), seed.pred, id, t.now, t.env), Ok(id))
  }

  /** From the moment the spec is asked for. */
  function Commit(b: BridgeState, limits: Limits, seed: Seed, taken: ContinuationRecord, t: Turn)
    : (BridgeState, Result<RunId, Refusal>)
  {
    if !t.attempt.authorised then (Restore(b, seed.pred, taken), Err(NotAuthorised))
    else
      var (b1, spec) := BuildSpec(b, t.attempt, taken.prompt, Some(seed));
      if spec.None? then (Restore(b1, seed.pred, taken), Err(SpecFailed))
      else Launching(b1, limits, seed, taken, spec.value, t)
  }

  predicate WorkspaceLost(b: BridgeState, pred: RunId, rec: ContinuationRecord) {
    rec.mode == Write && rec.confined && pred !in b.store
  }

  /** What the successor is started from: the record one turn longer, and the
      predecessor's worktree where there is one. */
  function NextSeed(b: BridgeState, pred: RunId, q: Question, answer: string, rec: ContinuationRecord): Seed
    requires !WorkspaceLost(b, pred, rec)
  {
    var workspace := if rec.mode == Write && rec.confined then Some(b.store[pred].wt) else None;
    Seed(pred, rec.(turns := rec.turns + [QATurn(q, answer)], depth := rec.depth + 1), workspace)
  }

  /** From the moment the question is read. */
  function Resume(b: BridgeState, limits: Limits, pred: RunId, answer: string, rec: ContinuationRecord, t: Turn)
    : (BridgeState, Result<RunId, Refusal>)
    requires pred in b.reg.objects
  {
    var question := ShownQuestion(b.reg.objects[pred]);
    if question.None? then (Restore(b, pred, rec), Err(NoQuestionRecorded))
    else if WorkspaceLost(b, pred, rec) then (Restore(b, pred, rec), Err(NoWorkspace))
    else Commit(b, limits, NextSeed(b, pred, question.value, answer, rec), rec, t)
  }

  /** From the moment the record has been taken. */
  function Proceed(b: BridgeState, limits: Limits, pred: RunId, answer: string, rec: ContinuationRecord, t: Turn)
    : (BridgeState, Result<RunId, Refusal>)
    requires pred in b.reg.objects
  {
    if !DepthAllowed(rec, limits.maxContinuations) then (Restore(b, pred, rec), Err(ChainTooDeep))
    else if rec.mode == Write && !rec.confined then (Restore(b, pred, rec), Err(Unconfined))
    else Resume(Meanwhile(b, Between(t.env, 2)), limits, pred, answer, rec, t)
  }

  function Continue(b: BridgeState, limits: Limits, pred: RunId, answer: string, t: Turn)
    : (BridgeState, Result<RunId, Refusal>)
  {
    var b1 := Arrive(b, Between(t.env, 0), t.cutoff);
    if pred !in b1.reg.runs || pred !in b1.reg.objects then (b1, Err(NoSuchRun))
    else
      var b2 := Meanwhile(b1, Between(t.env, 1));
      var r := b2.reg.objects[pred];
      match TakeRefusal(r)
      case Some(why) => (b2, Err(NotContinuable(why)))
      case None => Proceed(OnRun(b2, pred, OpTakeContinuation), limits, pred, answer, r.continuation.value, t)
  }

  // ---------------------------------------------------------------- collecting

  /** What git says the worktree holds: an error, or a patch. */
  function CollectDiff(b: BridgeState, id: RunId, wt: Worktree, diff: Option<string>): BridgeState {
    match diff
    case None => b
    case Some(patch) =>
      if patch == "" then Discard(b, id) else b.(store := b.store[id := PendingChanges(wt, patch)])
  }

  /** A finished run nobody collected, whose entry never got a patch. */
  predicate Abandoned(b: BridgeState, id: RunId) {
    && id in b.reg.runs && id in b.reg.objects && id in b.store
    && b.reg.objects[id].state.IsTerminal() && b.reg.objects[id].state != Completed
    && b.store[id].patch == ""
  }

  function Reap(b: BridgeState): BridgeState {
    b.(store := map id | id in b.store && !Abandoned(b, id) :: b.store[id])
  }

  /** await_agent once its wait is over, by the state it finds. */
  function Collect(b: BridgeState, id: RunId, diff: Option<string>, env: seq<RunEvent>, cutoff: int): BridgeState {
    if id !in b.reg.objects then b
    else
      var r := b.reg.objects[id];
      if r.state == Superseded then b
      else if r.state == NeedsInput then CloseGate(b, id)
      else if !r.state.IsTerminal() then b
      else
        var b1 := OnRun(CloseGate(b, id), id, OpTakeWorktree);
        var b2 := if r.worktree.Some? then CollectDiff(b1, id, r.worktree.value, diff) else b1;
        Reap(Arrive(b2, env, cutoff))
  }

  // ---------------------------------------------------------------- deciding

  /** White space as Unicode defines it. */
  predicate IsSpace(c: char) {
    var r := c as int;
    || 0x09 <= r <= 0x0D || r == 0x20 || r == 0x85 || r == 0xA0 || r == 0x1680
    || 0x2000 <= r <= 0x200A || r == 0x2028 || r == 0x2029 || r == 0x202F || r == 0x205F || r == 0x3000
  }

  /** Nothing is left when white space is trimmed. */
  predicate Blank(s: string) { forall i :: 0 <= i < |s| ==> IsSpace(s[i]) }

  datatype Decision =
    | Applied | Dropped | Superseding(next: Option<RunId>) | NothingPending | DoesNotApply | NotConfined | Unknown

  /** `clean` is whether git applies a non-empty patch. */
  function ApplyPatch(b: BridgeState, id: RunId, clean: bool): (BridgeState, Decision) {
    if id !in b.store then (b, NothingPending)
    else if Blank(b.store[id].patch) || !clean then (b, DoesNotApply)
    else (Discard(b.(applied := b.applied + [id]), id), Applied)
  }

  /** The operator's accept: a run already pruned may still have its entry. */
  function Accept(b: BridgeState, id: RunId, clean: bool, env: seq<RunEvent>, cutoff: int): (BridgeState, Decision) {
    var b1 := Arrive(b, env, cutoff);
    if id in b1.reg.runs && id in b1.reg.objects && b1.reg.objects[id].state == Superseded
    then (b1, Superseding(b1.reg.objects[id].resumedBy))
    else ApplyPatch(b1, id, clean)
  }

  /** The model's accept_changes: the run must still be known, and confined. */
  function AcceptChanges(b: BridgeState, id: RunId, clean: bool, env: seq<RunEvent>, cutoff: int)
    : (BridgeState, Decision)
  {
    var b1 := Arrive(b, env, cutoff);
    if id !in b1.reg.runs || id !in b1.reg.objects then (b1, Unknown)
    else if b1.reg.objects[id].state == Superseded then (b1, Superseding(b1.reg.objects[id].resumedBy))
    else if !b1.reg.objects[id].confined then (b1, NotConfined)
    else ApplyPatch(b1, id, clean)
  }

  function Reject(b: BridgeState, id: RunId): (BridgeState, Decision) {
    if id !in b.store then (b, NothingPending) else (Discard(b, id), Dropped)
  }
}
