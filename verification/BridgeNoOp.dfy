/** A continuation that is refused, at any step and for any reason, leaves exactly
    what the passage of time alone would have left. */
module BridgeNoOp {
  import opened Wrappers
  import opened RunLifecycle
  import opened Registry
  import opened Bridge
  import opened BridgeLaws
  import opened BridgeOperations

  // ---------------------------------------------------------------- a record on loan

  /** The registry with one run's record taken out. */
  function Without(s: RegistryState, pred: RunId): RegistryState
    requires pred in s.objects
  {
    s.(objects := s.objects[pred := s.objects[pred].(continuation := None)])
  }

  function BridgeWithout(b: BridgeState, pred: RunId): BridgeState
    requires pred in b.reg.objects
  {
    b.(reg := Without(b.reg, pred))
  }

  /** One step, with and without the record. */
  predicate RecordIdle(v: RunView, op: Op) {
    && Apply(v.(continuation := None), op).view == Apply(v, op).view.(continuation := None)
    && Apply(v.(continuation := None), op).event == Apply(v, op).event
    && Apply(v, op).view.continuation == v.continuation
  }

  lemma RecordIdleWhileAsking(v: RunView, q: Question, ch: ChanId, now: int)
    ensures RecordIdle(v, OpAsk(q, ch, now))
  {
  }

  lemma RecordIdleWhileResolved(v: RunView, wantId: string, verdict: Verdict)
    ensures RecordIdle(v, OpResolve(wantId, verdict))
  {
  }

  lemma RecordIdleWhileStopped(v: RunView, reason: string, now: int)
    ensures RecordIdle(v, OpNeedsInput(reason, now))
  {
  }

  lemma RecordIdleWhileFinished(v: RunView, exit: Exit, now: int)
    ensures RecordIdle(v, OpFinish(exit, now))
  {
  }

  lemma RecordIdleWhileExpiring(v: RunView, now: int)
    ensures RecordIdle(v, OpExpire(now))
  {
  }

  lemma RecordIdleWhileNoted(v: RunView, msg: string)
    ensures RecordIdle(v, OpAwait) && RecordIdle(v, OpSetDiagnostic(msg))
  {
  }

  lemma RecordPlaysNoPart(v: RunView, op: Op)
    requires Environment(op)
    ensures RecordIdle(v, op)
  {
    hide RecordIdle;
    match op
    case OpAsk(q, ch, now) => RecordIdleWhileAsking(v, q, ch, now);
    case OpResolve(wantId, verdict) => RecordIdleWhileResolved(v, wantId, verdict);
    case OpNeedsInput(reason, now) => RecordIdleWhileStopped(v, reason, now);
    case OpFinish(exit, now) => RecordIdleWhileFinished(v, exit, now);
    case OpExpire(now) => RecordIdleWhileExpiring(v, now);
    case OpAwait => RecordIdleWhileNoted(v, "");
    case OpSetDiagnostic(msg) => RecordIdleWhileNoted(v, msg);
  }

  lemma WithoutStep(s: RegistryState, pred: RunId, e: RunEvent)
    requires pred in s.objects && Environment(e.op)
    ensures Happen(Without(s, pred), e) == Without(Happen(s, e), pred)
    ensures Happen(s, e).objects[pred].continuation == s.objects[pred].continuation
  {
    hide Apply;
    if e.run == pred {
      RecordPlaysNoPart(s.objects[pred], e.op);
      assert Happen(Without(s, pred), e).objects == Without(Happen(s, e), pred).objects;
    } else if e.run in s.objects {
      assert Happen(Without(s, pred), e).objects == Without(Happen(s, e), pred).objects;
    }
  }

  lemma {:induction false} WithoutAll(s: RegistryState, pred: RunId, es: seq<RunEvent>)
    requires pred in s.objects && Natural(es)
    ensures HappenAll(Without(s, pred), es) == Without(HappenAll(s, es), pred)
    ensures HappenAll(s, es).objects[pred].continuation == s.objects[pred].continuation
    decreases |es|
  {
    if es != [] {
      WithoutStep(s, pred, es[0]);
      WithoutAll(Happen(s, es[0]), pred, es[1..]);
    }
  }

  lemma GivenBack(b: BridgeState, pred: RunId, rec: ContinuationRecord)
    requires pred in b.reg.objects && b.reg.objects[pred].continuation == Some(rec)
    ensures Restore(BridgeWithout(b, pred), pred, rec) == b
  {
    var v := b.reg.objects[pred];
    assert v.(continuation := None).(continuation := Some(rec)) == v;
    assert Restore(BridgeWithout(b, pred), pred, rec).reg.objects == b.reg.objects;
  }

  lemma Taken(b: BridgeState, pred: RunId)
    requires pred in b.reg.objects && TakeRefusal(b.reg.objects[pred]).None?
    ensures OnRun(b, pred, OpTakeContinuation) == BridgeWithout(b, pred)
  {
  }

  // ---------------------------------------------------------------- refusals, step by step

  lemma MeanwhileInParts(b: BridgeState, x: seq<RunEvent>, y: seq<RunEvent>)
    requires Natural(x) && Natural(y)
    ensures Meanwhile(Meanwhile(b, x), y) == Meanwhile(b, x + y) && Natural(x + y)
  {
    HappenInParts(b.reg, x, y);
  }

  /** Nothing else moves during the call. */
  predicate Quiet(t: Turn) { t.env == [] && t.countEnv == [] }

  /** From the spec onwards: no slot, no spec, or no authority. */
  lemma CommitRefused(b: BridgeState, limits: Limits, seed: Seed, taken: ContinuationRecord,
                      t: Turn) returns (elapsed: seq<RunEvent>)
    requires seed.pred in b.reg.objects && b.reg.objects[seed.pred].continuation == Some(taken)
    requires t.attempt.id !in b.gates && NaturalAll(t.env) && NaturalAll(t.countEnv)
    requires Commit(BridgeWithout(b, seed.pred), limits, seed, taken, t).1.Err?
    ensures Natural(elapsed) && (Quiet(t) ==> elapsed == [])
    ensures Commit(BridgeWithout(b, seed.pred), limits, seed, taken, t).0 == Meanwhile(b, elapsed)
  {
    var pred, a := seed.pred, t.attempt;
    var b' := BridgeWithout(b, pred);
    GivenBack(b, pred, taken);
    BuildFrame(b', a, taken.prompt, Some(seed));
    var (b1, spec) := BuildSpec(b', a, taken.prompt, Some(seed));
    if !a.authorised || spec.None? {
      elapsed := [];
    } else {
      var es, fs := Between(t.env, 3), Flat(t.order, t.countEnv);
      LaunchShape(Meanwhile(b1, es), limits, spec.value, t.order, t.countEnv);
      CountingIsElapsing(Meanwhile(b1, es).reg, t.order, spec.value.resumedFrom, t.countEnv);
      MeanwhileInParts(b1, es, fs);
      elapsed := es + fs;
      RefusedAtStart(b, b1, pred, taken, a.id, elapsed);
    }
  }

  lemma RefusedAtStart(b: BridgeState, b1: BridgeState, pred: RunId, taken: ContinuationRecord, id: RunId,
                       es: seq<RunEvent>)
    requires pred in b.reg.objects && b.reg.objects[pred].continuation == Some(taken) && Natural(es)
    requires b1 == BridgeWithout(b, pred).(gates := b1.gates)
    requires id !in b.gates && b.gates <= b1.gates <= b.gates + {id}
    ensures CloseGate(Restore(Meanwhile(b1, es), pred, taken), id) == Meanwhile(b, es)
  {
    WithoutAll(b.reg, pred, es);
    GivenBack(Meanwhile(b, es), pred, taken);
    assert b1.gates - {id} == b.gates;
  }

  lemma ResumeRefused(b: BridgeState, limits: Limits, pred: RunId, answer: string, rec: ContinuationRecord, t: Turn)
    returns (elapsed: seq<RunEvent>)
    requires pred in b.reg.objects && b.reg.objects[pred].continuation == Some(rec)
    requires t.attempt.id !in b.gates && NaturalAll(t.env) && NaturalAll(t.countEnv)
    requires Resume(BridgeWithout(b, pred), limits, pred, answer, rec, t).1.Err?
    ensures Natural(elapsed) && (Quiet(t) ==> elapsed == [])
    ensures Resume(BridgeWithout(b, pred), limits, pred, answer, rec, t).0 == Meanwhile(b, elapsed)
  {
    GivenBack(b, pred, rec);
    elapsed := [];
    var question := ShownQuestion(b.reg.objects[pred]);
    if question.Some? && !WorkspaceLost(b, pred, rec) {
      elapsed := CommitRefused(b, limits, NextSeed(b, pred, question.value, answer, rec), rec, t);
    }
  }

  lemma ProceedRefused(b: BridgeState, limits: Limits, pred: RunId, answer: string, rec: ContinuationRecord, t: Turn)
    returns (elapsed: seq<RunEvent>)
    requires pred in b.reg.objects && b.reg.objects[pred].continuation == Some(rec)
    requires t.attempt.id !in b.gates && NaturalAll(t.env) && NaturalAll(t.countEnv)
    requires Proceed(BridgeWithout(b, pred), limits, pred, answer, rec, t).1.Err?
    ensures Natural(elapsed) && (Quiet(t) ==> elapsed == [])
    ensures Proceed(BridgeWithout(b, pred), limits, pred, answer, rec, t).0 == Meanwhile(b, elapsed)
  {
    GivenBack(b, pred, rec);
    elapsed := [];
    if DepthAllowed(rec, limits.maxContinuations) && !(rec.mode == Write && !rec.confined) {
      var es := Between(t.env, 2);
      WithoutAll(b.reg, pred, es);
      var later := ResumeRefused(Meanwhile(b, es), limits, pred, answer, rec, t);
      MeanwhileInParts(b, es, later);
      elapsed := es + later;
    }
  }

  /** A refused continueRun equals its own arrival and the runs' own transitions,
      nothing else: record, entry, gates, slot and log included. */
  lemma FailedContinueIsNoOp(b: BridgeState, limits: Limits, pred: RunId, answer: string, t: Turn)
    returns (elapsed: seq<RunEvent>)
    requires BridgeInv(b, limits) && TurnOk(b, t) && Continue(b, limits, pred, answer, t).1.Err?
    ensures Natural(elapsed) && (Quiet(t) ==> elapsed == [])
    ensures Continue(b, limits, pred, answer, t).0 == Meanwhile(Arrive(b, Between(t.env, 0), t.cutoff), elapsed)
  {
    var b1, b2, es := Arrive(b, Between(t.env, 0), t.cutoff), Found(b, t), Between(t.env, 1);
    ContinueShape(b, limits, pred, answer, t);
    if Continue(b, limits, pred, answer, t).0 == b1 {
      elapsed := [];
    } else if Continue(b, limits, pred, answer, t).0 == b2 {
      elapsed := es;
    } else {
      var rec := b2.reg.objects[pred].continuation.value;
      Taken(b2, pred);
      FreshId(b, limits, t.attempt.id);
      var later := ProceedRefused(b2, limits, pred, answer, rec, t);
      MeanwhileInParts(b1, es, later);
      elapsed := es + later;
    }
  }

  // ---------------------------------------------------------------- what that means for the predecessor

  /** One run's share of what happened. */
  function Mine(es: seq<RunEvent>, id: RunId): seq<Op>
    decreases |es|
  {
    if es == [] then [] else if es[0].run == id then [es[0].op] + Mine(es[1..], id) else Mine(es[1..], id)
  }

  lemma {:induction false} ShareOfEvents(s: RegistryState, es: seq<RunEvent>, id: RunId)
    requires id in s.objects && Natural(es)
    ensures HappenAll(s, es).objects[id] == Run(s.objects[id], Mine(es, id))
    ensures EnvironmentOps(Mine(es, id))
    decreases |es|
  {
    if es != [] {
      ShareOfEvents(Happen(s, es[0]), es[1..], id);
      if es[0].run == id {
        assert Mine(es, id)[1..] == Mine(es[1..], id);
      }
    }
  }

  predicate OnlyExpiries(events: seq<Event>) { forall i :: 0 <= i < |events| ==> events[i].Expired? }

  lemma NaturalLogStep(s: RegistryState, e: RunEvent) returns (tail: seq<Event>)
    requires Environment(e.op)
    ensures Happen(s, e).events == s.events + tail && OnlyExpiries(tail)
  {
    tail := if e.run in s.objects && Apply(s.objects[e.run], e.op).event.Some?
            then [Apply(s.objects[e.run], e.op).event.value] else [];
  }

  lemma {:induction false} NaturalLog(s: RegistryState, es: seq<RunEvent>) returns (tail: seq<Event>)
    requires Natural(es)
    ensures HappenAll(s, es).events == s.events + tail && OnlyExpiries(tail)
    decreases |es|
  {
    if es == [] {
      tail := [];
    } else {
      hide Happen;
      var first := NaturalLogStep(s, es[0]);
      var rest := NaturalLog(Happen(s, es[0]), es[1..]);
      tail := first + rest;
    }
  }

  /** The predecessor of a refused continuation keeps its state, its question, its
      record and its slot, unless its deadline passed; no run, gate or entry came or
      went, and nothing but expiries was logged. */
  lemma FailedContinueKeepsThePredecessor(b: BridgeState, limits: Limits, pred: RunId, answer: string, t: Turn)
    returns (tail: seq<Event>)
    requires BridgeInv(b, limits) && TurnOk(b, t) && Continue(b, limits, pred, answer, t).1.Err?
    requires pred in b.reg.objects && b.reg.objects[pred].state == NeedsInput
    ensures var c := Continue(b, limits, pred, answer, t).0;
            && pred in c.reg.objects && SameButExpired(b.reg.objects[pred], c.reg.objects[pred])
            && c.reg.objects.Keys == b.reg.objects.Keys
            && c.store == b.store && c.gates == b.gates && c.applied == b.applied
            && c.admitted == b.admitted && c.successor == b.successor
            && c.reg.events == b.reg.events + tail && OnlyExpiries(tail)
  {
    hide Sound, Continue, SameButExpired, OnlyExpiries, TurnOk;
    NaturalTurn(b, t);
    RunOf(b, limits, None, pred);
    var elapsed := FailedContinueIsNoOp(b, limits, pred, answer, t);
    var first := Between(t.env, 0);
    var pruned := Arrive(b, first, t.cutoff);
    var all := first + elapsed;
    HappenInParts(b.reg, first, elapsed);
    PruningAside(HappenAll(b.reg, first), pruned.reg, elapsed);
    ShareOfEvents(b.reg, all, pred);
    RestingUntouched(b.reg.objects[pred], Mine(all, pred));
    tail := NaturalLog(b.reg, all);
  }

  lemma NaturalTurn(b: BridgeState, t: Turn)
    requires TurnOk(b, t)
    ensures Natural(Between(t.env, 0)) && NaturalAll(t.env) && NaturalAll(t.countEnv)
  {
  }

  /** Which runs can still be looked up has no bearing on what happens to them. */
  lemma {:induction false} PruningAside(s: RegistryState, t: RegistryState, es: seq<RunEvent>)
    requires t == s.(runs := t.runs)
    ensures HappenAll(t, es) == HappenAll(s, es).(runs := t.runs)
    decreases |es|
  {
    if es != [] { PruningAside(Happen(s, es[0]), Happen(t, es[0]), es[1..]); }
  }

  /** With nothing else happening a refusal changes nothing at all but retention, so
      the same attempt meets the same decision again. */
  lemma QuietRetryMeetsTheSameDecision(b: BridgeState, limits: Limits, pred: RunId, answer: string, t: Turn)
    requires BridgeInv(b, limits) && TurnOk(b, t) && Quiet(t)
    requires Continue(b, limits, pred, answer, t).1.Err?
    ensures Continue(b, limits, pred, answer, t).0 == Arrive(b, [], t.cutoff)
    ensures var c := Continue(b, limits, pred, answer, t); Continue(c.0, limits, pred, answer, t) == c
  {
    var c := Arrive(b, [], t.cutoff);
    var elapsed := FailedContinueIsNoOp(b, limits, pred, answer, t);
    assert Prune(c.reg, t.cutoff).runs == c.reg.runs;
    assert Arrive(c, [], t.cutoff) == c;
  }

  // ---------------------------------------------------------------- and a continuation that succeeds

  /** What one success adds to the bridge, run states aside. */
  predicate Extended(b: BridgeState, c: BridgeState, pred: RunId, q: Question, answer: string, a: Attempt) {
    && pred in b.admitted
    && c.reg.objects.Keys == b.reg.objects.Keys + {a.id}
    && c.admitted == b.admitted[a.id := b.admitted[pred].(
         turns := b.admitted[pred].turns + [QATurn(q, answer)], depth := b.admitted[pred].depth + 1,
         mode := a.mode, confined := a.confined)]
    && c.successor == b.successor[pred := a.id]
    && c.applied == b.applied
    && c.gates == b.gates + (if a.wantsGate then {a.id} else {}) - {pred}
    && (if a.mode == Write && a.confined
        then pred in b.store && a.checkout(Some(b.store[pred].wt)).Some?
             && c.store == b.store[a.id := PendingChanges(a.checkout(Some(b.store[pred].wt)).value, "")] - {pred}
        else c.store == b.store - {pred})
  }

  /** The new run holds what the attempt meant it to: its checkout above all, cut from its
      predecessor's workspace. */
  predicate SuccessorHolds(b: BridgeState, c: BridgeState, pred: RunId, a: Attempt) {
    && a.id in c.reg.objects && a.id in c.admitted
    && var v := c.reg.objects[a.id];
    && v.id == a.id && v.confined == a.confined && v.resumedFrom == Some(pred) && !v.retiring
    && v.continuation == Some(c.admitted[a.id])
    && v.worktree == if a.mode == Write && a.confined && pred in b.store then a.checkout(Some(b.store[pred].wt))
                     else None
  }

  lemma WithoutKeepsInv(b: BridgeState, pred: RunId)
    requires pred in b.reg.objects && RegistryInv(b.reg)
    ensures RegistryInv(BridgeWithout(b, pred).reg)
  {
    hide Live;
  }

  /** What the retirement of its predecessor leaves a new run. */
  lemma RetireKeepsOthers(b: BridgeState, pred: RunId, succ: RunId, now: int, env: seq<seq<RunEvent>>, id: RunId)
    requires RegistryInv(b.reg) && NaturalAll(env) && id in b.reg.objects && id != pred
    ensures var c := RetirePredecessor(b, pred, succ, now, env);
      id in c.reg.objects && Kept(b.reg.objects[id], c.reg.objects[id])
  {
    hide RegistryInv, Live, Kept, Happen;
    var s0 := HappenAll(b.reg, Between(env, 4));
    NaturalKeeps(b.reg, Between(env, 4));
    var s1 := Happen(s0, RunEvent(pred, OpSupersede(succ, now)));
    HappenFacts(s0, RunEvent(pred, OpSupersede(succ, now)));
    HappenElsewhere(s0, RunEvent(pred, OpSupersede(succ, now)), id);
    var s2 := HappenAll(s1, Between(env, 5));
    NaturalKeeps(s1, Between(env, 5));
    var s3 := Happen(s2, RunEvent(pred, OpTakeWorktree));
    HappenFacts(s2, RunEvent(pred, OpTakeWorktree));
    HappenElsewhere(s2, RunEvent(pred, OpTakeWorktree), id);
    NaturalKeeps(s3, Between(env, 6));
    KeptThrough(b.reg.objects[id], s0.objects[id], s2.objects[id]);
    KeptThrough(b.reg.objects[id], s2.objects[id], HappenAll(s3, Between(env, 6)).objects[id]);
  }

  lemma KeptThrough(u: RunView, v: RunView, w: RunView)
    requires Kept(u, v) && Kept(v, w)
    ensures Kept(u, w)
  {
  }

  lemma HappenElsewhere(s: RegistryState, e: RunEvent, id: RunId)
    requires id in s.objects && e.run != id
    ensures Happen(s, e).objects[id] == s.objects[id]
  {
  }

  /** Everybody but the predecessor is left to itself. */
  predicate Bystanders(s: RegistryState, t: RegistryState, pred: RunId) {
    forall id :: id in s.objects && id != pred ==> id in t.objects && Kept(s.objects[id], t.objects[id])
  }

  lemma BystandersTwice(s: RegistryState, t: RegistryState, u: RegistryState, pred: RunId)
    requires Bystanders(s, t, pred) && Bystanders(t, u, pred)
    ensures Bystanders(s, u, pred)
  {
    forall id | id in s.objects && id != pred ensures id in u.objects && Kept(s.objects[id], u.objects[id]) {
      KeptThrough(s.objects[id], t.objects[id], u.objects[id]);
    }
  }

  lemma AllKeptBystanders(s: RegistryState, t: RegistryState, pred: RunId)
    requires AllKept(s, t)
    ensures Bystanders(s, t, pred)
  {
  }

  lemma GainsBystanders(s: RegistryState, t: RegistryState, spec: Spec, pred: RunId)
    requires Gains(s, t, spec) && spec.resumedFrom == Some(pred)
    ensures Bystanders(s, t, pred)
  {
    hide IsNew;
  }

  lemma RetireBystanders(b: BridgeState, pred: RunId, succ: RunId, now: int, env: seq<seq<RunEvent>>)
    requires RegistryInv(b.reg) && NaturalAll(env)
    ensures Bystanders(b.reg, RetirePredecessor(b, pred, succ, now, env).reg, pred)
  {
    hide RegistryInv, RetirePredecessor, Kept;
    forall id | id in b.reg.objects && id != pred
      ensures var c := RetirePredecessor(b, pred, succ, now, env);
        id in c.reg.objects && Kept(b.reg.objects[id], c.reg.objects[id])
    {
      RetireKeepsOthers(b, pred, succ, now, env, id);
    }
  }

  /** Moving runs about does not matter to what a success adds. */
  predicate SameButRuns(b: BridgeState, c: BridgeState) {
    b == c.(reg := b.reg) && b.reg.objects.Keys == c.reg.objects.Keys
  }

  function JustAdmitted(b: BridgeState, spec: Spec, t: Turn): BridgeState {
    Admitted(Meanwhile(Meanwhile(b, Between(t.env, 3)), Flat(t.order, t.countEnv)), spec)
  }

  /** The spec of a success, field by field. */
  lemma BuiltSpec(b: BridgeState, a: Attempt, prompt: string, seed: Option<Seed>)
    requires BuildSpec(b, a, prompt, seed).1.Some?
    ensures var (c, spec) := BuildSpec(b, a, prompt, seed);
            && c == b.(gates := b.gates + (if a.wantsGate then {a.id} else {}))
            && spec.value == Spec(a.id, a.confined, if a.mode == Write && a.confined then Workspace(a, seed) else None,
                                  if seed.Some? then Some(seed.value.pred) else None, RecordFor(a, prompt, seed))
  {
  }

  lemma CommitShape(b: BridgeState, limits: Limits, seed: Seed, taken: ContinuationRecord, t: Turn)
    requires NaturalAll(t.env) && NaturalAll(t.countEnv)
    requires Commit(b, limits, seed, taken, t).1.Ok?
    ensures var (b1, spec) := BuildSpec(b, t.attempt, taken.prompt, Some(seed));
            && spec.Some? && spec.value.id == t.attempt.id
            && Commit(b, limits, seed, taken, t)
               == (RetirePredecessor(Register(JustAdmitted(b1, spec.value, t), spec.value), seed.pred, t.attempt.id,
                                     t.now, t.env),
                   Ok(t.attempt.id))
  {
    var (b1, spec) := BuildSpec(b, t.attempt, taken.prompt, Some(seed));
    LaunchShape(Meanwhile(b1, Between(t.env, 3)), limits, spec.value, t.order, t.countEnv);
  }

  lemma CommitExtends(b: BridgeState, limits: Limits, seed: Seed, taken: ContinuationRecord, q: Question,
                      answer: string, t: Turn)
    requires NaturalAll(t.env) && NaturalAll(t.countEnv) && t.attempt.id !in b.gates && t.attempt.id !in b.reg.objects
    requires seed.pred in b.reg.objects && seed.pred in b.admitted && taken == b.admitted[seed.pred]
    requires seed.rec == taken.(turns := taken.turns + [QATurn(q, answer)], depth := taken.depth + 1)
    requires seed.predWorktree.Some? ==> seed.pred in b.store && seed.predWorktree == Some(b.store[seed.pred].wt)
    requires Commit(b, limits, seed, taken, t).1.Ok?
    ensures Commit(b, limits, seed, taken, t).1 == Ok(t.attempt.id)
    ensures Extended(b, Commit(b, limits, seed, taken, t).0, seed.pred, q, answer, t.attempt)
  {
    hide Commit, RetirePredecessor, Register, JustAdmitted;
    var a, pred := t.attempt, seed.pred;
    CommitShape(b, limits, seed, taken, t);
    var (b1, spec) := BuildSpec(b, a, taken.prompt, Some(seed));
    BuiltSpec(b, a, taken.prompt, Some(seed));
    RegisteredExtends(b, b1, spec.value, seed, taken, q, answer, t);
    RetireFrame(Register(JustAdmitted(b1, spec.value, t), spec.value), pred, a.id, t.now, t.env);
  }

  /** Before the predecessor is stripped of its entry and its gate. */
  lemma RegisteredExtends(b: BridgeState, b1: BridgeState, spec: Spec, seed: Seed, taken: ContinuationRecord,
                          q: Question, answer: string, t: Turn)
    requires seed.pred in b.admitted && taken == b.admitted[seed.pred] && t.attempt.id !in b.reg.objects
    requires seed.rec == taken.(turns := taken.turns + [QATurn(q, answer)], depth := taken.depth + 1)
    requires b1 == b.(gates := b.gates + (if t.attempt.wantsGate then {t.attempt.id} else {}))
    requires var a := t.attempt;
             spec == Spec(a.id, a.confined, if a.mode == Write && a.confined then Workspace(a, Some(seed)) else None,
                          Some(seed.pred), RecordFor(a, taken.prompt, Some(seed)))
    ensures var d := Register(JustAdmitted(b1, spec, t), spec);
            && d.reg.objects.Keys == b.reg.objects.Keys + {t.attempt.id}
            && d.admitted
            == b.admitted[t.attempt.id := seed.rec.(mode := t.attempt.mode, confined := t.attempt.confined)]
            && d.successor == b.successor[seed.pred := t.attempt.id]
            && d.applied == b.applied && d.gates == b1.gates
            && d.store == (if spec.worktree.None? then b.store
                           else b.store[t.attempt.id := PendingChanges(spec.worktree.value, "")])
  {
  }

  lemma JustAdmittedIsNew(b: BridgeState, spec: Spec, t: Turn)
    requires RegistryInv(b.reg) && NaturalAll(t.env) && NaturalAll(t.countEnv)
    requires spec.id !in b.reg.objects && spec.resumedFrom != Some(spec.id)
    ensures var d := JustAdmitted(b, spec, t);
      && RegistryInv(d.reg) && spec.id in d.reg.objects && IsNew(d.reg.objects[spec.id], spec)
      && spec.id in d.admitted && d.admitted[spec.id] == spec.continuation
      && (spec.resumedFrom.Some? ==> Bystanders(b.reg, d.reg, spec.resumedFrom.value))
  {
    RunsAreObjects(b, spec, t);
    hide RegistryInv, Live, IsNew, HappenAll, Admit, Kept;
    var b1 := Meanwhile(b, Between(t.env, 3));
    var b2 := Meanwhile(b1, Flat(t.order, t.countEnv));
    NaturalKeeps(b.reg, Between(t.env, 3));
    CountingIsElapsing(b1.reg, t.order, None, t.countEnv);
    NaturalKeeps(b1.reg, Flat(t.order, t.countEnv));
    AdmitInv(b2.reg, spec);
    AdmitGains(b2.reg, spec);
    if spec.resumedFrom.Some? {
      var pred := spec.resumedFrom.value;
      AllKeptBystanders(b.reg, b1.reg, pred);
      AllKeptBystanders(b1.reg, b2.reg, pred);
      GainsBystanders(b2.reg, Admit(b2.reg, spec), spec, pred);
      BystandersTwice(b.reg, b1.reg, b2.reg, pred);
      BystandersTwice(b.reg, b2.reg, Admit(b2.reg, spec), pred);
    }
  }

  lemma RunsAreObjects(b: BridgeState, spec: Spec, t: Turn)
    requires RegistryInv(b.reg)
    ensures var b2 := Meanwhile(Meanwhile(b, Between(t.env, 3)), Flat(t.order, t.countEnv));
      b2.reg.runs <= b2.reg.objects.Keys && b2.reg.objects.Keys == b.reg.objects.Keys
  {
  }

  lemma CommitHolds(b: BridgeState, limits: Limits, seed: Seed, taken: ContinuationRecord, t: Turn)
    requires NaturalAll(t.env) && NaturalAll(t.countEnv) && RegistryInv(b.reg) && t.attempt.id !in b.reg.objects
    requires seed.pred in b.reg.objects
    requires seed.predWorktree.Some? ==> seed.pred in b.store && seed.predWorktree == Some(b.store[seed.pred].wt)
    requires Commit(b, limits, seed, taken, t).1.Ok?
    ensures SuccessorHolds(b, Commit(b, limits, seed, taken, t).0, seed.pred, t.attempt)
    ensures Bystanders(b.reg, Commit(b, limits, seed, taken, t).0.reg, seed.pred)
  {
    hide Commit, RetirePredecessor, JustAdmitted, RegistryInv, IsNew, BuildSpec, Kept;
    var a, pred := t.attempt, seed.pred;
    CommitShape(b, limits, seed, taken, t);
    var (b1, spec) := BuildSpec(b, a, taken.prompt, Some(seed));
    BuiltSpec(b, a, taken.prompt, Some(seed));
    BuiltWorkspace(b, a, taken.prompt, seed);
    JustAdmittedIsNew(b1, spec.value, t);
    var d := Register(JustAdmitted(b1, spec.value, t), spec.value);
    RetireFrame(d, pred, a.id, t.now, t.env);
    RetireKeepsOthers(d, pred, a.id, t.now, t.env, a.id);
    RetireBystanders(d, pred, a.id, t.now, t.env);
    BystandersTwice(b.reg, d.reg, RetirePredecessor(d, pred, a.id, t.now, t.env).reg, pred);
    NewIsKept(d.reg.objects[a.id], RetirePredecessor(d, pred, a.id, t.now, t.env).reg.objects[a.id], spec.value);
  }

  lemma BuiltWorkspace(b: BridgeState, a: Attempt, prompt: string, seed: Seed)
    requires BuildSpec(b, a, prompt, Some(seed)).1.Some?
    ensures a.mode == Write && a.confined ==> seed.predWorktree.Some? && Workspace(a, Some(seed)).Some?
  {
  }

  lemma NewIsKept(v: RunView, w: RunView, spec: Spec)
    requires IsNew(v, spec) && Kept(v, w)
    ensures w.id == spec.id && w.confined == spec.confined && w.resumedFrom == spec.resumedFrom && !w.retiring
    ensures w.continuation == Some(spec.continuation) && w.worktree == spec.worktree
  {
  }

  lemma ResumeExtends(b: BridgeState, limits: Limits, pred: RunId, answer: string, rec: ContinuationRecord, t: Turn)
    returns (q: Question)
    requires NaturalAll(t.env) && NaturalAll(t.countEnv) && t.attempt.id !in b.gates && t.attempt.id !in b.reg.objects
    requires pred in b.reg.objects && pred in b.admitted && rec == b.admitted[pred] && RegistryInv(b.reg)
    requires Resume(b, limits, pred, answer, rec, t).1.Ok?
    ensures Resume(b, limits, pred, answer, rec, t).1 == Ok(t.attempt.id)
    ensures Extended(b, Resume(b, limits, pred, answer, rec, t).0, pred, q, answer, t.attempt)
    ensures SuccessorHolds(b, Resume(b, limits, pred, answer, rec, t).0, pred, t.attempt)
    ensures Bystanders(b.reg, Resume(b, limits, pred, answer, rec, t).0.reg, pred)
    ensures ShownQuestion(b.reg.objects[pred]) == Some(q)
  {
    q := ShownQuestion(b.reg.objects[pred]).value;
    CommitExtends(b, limits, NextSeed(b, pred, q, answer, rec), rec, q, answer, t);
    CommitHolds(b, limits, NextSeed(b, pred, q, answer, rec), rec, t);
  }

  lemma ProceedExtends(b: BridgeState, limits: Limits, pred: RunId, answer: string, rec: ContinuationRecord, t: Turn)
    returns (q: Question)
    requires NaturalAll(t.env) && NaturalAll(t.countEnv) && t.attempt.id !in b.gates && t.attempt.id !in b.reg.objects
    requires pred in b.reg.objects && pred in b.admitted && rec == b.admitted[pred] && RegistryInv(b.reg)
    requires Proceed(b, limits, pred, answer, rec, t).1.Ok?
    ensures Proceed(b, limits, pred, answer, rec, t).1 == Ok(t.attempt.id)
    ensures Extended(b, Proceed(b, limits, pred, answer, rec, t).0, pred, q, answer, t.attempt)
    ensures SuccessorHolds(b, Proceed(b, limits, pred, answer, rec, t).0, pred, t.attempt)
    ensures Bystanders(b.reg, Proceed(b, limits, pred, answer, rec, t).0.reg, pred)
    ensures ShownQuestion(Meanwhile(b, Between(t.env, 2)).reg.objects[pred]) == Some(q)
  {
    var b1 := Meanwhile(b, Between(t.env, 2));
    NaturalKeeps(b.reg, Between(t.env, 2));
    q := ResumeExtends(b1, limits, pred, answer, rec, t);
    AllKeptBystanders(b.reg, b1.reg, pred);
    BystandersTwice(b.reg, b1.reg, Resume(b1, limits, pred, answer, rec, t).0.reg, pred);
    ExtendedElsewhere(b, b1, Proceed(b, limits, pred, answer, rec, t).0, pred, q, answer, t.attempt);
  }

  lemma ExtendedElsewhere(b: BridgeState, b': BridgeState, c: BridgeState, pred: RunId, q: Question, answer: string,
                          a: Attempt)
    requires SameButRuns(b, b') && Extended(b', c, pred, q, answer, a)
    ensures Extended(b, c, pred, q, answer, a)
  {
  }

  /** A success asks for exactly one new run, whose record adds the resting question
      and the operator's answer, and strips its predecessor of everything. */
  lemma ContinueExtendsTheChain(b: BridgeState, limits: Limits, pred: RunId, answer: string, t: Turn)
    returns (q: Question, elapsed: seq<RunEvent>)
    requires BridgeInv(b, limits) && TurnOk(b, t) && Continue(b, limits, pred, answer, t).1.Ok?
    ensures Continue(b, limits, pred, answer, t).1 == Ok(t.attempt.id)
    ensures Extended(b, Continue(b, limits, pred, answer, t).0, pred, q, answer, t.attempt)
    ensures SuccessorHolds(b, Continue(b, limits, pred, answer, t).0, pred, t.attempt)
    ensures Bystanders(b.reg, Continue(b, limits, pred, answer, t).0.reg, pred)
    ensures Natural(elapsed) && pred in b.reg.objects
    ensures var rested := HappenAll(b.reg, elapsed).objects[pred];
            rested.state == NeedsInput && rested.lastQuestion == Some(q)
  {
    hide Sound, Continue, Proceed, Extended, RegistryInv;
    LookedUp(b, limits, t);
    FreshId(b, limits, t.attempt.id);
    ContinueShape(b, limits, pred, answer, t);
    var b2 := Found(b, t);
    q := TakenExtends(b2, limits, pred, answer, t);
    FoundBystanders(b, limits, pred, t);
    BystandersTwice(b.reg, b2.reg, Continue(b, limits, pred, answer, t).0.reg, pred);
    ExtendedElsewhere(b, OnRun(b2, pred, OpTakeContinuation), Continue(b, limits, pred, answer, t).0, pred, q, answer,
                      t.attempt);
    var x, y, z := Between(t.env, 0), Between(t.env, 1), Between(t.env, 2);
    RestedQuestion(b.reg, Arrive(b, x, t.cutoff).reg, b2.reg, Meanwhile(b2, z).reg, pred, x, y, z);
    elapsed := x + (y + z);
    NaturalThree(x, y, z);
  }

  lemma FoundBystanders(b: BridgeState, limits: Limits, pred: RunId, t: Turn)
    requires BridgeInv(b, limits) && NaturalAll(t.env)
    ensures Bystanders(b.reg, Found(b, t).reg, pred)
  {
    var b1 := Arrive(b, Between(t.env, 0), t.cutoff);
    ArriveSound(b, limits, Between(t.env, 0), t.cutoff);
    MeanwhileSound(b1, limits, None, Between(t.env, 1));
    hide Kept;
    AllKeptTwice(b.reg, b1.reg, Found(b, t).reg);
    AllKeptBystanders(b.reg, Found(b, t).reg, pred);
  }

  lemma LookedUp(b: BridgeState, limits: Limits, t: Turn)
    requires BridgeInv(b, limits) && NaturalAll(t.env)
    ensures Sound(Found(b, t), limits, None) && SameButRuns(b, Found(b, t))
  {
    ArriveSound(b, limits, Between(t.env, 0), t.cutoff);
    MeanwhileSound(Arrive(b, Between(t.env, 0), t.cutoff), limits, None, Between(t.env, 1));
  }

  lemma TakenExtends(b: BridgeState, limits: Limits, pred: RunId, answer: string, t: Turn) returns (q: Question)
    requires Sound(b, limits, None) && NaturalAll(t.env) && NaturalAll(t.countEnv)
    requires t.attempt.id !in b.gates && t.attempt.id !in b.reg.objects
    requires pred in b.reg.objects && TakeRefusal(b.reg.objects[pred]).None?
    requires var taken := b.reg.objects[pred].continuation.value;
      Proceed(OnRun(b, pred, OpTakeContinuation), limits, pred, answer, taken, t).1.Ok?
    ensures var taken := b.reg.objects[pred].continuation.value;
      var (c, r) := Proceed(OnRun(b, pred, OpTakeContinuation), limits, pred, answer, taken, t);
            && r == Ok(t.attempt.id) && Extended(OnRun(b, pred, OpTakeContinuation), c, pred, q, answer, t.attempt)
            && SuccessorHolds(b, c, pred, t.attempt) && Bystanders(b.reg, c.reg, pred)
    ensures ShownQuestion(Meanwhile(b, Between(t.env, 2)).reg.objects[pred]) == Some(q)
  {
    var b', rec := BridgeWithout(b, pred), b.reg.objects[pred].continuation.value;
    Taken(b, pred);
    TakeableIsFree(b, limits, pred);
    WithoutAll(b.reg, pred, Between(t.env, 2));
    WithoutFacts(b, limits, pred);
    ShownWithout(Meanwhile(b, Between(t.env, 2)), pred);
    hide Sound, RegistryInv, Live, Proceed, Extended, SuccessorHolds, Bystanders, Without;
    q := ProceedExtends(b', limits, pred, answer, rec, t);
    HoldsElsewhere(b, b', Proceed(b', limits, pred, answer, rec, t).0, pred, t.attempt);
    BystandersTwice(b.reg, b'.reg, Proceed(b', limits, pred, answer, rec, t).0.reg, pred);
  }

  lemma WithoutFacts(b: BridgeState, limits: Limits, pred: RunId)
    requires Sound(b, limits, None) && pred in b.reg.objects
    ensures var c := BridgeWithout(b, pred);
      && RegistryInv(c.reg) && Bystanders(b.reg, c.reg, pred)
      && c == b.(reg := c.reg) && c.reg.objects.Keys == b.reg.objects.Keys && pred in c.admitted
  {
    hide Sound, RegistryInv, Live, RunGood, Bystanders;
    SoundRegistry(b, limits, None);
    WithoutKeepsInv(b, pred);
    WithoutBystanders(b.reg, pred);
  }

  lemma WithoutBystanders(s: RegistryState, pred: RunId)
    requires pred in s.objects
    ensures Bystanders(s, Without(s, pred), pred)
  {
  }

  lemma HoldsElsewhere(b: BridgeState, b': BridgeState, c: BridgeState, pred: RunId, a: Attempt)
    requires SuccessorHolds(b', c, pred, a) && b'.store == b.store
    ensures SuccessorHolds(b, c, pred, a)
  {
  }

  lemma ShownWithout(b: BridgeState, pred: RunId)
    requires pred in b.reg.objects
    ensures ShownQuestion(BridgeWithout(b, pred).reg.objects[pred]) == ShownQuestion(b.reg.objects[pred])
  {
  }

  /** The question shown once the record is taken is the one the run rests on. */
  lemma RestedQuestion(s0: RegistryState, s1: RegistryState, s2: RegistryState, s3: RegistryState, pred: RunId,
                       x: seq<RunEvent>, y: seq<RunEvent>, z: seq<RunEvent>)
    requires s1 == HappenAll(s0, x).(runs := s1.runs) && s2 == HappenAll(s1, y) && s3 == HappenAll(s2, z)
    requires RegistryInv(s2) && Natural(x) && Natural(y) && Natural(z)
    requires pred in s2.objects && s2.objects[pred].state == NeedsInput
    requires pred in s3.objects && ShownQuestion(s3.objects[pred]).Some?
    ensures HappenAll(s0, x + (y + z)).objects == s3.objects
    ensures s3.objects[pred].state == NeedsInput && ShownQuestion(s3.objects[pred]) == s3.objects[pred].lastQuestion
  {
    InThreeParts(s0, s1, x, y, z);
    NaturalKeeps(s2, z);
    StillShown(s2.objects[pred], s3.objects[pred]);
  }

  lemma NaturalThree(x: seq<RunEvent>, y: seq<RunEvent>, z: seq<RunEvent>)
    requires Natural(x) && Natural(y) && Natural(z)
    ensures Natural(x + (y + z))
  {
  }

  /** Pruning between the first part and the others makes no difference to the runs. */
  lemma InThreeParts(s: RegistryState, pruned: RegistryState, x: seq<RunEvent>, y: seq<RunEvent>, z: seq<RunEvent>)
    requires pruned == HappenAll(s, x).(runs := pruned.runs)
    ensures HappenAll(s, x + (y + z)).objects == HappenAll(HappenAll(pruned, y), z).objects
  {
    HappenInParts(s, x, y + z);
    HappenInParts(pruned, y, z);
    PruningAside(HappenAll(s, x), pruned, y + z);
  }

  lemma StillShown(v: RunView, w: RunView)
    requires Kept(v, w) && v.state == NeedsInput && Inv(w) && ShownQuestion(w).Some?
    ensures w.state == NeedsInput && ShownQuestion(w) == w.lastQuestion
  {
  }
}
