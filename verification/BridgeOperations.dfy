/** Each whole operation of the bridge keeps the invariant of BridgeLaws. */
module BridgeOperations {
  import opened Wrappers
  import opened RunLifecycle
  import opened Registry
  import opened Bridge
  import opened BridgeLaws

  /** What holds between operations: also, every open gate belongs to a run. */
  predicate BridgeInv(b: BridgeState, limits: Limits) {
    Sound(b, limits, None) && b.gates <= b.reg.objects.Keys
  }

  // ---------------------------------------------------------------- asking and continuing

  lemma BuildFrame(b: BridgeState, a: Attempt, prompt: string, seed: Option<Seed>)
    requires a.id !in b.gates
    ensures var (c, spec) := BuildSpec(b, a, prompt, seed);
            && c == b.(gates := c.gates) && b.gates <= c.gates <= b.gates + {a.id}
            && (spec.None? ==> c == b)
            && (spec.Some? ==>
                  && spec.value.id == a.id && spec.value.continuation == RecordFor(a, prompt, seed)
                  && spec.value.resumedFrom == (if seed.Some? then Some(seed.value.pred) else None))
  {
  }

  /** A run fresh to the registry has no history of any kind. */
  lemma FreshId(b: BridgeState, limits: Limits, id: RunId)
    requires BridgeInv(b, limits) && id !in b.reg.objects
    ensures id !in b.successor && id !in b.applied && id !in b.gates && id !in b.store
  {
    SuccOf(b, limits, None, id);
    AppliedOf(b, limits, None, id);
  }

  lemma RegisteredInv(c: BridgeState, limits: Limits, h: Option<RunId>, spec: Spec)
    requires Sound(c, limits, h) && c.gates <= c.reg.objects.Keys
    requires spec.id in c.reg.objects && spec.id !in c.successor && spec.id !in c.applied
    ensures var d := Register(c, spec);
      Sound(d, limits, h) && d.gates <= d.reg.objects.Keys && d.successor == c.successor
  {
    hide Sound;
    RegisterSound(c, limits, h, spec);
  }

  /** What Launch leaves of everything but the registry's inside. */
  lemma LaunchFrame(b: BridgeState, limits: Limits, spec: Spec, order: seq<RunId>, env: seq<seq<RunEvent>>)
    requires NaturalAll(env)
    ensures var (c, r) := Launch(b, limits, spec, order, env);
      && c.gates == b.gates && c.applied == b.applied
      && (r.Ok? ==> r.value == spec.id)
      && (r.Ok? ==> c.successor == if spec.resumedFrom.None? then b.successor
                                   else b.successor[spec.resumedFrom.value := spec.id])
  {
    LaunchShape(b, limits, spec, order, env);
  }

  lemma LaunchedInv(b: BridgeState, limits: Limits, spec: Spec, order: seq<RunId>, env: seq<seq<RunEvent>>)
    requires Sound(b, limits, None) && SpecFits(b, limits, spec) && NaturalAll(env) && IterationOf(order, b.reg.runs)
    requires b.gates <= b.reg.objects.Keys + {spec.id} && spec.id !in b.successor && spec.id !in b.applied
    ensures var (c, r) := Launch(b, limits, spec, order, env);
            && (r.Ok? ==>
                  var d := Register(c, spec);
                  && r.value == spec.id && Sound(d, limits, spec.resumedFrom) && d.gates <= d.reg.objects.Keys
                  && (spec.resumedFrom.Some? ==> d.successor == b.successor[spec.resumedFrom.value := spec.id]))
            && (r.Err? ==> Sound(c, limits, None) && c == Meanwhile(b, Flat(order, env)))
  {
    hide Sound, Register, Flat;
    LaunchSound(b, limits, spec, order, env);
    LaunchFrame(b, limits, spec, order, env);
    var (c, r) := Launch(b, limits, spec, order, env);
    if r.Ok? {
      RegisteredInv(c, limits, spec.resumedFrom, spec);
    } else {
      LaunchShape(b, limits, spec, order, env);
    }
  }

  predicate AskOk(b: BridgeState, a: Attempt, order: seq<RunId>, env: seq<seq<RunEvent>>) {
    a.id !in b.reg.objects && NaturalAll(env) && IterationOf(order, b.reg.runs)
  }

  lemma AskKeeps(b: BridgeState, limits: Limits, a: Attempt, prompt: string, order: seq<RunId>, env: seq<seq<RunEvent>>)
    requires BridgeInv(b, limits) && AskOk(b, a, order, env)
    ensures BridgeInv(AskAgent(b, limits, a, prompt, order, env).0, limits)
  {
    hide Sound, BuildSpec, Launch, Register, AskAgent;
    FreshId(b, limits, a.id);
    BuildFrame(b, a, prompt, None);
    AskShape(b, limits, a, prompt, order, env);
    var b1, spec := BuildSpec(b, a, prompt, None).0, BuildSpec(b, a, prompt, None).1;
    if a.authorised && spec.Some? {
      GatesSound(b, b1, limits, None);
      AskStartedKeeps(b1, limits, a.id, spec.value, order, env);
    }
  }

  lemma AskStartedKeeps(b: BridgeState, limits: Limits, id: RunId, spec: Spec, order: seq<RunId>,
                        env: seq<seq<RunEvent>>)
    requires Sound(b, limits, None) && spec.id == id && id !in b.reg.objects && spec.resumedFrom.None?
    requires spec.continuation.depth == 0 && spec.continuation.turns == []
    requires b.gates <= b.reg.objects.Keys + {id} && id !in b.successor && id !in b.applied
    requires NaturalAll(env) && IterationOf(order, b.reg.runs)
    ensures var (b2, r) := Launch(b, limits, spec, order, env);
      BridgeInv(if r.Ok? then Register(b2, spec) else CloseGate(b2, id), limits)
  {
    hide Sound, Flat, Start;
    LaunchedInv(b, limits, spec, order, env);
    var (b2, r) := Launch(b, limits, spec, order, env);
    if r.Err? { GatesSound(b2, CloseGate(b2, id), limits, None); }
  }

  lemma AskShape(b: BridgeState, limits: Limits, a: Attempt, prompt: string, order: seq<RunId>, env: seq<seq<RunEvent>>)
    ensures var c, (b1, spec) := AskAgent(b, limits, a, prompt, order, env).0, BuildSpec(b, a, prompt, None);
      && (!a.authorised ==> c == b) && (a.authorised && spec.None? ==> c == b1)
      && (a.authorised && spec.Some? ==>
            var (b2, r) := Launch(b1, limits, spec.value, order, env);
            c == (if r.Ok? then Register(b2, spec.value) else CloseGate(b2, a.id)))
  {
    hide Start;
  }

  /** The predecessor is in hand: its record taken, its chain known, the next record built. */
  predicate InHand(b: BridgeState, limits: Limits, seed: Seed, taken: ContinuationRecord) {
    var p := seed.pred;
    && p in b.reg.objects && p in b.admitted && p !in b.successor && p !in b.applied
    && (b.reg.objects[p].state == NeedsInput || b.reg.objects[p].state == Failed)
    && taken == b.admitted[p]
    && seed.rec.depth == taken.depth + 1 <= limits.maxContinuations
    && seed.rec.prompt == taken.prompt
    && |seed.rec.turns| == |taken.turns| + 1 && taken.turns <= seed.rec.turns
  }

  lemma InHandMeanwhile(b: BridgeState, limits: Limits, seed: Seed, taken: ContinuationRecord, es: seq<RunEvent>)
    requires Sound(b, limits, None) && InHand(b, limits, seed, taken) && Natural(es)
    ensures InHand(Meanwhile(b, es), limits, seed, taken) && Sound(Meanwhile(b, es), limits, None)
  {
    MeanwhileSound(b, limits, None, es);
    assert Kept(b.reg.objects[seed.pred], Meanwhile(b, es).reg.objects[seed.pred]);
  }

  /** What a turn brings must be natural, its new id fresh, its iteration one of the registry's. */
  predicate TurnFits(b: BridgeState, t: Turn) {
    t.attempt.id !in b.reg.objects && NaturalAll(t.env) && NaturalAll(t.countEnv) && IterationOf(t.order, b.reg.runs)
  }

  lemma LaunchingKeeps(b: BridgeState, limits: Limits, seed: Seed, taken: ContinuationRecord, spec: Spec, t: Turn)
    requires Sound(b, limits, None) && InHand(b, limits, seed, taken) && TurnFits(b, t)
    requires b.gates <= b.reg.objects.Keys + {t.attempt.id}
    requires t.attempt.id !in b.successor && t.attempt.id !in b.applied
    requires spec.id == t.attempt.id && spec.resumedFrom == Some(seed.pred)
    requires spec.continuation == RecordFor(t.attempt, taken.prompt, Some(seed))
    ensures BridgeInv(Launching(b, limits, seed, taken, spec, t).0, limits)
  {
    hide Sound, BridgeInv, Launching, Start, RetirePredecessor, Register, Restore, CloseGate, InHand;
    assert Natural(Between(t.env, 3));
    hide TurnFits, Between, Natural;
    var b1 := Meanwhile(b, Between(t.env, 3));
    SoundRegistry(b, limits, None);
    InHandMeanwhile(b, limits, seed, taken, Between(t.env, 3));
    TurnStillFits(b, t, Between(t.env, 3));
    StartedKeeps(b1, limits, seed, taken, spec, t);
    LaunchingShape(b, limits, seed, taken, spec, t);
  }

  lemma TurnStillFits(b: BridgeState, t: Turn, es: seq<RunEvent>)
    requires RegistryInv(b.reg) && TurnFits(b, t) && Natural(es)
    ensures var c := Meanwhile(b, es);
      TurnFits(c, t) && c.gates == b.gates && c.successor == b.successor && c.applied == b.applied
      && c.reg.objects.Keys == b.reg.objects.Keys
  {
    NaturalKeeps(b.reg, es);
    HappenAllFacts(b.reg, es);
  }

  lemma LaunchingShape(b: BridgeState, limits: Limits, seed: Seed, taken: ContinuationRecord, spec: Spec, t: Turn)
    ensures var b1 := Meanwhile(b, Between(t.env, 3));
      var (b2, r) := Launch(b1, limits, spec, t.order, t.countEnv);
      Launching(b, limits, seed, taken, spec, t).0
      == (if r.Ok? then RetirePredecessor(Register(b2, spec), seed.pred, r.value, t.now, t.env)
          else CloseGate(Restore(b2, seed.pred, taken), t.attempt.id))
  {
  }

  lemma SeedFits(b: BridgeState, limits: Limits, seed: Seed, taken: ContinuationRecord, spec: Spec, t: Turn)
    requires InHand(b, limits, seed, taken) && t.attempt.id !in b.reg.objects
    requires spec.id == t.attempt.id && spec.resumedFrom == Some(seed.pred)
    requires spec.continuation == RecordFor(t.attempt, taken.prompt, Some(seed))
    ensures SpecFits(b, limits, spec)
  {
  }

  lemma StartedKeeps(b: BridgeState, limits: Limits, seed: Seed, taken: ContinuationRecord, spec: Spec, t: Turn)
    requires Sound(b, limits, None) && InHand(b, limits, seed, taken) && TurnFits(b, t)
    requires b.gates <= b.reg.objects.Keys + {t.attempt.id}
    requires t.attempt.id !in b.successor && t.attempt.id !in b.applied
    requires spec.id == t.attempt.id && spec.resumedFrom == Some(seed.pred)
    requires spec.continuation == RecordFor(t.attempt, taken.prompt, Some(seed))
    ensures var (b2, r) := Launch(b, limits, spec, t.order, t.countEnv);
            && (r.Ok? ==> BridgeInv(RetirePredecessor(Register(b2, spec), seed.pred, r.value, t.now, t.env), limits))
            && (r.Err? ==> BridgeInv(CloseGate(Restore(b2, seed.pred, taken), t.attempt.id), limits))
  {
    SeedFits(b, limits, seed, taken, spec, t);
    hide Sound, SpecFits, Flat, Launch;
    LaunchedInv(b, limits, spec, t.order, t.countEnv);
    var (b2, r) := Launch(b, limits, spec, t.order, t.countEnv);
    if r.Err? {
      RestoreSound(b2, limits, seed.pred, taken);
      GatesSound(Restore(b2, seed.pred, taken), CloseGate(Restore(b2, seed.pred, taken), t.attempt.id), limits, None);
    } else {
      RetireSound(Register(b2, spec), limits, seed.pred, r.value, t.now, t.env);
      RetireFrame(Register(b2, spec), seed.pred, r.value, t.now, t.env);
    }
  }

  lemma CommitKeeps(b: BridgeState, limits: Limits, seed: Seed, taken: ContinuationRecord, t: Turn)
    requires BridgeInv(b, limits) && InHand(b, limits, seed, taken) && TurnFits(b, t)
    ensures BridgeInv(Commit(b, limits, seed, taken, t).0, limits)
  {
    hide Sound, BuildSpec, Launching, RecordFor, Commit, Restore;
    var a := t.attempt;
    FreshId(b, limits, a.id);
    RestoreSound(b, limits, seed.pred, taken);
    RestoreFrame(b, seed.pred, taken);
    BuildFrame(b, a, taken.prompt, Some(seed));
    CommitCases(b, limits, seed, taken, t);
    var b1, spec := BuildSpec(b, a, taken.prompt, Some(seed)).0, BuildSpec(b, a, taken.prompt, Some(seed)).1;
    if a.authorised && spec.Some? {
      GatesSound(b, b1, limits, None);
      LaunchingKeeps(b1, limits, seed, taken, spec.value, t);
    }
  }

  lemma CommitCases(b: BridgeState, limits: Limits, seed: Seed, taken: ContinuationRecord, t: Turn)
    ensures var c, a := Commit(b, limits, seed, taken, t).0, t.attempt;
      var b1, spec := BuildSpec(b, a, taken.prompt, Some(seed)).0, BuildSpec(b, a, taken.prompt, Some(seed)).1;
      && (!a.authorised ==> c == Restore(b, seed.pred, taken))
      && (a.authorised && spec.None? ==> c == Restore(b1, seed.pred, taken))
      && (a.authorised && spec.Some? ==> c == Launching(b1, limits, seed, taken, spec.value, t).0)
  {
    hide Launching, Restore;
  }

  predicate TurnOk(b: BridgeState, t: Turn) {
    && NaturalAll(t.env) && NaturalAll(t.countEnv)
    && t.attempt.id !in b.reg.objects
    && IterationOf(t.order, Arrive(b, Between(t.env, 0), t.cutoff).reg.runs)
  }

  /** A run whose record can be taken has no successor, and its patch was never applied. */
  lemma TakeableIsFree(b: BridgeState, limits: Limits, pred: RunId)
    requires Sound(b, limits, None) && pred in b.reg.objects && TakeRefusal(b.reg.objects[pred]).None?
    ensures pred !in b.successor && pred !in b.applied
    ensures pred in b.admitted && b.reg.objects[pred].continuation == Some(b.admitted[pred])
  {
    SuccOf(b, limits, None, pred);
    AppliedOf(b, limits, None, pred);
    assert RunGood(b, limits, pred);
  }

  lemma ResumeKeeps(b: BridgeState, limits: Limits, pred: RunId, answer: string, rec: ContinuationRecord, t: Turn)
    requires BridgeInv(b, limits) && pred in b.reg.objects && rec == b.admitted[pred] && TurnFits(b, t)
    requires b.reg.objects[pred].state == NeedsInput || b.reg.objects[pred].state == Failed
    requires pred !in b.successor && pred !in b.applied && DepthAllowed(rec, limits.maxContinuations)
    ensures BridgeInv(Resume(b, limits, pred, answer, rec, t).0, limits)
  {
    hide Sound, Commit, Restore, NextSeed;
    RestoreSound(b, limits, pred, rec);
    RestoreFrame(b, pred, rec);
    var question := ShownQuestion(b.reg.objects[pred]);
    if question.Some? && !WorkspaceLost(b, pred, rec) {
      SoundRegistry(b, limits, None);
      NextInHand(b, limits, pred, question.value, answer, rec);
      CommitKeeps(b, limits, NextSeed(b, pred, question.value, answer, rec), rec, t);
    }
  }

  lemma RestoreFrame(b: BridgeState, pred: RunId, rec: ContinuationRecord)
    ensures var c := Restore(b, pred, rec); c == b.(reg := c.reg) && c.reg.objects.Keys == b.reg.objects.Keys
  {
  }

  lemma NextInHand(b: BridgeState, limits: Limits, pred: RunId, q: Question, answer: string, rec: ContinuationRecord)
    requires pred in b.reg.objects && pred in b.admitted && rec == b.admitted[pred] && !WorkspaceLost(b, pred, rec)
    requires b.reg.objects[pred].state == NeedsInput || b.reg.objects[pred].state == Failed
    requires pred !in b.successor && pred !in b.applied && DepthAllowed(rec, limits.maxContinuations)
    ensures InHand(b, limits, NextSeed(b, pred, q, answer, rec), rec)
  {
  }

  lemma ProceedKeeps(b: BridgeState, limits: Limits, pred: RunId, answer: string, rec: ContinuationRecord, t: Turn)
    requires BridgeInv(b, limits) && pred in b.reg.objects && rec == b.admitted[pred] && TurnFits(b, t)
    requires b.reg.objects[pred].state == NeedsInput && pred !in b.successor && pred !in b.applied
    ensures BridgeInv(Proceed(b, limits, pred, answer, rec, t).0, limits)
  {
    hide Sound, Proceed, Resume, Restore;
    RestoreSound(b, limits, pred, rec);
    RestoreFrame(b, pred, rec);
    var b1 := Meanwhile(b, Between(t.env, 2));
    MeanwhileSound(b, limits, None, Between(t.env, 2));
    SoundRegistry(b, limits, None);
    TurnStillFits(b, t, Between(t.env, 2));
    assert Kept(b.reg.objects[pred], b1.reg.objects[pred]);
    if DepthAllowed(rec, limits.maxContinuations) { ResumeKeeps(b1, limits, pred, answer, rec, t); }
    ProceedShape(b, limits, pred, answer, rec, t);
  }

  lemma ProceedShape(b: BridgeState, limits: Limits, pred: RunId, answer: string, rec: ContinuationRecord, t: Turn)
    requires pred in b.reg.objects
    ensures var c := Proceed(b, limits, pred, answer, rec, t).0;
      || c == Restore(b, pred, rec)
      || (DepthAllowed(rec, limits.maxContinuations)
          && c == Resume(Meanwhile(b, Between(t.env, 2)), limits, pred, answer, rec, t).0)
  {
  }

  lemma TakenKeeps(b: BridgeState, limits: Limits, pred: RunId, answer: string, t: Turn)
    requires BridgeInv(b, limits) && pred in b.reg.objects && TakeRefusal(b.reg.objects[pred]).None? && TurnFits(b, t)
    ensures var rec := b.reg.objects[pred].continuation.value;
            BridgeInv(Proceed(OnRun(b, pred, OpTakeContinuation), limits, pred, answer, rec, t).0, limits)
  {
    hide Sound, Proceed;
    TakeableIsFree(b, limits, pred);
    TakeSound(b, limits, pred);
    ProceedKeeps(OnRun(b, pred, OpTakeContinuation), limits, pred, answer, b.reg.objects[pred].continuation.value, t);
  }

  /** Where continueRun stands when it takes the record. */
  function Found(b: BridgeState, t: Turn): BridgeState {
    Meanwhile(Arrive(b, Between(t.env, 0), t.cutoff), Between(t.env, 1))
  }

  /** Refused on the way to the record, or going on from having taken it. */
  lemma ContinueShape(b: BridgeState, limits: Limits, pred: RunId, answer: string, t: Turn)
    ensures var (c, r) := Continue(b, limits, pred, answer, t);
      || (r.Err? && (c == Arrive(b, Between(t.env, 0), t.cutoff) || c == Found(b, t)))
      || (pred in Found(b, t).reg.objects && TakeRefusal(Found(b, t).reg.objects[pred]).None?
          && (c, r) == Proceed(OnRun(Found(b, t), pred, OpTakeContinuation), limits, pred, answer,
                               Found(b, t).reg.objects[pred].continuation.value, t))
  {
  }

  lemma ContinueKeeps(b: BridgeState, limits: Limits, pred: RunId, answer: string, t: Turn)
    requires BridgeInv(b, limits) && TurnOk(b, t)
    ensures BridgeInv(Continue(b, limits, pred, answer, t).0, limits)
  {
    var b1, b2 := Arrive(b, Between(t.env, 0), t.cutoff), Found(b, t);
    ArriveSound(b, limits, Between(t.env, 0), t.cutoff);
    MeanwhileSound(b1, limits, None, Between(t.env, 1));
    ContinueShape(b, limits, pred, answer, t);
    if pred in b2.reg.objects && TakeRefusal(b2.reg.objects[pred]).None? {
      TakenKeeps(b2, limits, pred, answer, t);
    }
  }

  // ---------------------------------------------------------------- collecting and deciding

  lemma DropHandleSound(b: BridgeState, limits: Limits, id: RunId)
    requires Sound(b, limits, None) && id in b.reg.objects
    ensures Sound(OnRun(b, id, OpTakeWorktree), limits, None)
  {
    TakenHandle(b.reg, id);
    var objects := b.reg.objects[id := b.reg.objects[id].(worktree := None)];
    NoHandleSound(b, b.(reg := b.reg.(objects := objects)), limits, id);
  }

  lemma NoHandleSound(b: BridgeState, c: BridgeState, limits: Limits, id: RunId)
    requires Sound(b, limits, None) && id in b.reg.objects
    requires c == b.(reg := b.reg.(objects := b.reg.objects[id := b.reg.objects[id].(worktree := None)]))
    ensures Sound(c, limits, None)
  {
    hide RunGood, SuccGood, AppliedGood, RegistryInv, Live;
    RunOf(b, limits, None, id);
    HandoverLive(b, c, id, b.reg.objects[id].(worktree := None));
    forall i | i in c.reg.objects ensures RunGood(c, limits, i) { NoHandleRunGood(b, c, limits, id, i); }
    forall p | p in c.successor ensures SuccGood(c, p, None) { NoHandleSuccGood(b, c, limits, id, p); }
    forall i | i in c.applied ensures AppliedGood(c, i) { NoHandleAppliedGood(b, c, limits, id, i); }
  }

  lemma NoHandleSuccGood(b: BridgeState, c: BridgeState, limits: Limits, id: RunId, p: RunId)
    requires Sound(b, limits, None) && id in b.reg.objects && p in b.successor
    requires c == b.(reg := b.reg.(objects := b.reg.objects[id := b.reg.objects[id].(worktree := None)]))
    ensures SuccGood(c, p, None)
  {
    assert SuccGood(b, p, None);
  }

  lemma NoHandleAppliedGood(b: BridgeState, c: BridgeState, limits: Limits, id: RunId, i: RunId)
    requires Sound(b, limits, None) && id in b.reg.objects && i in b.applied
    requires c == b.(reg := b.reg.(objects := b.reg.objects[id := b.reg.objects[id].(worktree := None)]))
    ensures AppliedGood(c, i)
  {
    assert AppliedGood(b, i);
  }

  lemma NoHandleRunGood(b: BridgeState, c: BridgeState, limits: Limits, id: RunId, i: RunId)
    requires Sound(b, limits, None) && id in b.reg.objects && i in b.reg.objects
    requires c == b.(reg := b.reg.(objects := b.reg.objects[id := b.reg.objects[id].(worktree := None)]))
    ensures i in c.admitted && RunGood(c, limits, i)
  {
    hide Sound;
    RunOf(b, limits, None, i);
  }

  /** A patch is stored only for a finished run whose handle the collector holds. */
  lemma PutPatchSound(b: BridgeState, limits: Limits, id: RunId, p: PendingChanges)
    requires Sound(b, limits, None) && id in b.reg.objects && id !in b.successor && id !in b.applied
    requires b.reg.objects[id].worktree.None? && b.reg.objects[id].state.IsTerminal()
    ensures Sound(b.(store := b.store[id := p]), limits, None)
  {
    hide RegistryInv, Live, LinkGood, RunGood;
    var c := b.(store := b.store[id := p]);
    forall i | i in c.reg.objects ensures RunGood(c, limits, i) { PutRunGood(b, limits, id, p, i); }
    forall q | q in c.successor ensures SuccGood(c, q, None) { assert SuccGood(b, q, None); }
    forall i | i in c.applied ensures AppliedGood(c, i) { assert AppliedGood(b, i); }
  }

  lemma PutRunGood(b: BridgeState, limits: Limits, id: RunId, p: PendingChanges, i: RunId)
    requires Sound(b, limits, None) && i in b.reg.objects && id in b.reg.objects
    requires b.reg.objects[id].worktree.None? && b.reg.objects[id].state.IsTerminal()
    ensures i in b.admitted && RunGood(b.(store := b.store[id := p]), limits, i)
  {
    hide Sound;
    RunOf(b, limits, None, i);
  }

  lemma CollectDiffSound(b: BridgeState, limits: Limits, id: RunId, wt: Worktree, diff: Option<string>)
    requires Sound(b, limits, None) && id in b.reg.objects && id !in b.successor && id !in b.applied
    requires b.reg.objects[id].worktree.None? && b.reg.objects[id].state.IsTerminal()
    ensures var c := CollectDiff(b, id, wt, diff); Sound(c, limits, None) && c.reg == b.reg && c.gates == b.gates
  {
    if diff.Some? {
      if diff.value == "" { FewerEntriesSound(b, Discard(b, id), limits, None); }
      else { PutPatchSound(b, limits, id, PendingChanges(wt, diff.value)); }
    }
  }

  /** From a settled run's handle to its entry. */
  lemma CollectedSound(b: BridgeState, limits: Limits, id: RunId, diff: Option<string>)
    requires Sound(b, limits, None) && id in b.reg.objects && b.reg.objects[id].state.IsTerminal()
    ensures var c := Picked(b, id, diff);
      Sound(c, limits, None) && c.gates == b.gates && c.reg.objects.Keys == b.reg.objects.Keys
  {
    DropHandleSound(b, limits, id);
    TakenHandle(b.reg, id);
    hide Sound;
    var wt, b1 := b.reg.objects[id].worktree, OnRun(b, id, OpTakeWorktree);
    if wt.Some? {
      SuccOf(b, limits, None, id);
      AppliedOf(b, limits, None, id);
      CollectDiffSound(b1, limits, id, wt.value, diff);
    }
  }

  lemma ArriveAndReapSound(b: BridgeState, limits: Limits, env: seq<RunEvent>, cutoff: int)
    requires BridgeInv(b, limits) && Natural(env)
    ensures BridgeInv(Reap(Arrive(b, env, cutoff)), limits)
  {
    hide Sound;
    ArriveSound(b, limits, env, cutoff);
    FewerEntriesSound(Arrive(b, env, cutoff), Reap(Arrive(b, env, cutoff)), limits, None);
  }

  lemma CollectKeeps(b: BridgeState, limits: Limits, id: RunId, diff: Option<string>, env: seq<RunEvent>, cutoff: int)
    requires BridgeInv(b, limits) && Natural(env)
    ensures BridgeInv(Collect(b, id, diff, env, cutoff), limits)
  {
    hide Sound, Collect, OnRun, CollectDiff, Reap, Arrive;
    var b0 := CloseGate(b, id);
    GatesSound(b, b0, limits, None);
    CollectShape(b, id, diff, env, cutoff);
    if id in b.reg.objects && b.reg.objects[id].state.IsTerminal() {
      CollectedSound(b0, limits, id, diff);
      ArriveAndReapSound(Picked(b0, id, diff), limits, env, cutoff);
    }
  }

  /** The handle taken and the diff, if there was a handle, stored. */
  function Picked(b: BridgeState, id: RunId, diff: Option<string>): BridgeState
    requires id in b.reg.objects
  {
    var wt, b1 := b.reg.objects[id].worktree, OnRun(b, id, OpTakeWorktree);
    if wt.Some? then CollectDiff(b1, id, wt.value, diff) else b1
  }

  lemma CollectShape(b: BridgeState, id: RunId, diff: Option<string>, env: seq<RunEvent>, cutoff: int)
    ensures var c := Collect(b, id, diff, env, cutoff);
      || c == b || c == CloseGate(b, id)
      || (id in b.reg.objects && b.reg.objects[id].state.IsTerminal()
          && c == Reap(Arrive(Picked(CloseGate(b, id), id, diff), env, cutoff)))
  {
    hide OnRun, CollectDiff, Reap, Arrive;
  }

  /** An entry with a patch belongs to a run that was neither continued nor applied before. */
  lemma PatchedIsFree(b: BridgeState, limits: Limits, id: RunId)
    requires Sound(b, limits, None) && id in b.store && b.store[id].patch != ""
    ensures id in b.reg.objects && b.reg.objects[id].worktree.None? && b.reg.objects[id].state.IsTerminal()
    ensures id !in b.successor && id !in b.applied
  {
    assert RunGood(b, limits, id);
    SuccOf(b, limits, None, id);
    AppliedOf(b, limits, None, id);
  }

  lemma LogAppliedSound(b: BridgeState, limits: Limits, id: RunId)
    requires Sound(b, limits, None) && id in b.reg.objects && id !in b.store
    requires b.reg.objects[id].worktree.None? && b.reg.objects[id].state.IsTerminal()
    requires id !in b.successor && id !in b.applied
    ensures Sound(b.(applied := b.applied + [id]), limits, None)
  {
    hide RunGood, SuccGood, AppliedGood, RegistryInv, Live, NoRepeats;
    var c := b.(applied := b.applied + [id]);
    assert Settled(b, id);
    forall i | i in c.reg.objects ensures RunGood(c, limits, i) { LoggedRunGood(b, limits, id, i); }
    forall q | q in c.successor ensures SuccGood(c, q, None) { LoggedSuccGood(b, limits, id, q); }
    forall i | i in c.applied ensures AppliedGood(c, i) { LoggedAppliedGood(b, limits, id, i); }
    NoRepeatsAppend(b.applied, id);
  }

  /** A settled run that owns nothing more. */
  predicate Settled(b: BridgeState, id: RunId) {
    && id in b.reg.objects && id !in b.store
    && b.reg.objects[id].worktree.None? && b.reg.objects[id].state.IsTerminal()
  }

  lemma LoggedRunGood(b: BridgeState, limits: Limits, id: RunId, i: RunId)
    requires Sound(b, limits, None) && i in b.reg.objects
    ensures i in b.admitted && RunGood(b.(applied := b.applied + [id]), limits, i)
  {
    hide Sound;
    RunOf(b, limits, None, i);
  }

  lemma LoggedSuccGood(b: BridgeState, limits: Limits, id: RunId, q: RunId)
    requires Sound(b, limits, None) && q in b.successor && id !in b.successor
    ensures SuccGood(b.(applied := b.applied + [id]), q, None)
  {
    hide Sound;
    SuccOf(b, limits, None, q);
  }

  lemma LoggedAppliedGood(b: BridgeState, limits: Limits, id: RunId, i: RunId)
    requires Sound(b, limits, None) && (i in b.applied || i == id)
    requires Settled(b, id)
    ensures AppliedGood(b.(applied := b.applied + [id]), i)
  {
    hide Sound;
    AppliedOf(b, limits, None, i);
  }

  lemma NoRepeatsAppend(ids: seq<RunId>, id: RunId)
    requires NoRepeats(ids) && id !in ids
    ensures NoRepeats(ids + [id])
  {
  }

  lemma ApplyKeeps(b: BridgeState, limits: Limits, id: RunId, clean: bool)
    requires BridgeInv(b, limits)
    ensures BridgeInv(ApplyPatch(b, id, clean).0, limits)
  {
    if id in b.store && !Blank(b.store[id].patch) && clean {
      PatchedIsFree(b, limits, id);
      FewerEntriesSound(b, Discard(b, id), limits, None);
      LogAppliedSound(Discard(b, id), limits, id);
    }
  }

  lemma AcceptKeeps(b: BridgeState, limits: Limits, id: RunId, clean: bool, env: seq<RunEvent>, cutoff: int)
    requires BridgeInv(b, limits) && Natural(env)
    ensures BridgeInv(Accept(b, id, clean, env, cutoff).0, limits)
  {
    ArriveSound(b, limits, env, cutoff);
    ApplyKeeps(Arrive(b, env, cutoff), limits, id, clean);
  }

  lemma AcceptChangesKeeps(b: BridgeState, limits: Limits, id: RunId, clean: bool, env: seq<RunEvent>, cutoff: int)
    requires BridgeInv(b, limits) && Natural(env)
    ensures BridgeInv(AcceptChanges(b, id, clean, env, cutoff).0, limits)
  {
    ArriveSound(b, limits, env, cutoff);
    var b1 := Arrive(b, env, cutoff);
    ApplyKeeps(b1, limits, id, clean);
    AcceptChangesShape(b, id, clean, env, cutoff);
  }

  lemma AcceptChangesShape(b: BridgeState, id: RunId, clean: bool, env: seq<RunEvent>, cutoff: int)
    ensures var b1, c := Arrive(b, env, cutoff), AcceptChanges(b, id, clean, env, cutoff).0;
      c == b1 || c == ApplyPatch(b1, id, clean).0
  {
  }

  lemma RejectKeeps(b: BridgeState, limits: Limits, id: RunId)
    requires BridgeInv(b, limits)
    ensures BridgeInv(Reject(b, id).0, limits)
  {
    if id in b.store { FewerEntriesSound(b, Discard(b, id), limits, None); }
  }
}
