/** From the request to the patch: what an accepted request adds, that a run's checkout stays
    its own until it is collected, and whose patch comes out of it. */
module BridgeJourney {
  import opened Wrappers
  import opened RunLifecycle
  import opened Registry
  import opened Bridge
  import opened BridgeLaws
  import opened BridgeOperations
  import opened BridgeHistory
  import opened BridgeNoOp
  import opened BridgeDecisions

  // ---------------------------------------------------------------- asking

  /** The collaborators outside agree to a fresh request. */
  predicate AskBuilds(a: Attempt) {
    && (a.wantsGate ==> a.gateStarts) && a.argsBuild
    && (a.mode == Write && a.confined ==> a.checkout(None).Some?)
  }

  /** What a request asks for: a run of its own, at the root of its own chain. */
  function Asked(a: Attempt, prompt: string): Spec {
    Spec(a.id, a.confined, if a.mode == Write && a.confined then a.checkout(None) else None, None,
         ContinuationRecord(prompt, a.mode, a.confined, [], 0))
  }

  /** What an accepted request adds to the bridge, and that it adds nothing else: one new run
      with its checkout, registered at spawn, its record and its gate. */
  predicate Adds(b: BridgeState, c: BridgeState, a: Attempt, prompt: string) {
    && a.id in c.reg.objects && IsNew(c.reg.objects[a.id], Asked(a, prompt))
    && (forall id :: id in b.reg.objects ==> id in c.reg.objects && Kept(b.reg.objects[id], c.reg.objects[id]))
    && c.admitted == b.admitted[a.id := ContinuationRecord(prompt, a.mode, a.confined, [], 0)]
    && c.successor == b.successor && c.applied == b.applied
    && c.gates == (if a.wantsGate then b.gates + {a.id} else b.gates)
    && (if a.mode == Write && a.confined
        then a.checkout(None).Some? && c.store == b.store[a.id := PendingChanges(a.checkout(None).value, "")]
        else c.store == b.store)
  }

  lemma AskSpec(b: BridgeState, a: Attempt, prompt: string)
    ensures BuildSpec(b, a, prompt, None).1.Some? <==> AskBuilds(a)
    ensures AskBuilds(a) ==>
      BuildSpec(b, a, prompt, None)
      == (b.(gates := if a.wantsGate then b.gates + {a.id} else b.gates), Some(Asked(a, prompt)))
  {
    if AskBuilds(a) && !a.wantsGate { assert b.(gates := b.gates) == b; }
  }

  lemma AskAdds(b: BridgeState, limits: Limits, a: Attempt, prompt: string, order: seq<RunId>, env: seq<seq<RunEvent>>)
    requires BridgeInv(b, limits) && AskOk(b, a, order, env) && AskAgent(b, limits, a, prompt, order, env).1.Ok?
    ensures var (c, r) := AskAgent(b, limits, a, prompt, order, env);
      r == Ok(a.id) && a.authorised && AskBuilds(a) && Adds(b, c, a, prompt)
  {
    AskSpec(b, a, prompt);
    var b1, spec := BuildSpec(b, a, prompt, None).0, Asked(a, prompt);
    SoundRegistry(b, limits, None);
    hide Sound, RegistryInv, Live, BuildSpec, Start, IsNew, Kept, Admit, Flat;
    LaunchShape(b1, limits, spec, order, env);
    CountingIsElapsing(b.reg, order, None, env);
    NaturalKeeps(b.reg, Flat(order, env));
    var s := HappenAll(b.reg, Flat(order, env));
    RunsKnown(s);
    AdmitGains(s, spec);
    GainedOthers(b.reg, s, Admit(s, spec), spec);
  }

  lemma RunsKnown(s: RegistryState)
    requires RegistryInv(s)
    ensures s.runs <= s.objects.Keys
  {
  }

  lemma GainedOthers(s: RegistryState, t: RegistryState, u: RegistryState, spec: Spec)
    requires AllKept(s, t) && Gains(t, u, spec) && spec.resumedFrom.None?
    ensures forall id :: id in s.objects ==> id in u.objects && Kept(s.objects[id], u.objects[id])
  {
    hide IsNew;
  }

  /** With nothing else moving: what a request is told, by what the caller could look up. */
  lemma AskAnswersExactly(b: BridgeState, limits: Limits, a: Attempt, prompt: string, order: seq<RunId>)
    requires BridgeInv(b, limits) && AskOk(b, a, order, [])
    ensures AskAgent(b, limits, a, prompt, order, []).1
         == if !a.authorised then Err(NotAuthorised)
            else if !AskBuilds(a) then Err(SpecFailed)
            else if |Live(b.reg)| >= limits.maxLive then Err(NoSlot(|Live(b.reg)|))
            else Ok(a.id)
  {
    AskSpec(b, a, prompt);
    CountExactWhenQuiet(b.reg, order, None);
    assert Occupying(b.reg, order, None) == Live(b.reg);
    hide Sound, Live, BuildSpec;
  }

  // ---------------------------------------------------------------- a checkout stays its run's own

  /** The operations that take a run's checkout from it. */
  predicate Takes(op: BridgeOp, id: RunId) {
    (op.Continues? && op.pred == id) || (op.Collects? && op.id == id)
  }

  ghost predicate StillKept(b: BridgeState, c: BridgeState, id: RunId) {
    id in b.reg.objects && id in c.reg.objects && Kept(b.reg.objects[id], c.reg.objects[id])
  }

  lemma MeanwhileStill(b: BridgeState, limits: Limits, es: seq<RunEvent>, id: RunId)
    requires BridgeInv(b, limits) && Natural(es) && id in b.reg.objects
    ensures StillKept(b, Meanwhile(b, es), id)
  {
    hide Kept;
    MeanwhileSound(b, limits, None, es);
  }

  lemma LookStill(b: BridgeState, limits: Limits, es: seq<RunEvent>, cutoff: int, id: RunId)
    requires BridgeInv(b, limits) && Natural(es) && id in b.reg.objects
    ensures StillKept(b, Arrive(b, es, cutoff), id) && BridgeInv(Arrive(b, es, cutoff), limits)
  {
    hide Kept;
    ArriveSound(b, limits, es, cutoff);
  }

  lemma StillTwice(b: BridgeState, c: BridgeState, d: BridgeState, id: RunId)
    requires StillKept(b, c, id) && StillKept(c, d, id)
    ensures StillKept(b, d, id)
  {
  }

  lemma AskStill(b: BridgeState, limits: Limits, a: Attempt, prompt: string, order: seq<RunId>,
                 env: seq<seq<RunEvent>>, id: RunId)
    requires BridgeInv(b, limits) && AskOk(b, a, order, env) && id in b.reg.objects
    ensures StillKept(b, AskAgent(b, limits, a, prompt, order, env).0, id)
  {
    hide Sound, Kept, IsNew;
    if AskAgent(b, limits, a, prompt, order, env).1.Ok? {
      AskAdds(b, limits, a, prompt, order, env);
    } else {
      var elapsed := RefusedAskIsNoOp(b, limits, a, prompt, order, env);
      MeanwhileStill(b, limits, elapsed, id);
    }
  }

  lemma ContinueStill(b: BridgeState, limits: Limits, pred: RunId, answer: string, t: Turn, id: RunId)
    requires BridgeInv(b, limits) && TurnOk(b, t) && id in b.reg.objects && id != pred
    ensures StillKept(b, Continue(b, limits, pred, answer, t).0, id)
  {
    hide Sound, Kept, Continue;
    if Continue(b, limits, pred, answer, t).1.Ok? {
      var q, elapsed := ContinueExtendsTheChain(b, limits, pred, answer, t);
    } else {
      var elapsed := FailedContinueIsNoOp(b, limits, pred, answer, t);
      var c := Arrive(b, Between(t.env, 0), t.cutoff);
      LookStill(b, limits, Between(t.env, 0), t.cutoff, id);
      MeanwhileStill(c, limits, elapsed, id);
      StillTwice(b, c, Meanwhile(c, elapsed), id);
    }
  }

  lemma CollectStill(b: BridgeState, limits: Limits, other: RunId, diff: Option<string>, es: seq<RunEvent>,
                     cutoff: int, id: RunId)
    requires BridgeInv(b, limits) && Natural(es) && id in b.reg.objects && id != other
    ensures StillKept(b, Collect(b, other, diff, es, cutoff), id)
  {
    CollectShape(b, other, diff, es, cutoff);
    hide Collect, Kept, RegistryInv, Live, RunGood, SuccGood, AppliedGood;
    if other in b.reg.objects {
      var s := Happen(b.reg, RunEvent(other, OpTakeWorktree));
      HappenElsewhere(b.reg, RunEvent(other, OpTakeWorktree), id);
      HappenFacts(b.reg, RunEvent(other, OpTakeWorktree));
      NaturalKeeps(s, es);
      PickedRegistry(CloseGate(b, other), other, diff);
    }
    KeptItself(b.reg.objects[id]);
  }

  lemma PickedRegistry(b: BridgeState, id: RunId, diff: Option<string>)
    requires id in b.reg.objects
    ensures Picked(b, id, diff).reg == Happen(b.reg, RunEvent(id, OpTakeWorktree))
  {
    hide Happen;
  }

  lemma KeptItself(v: RunView)
    ensures Kept(v, v)
  {
  }

  lemma OpStill(b: BridgeState, limits: Limits, op: BridgeOp, id: RunId)
    requires BridgeInv(b, limits) && CanBe(b, op) && id in b.reg.objects && !Takes(op, id)
    ensures StillKept(b, After(b, limits, op), id)
  {
    hide Sound, Kept, AskAgent, Continue, Collect, RegistryInv;
    match op
    case RunsMove(es) => MeanwhileStill(b, limits, es, id);
    case Looks(es, cutoff) => LookStill(b, limits, es, cutoff, id);
    case Asks(a, prompt, order, env) => AskStill(b, limits, a, prompt, order, env, id);
    case Continues(pred, answer, turn) => ContinueStill(b, limits, pred, answer, turn, id);
    case Collects(other, diff, es, cutoff) => CollectStill(b, limits, other, diff, es, cutoff, id);
    case Accepts(_, _, es, cutoff) => LookStill(b, limits, es, cutoff, id);
    case AgentAccepts(_, _, es, cutoff) => LookStill(b, limits, es, cutoff, id);
    case Rejects(_) => KeptItself(b.reg.objects[id]);
  }

  /** Whatever is done to others, and whatever is decided about diffs, a run keeps what it was
      given until it is collected or continued itself. */
  lemma {:induction false} HistoryStill(b: BridgeState, limits: Limits, ops: seq<BridgeOp>, id: RunId)
    requires BridgeInv(b, limits) && Possible(b, limits, ops) && id in b.reg.objects
    requires forall i :: 0 <= i < |ops| ==> !Takes(ops[i], id)
    ensures StillKept(b, AfterAll(b, limits, ops), id)
    decreases |ops|
  {
    hide Sound, Kept, After, CanBe;
    if ops == [] {
      KeptItself(b.reg.objects[id]);
    } else {
      OpStill(b, limits, ops[0], id);
      OpKeeps(b, limits, ops[0]);
      HistoryStill(After(b, limits, ops[0]), limits, ops[1..], id);
      StillTwice(b, After(b, limits, ops[0]), AfterAll(b, limits, ops), id);
    }
  }

  // ---------------------------------------------------------------- the patch comes out

  /** A run holding a checkout that settles, whatever is done to others meanwhile, and is then
      collected with a patch, leaves that patch with that checkout for a decision. */
  lemma HeldComesToAPatch(b: BridgeState, limits: Limits, id: RunId, wt: Worktree, ops: seq<BridgeOp>, patch: string,
                          es: seq<RunEvent>, cutoff: int)
    requires BridgeInv(b, limits) && id in b.reg.objects && b.reg.objects[id].worktree == Some(wt)
    requires b.reg.objects[id].resumedBy.None?
    requires Possible(b, limits, ops) && (forall i :: 0 <= i < |ops| ==> !Takes(ops[i], id)) && Natural(es)
    requires var c := AfterAll(b, limits, ops);
      patch != "" && (id in c.reg.objects ==> c.reg.objects[id].state.IsTerminal())
    ensures var d := Collect(AfterAll(b, limits, ops), id, Some(patch), es, cutoff);
      id in d.store && d.store[id] == PendingChanges(wt, patch)
  {
    hide Collect, Sound, RegistryInv, AfterAll, Possible, StillKept, Live, Natural, Takes;
    HistoryStill(b, limits, ops, id);
    HistoryKeeps(b, limits, ops);
    var c := AfterAll(b, limits, ops);
    SoundRegistry(c, limits, None);
    StillHeld(b, c, limits, id, wt);
    CollectStoresThePatch(c, id, Some(patch), es, cutoff);
  }

  lemma StillHeld(b: BridgeState, c: BridgeState, limits: Limits, id: RunId, wt: Worktree)
    requires StillKept(b, c, id) && BridgeInv(c, limits)
    requires b.reg.objects[id].worktree == Some(wt) && b.reg.objects[id].resumedBy.None?
    ensures id in c.reg.objects && c.reg.objects[id].worktree == Some(wt) && c.reg.objects[id].state != Superseded
  {
    hide Sound;
    RunOf(c, limits, None, id);
  }

  /** A confined write request that is accepted gets a checkout cut from the tree, and its
      patch, once it has settled and is collected, is one against that checkout. */
  lemma AskComesToAPatch(b: BridgeState, limits: Limits, a: Attempt, prompt: string, order: seq<RunId>,
                         env: seq<seq<RunEvent>>, ops: seq<BridgeOp>, patch: string, es: seq<RunEvent>, cutoff: int)
    requires BridgeInv(b, limits) && AskOk(b, a, order, env) && a.mode == Write && a.confined
    requires AskAgent(b, limits, a, prompt, order, env).1.Ok?
    requires var c := AskAgent(b, limits, a, prompt, order, env).0;
      && Possible(c, limits, ops) && (forall i :: 0 <= i < |ops| ==> !Takes(ops[i], a.id)) && Natural(es)
      && patch != ""
      && var d := AfterAll(c, limits, ops); a.id in d.reg.objects ==> d.reg.objects[a.id].state.IsTerminal()
    ensures var d := Collect(AfterAll(AskAgent(b, limits, a, prompt, order, env).0, limits, ops), a.id, Some(patch), es,
                             cutoff);
      a.checkout(None).Some? && a.id in d.store && d.store[a.id] == PendingChanges(a.checkout(None).value, patch)
  {
    hide Sound, AskAgent, AfterAll, Possible, Collect;
    AskAdds(b, limits, a, prompt, order, env);
    AskKeeps(b, limits, a, prompt, order, env);
    var c, wt := AskAgent(b, limits, a, prompt, order, env).0, a.checkout(None).value;
    HeldComesToAPatch(c, limits, a.id, wt, ops, patch, es, cutoff);
  }

  /** A continuation's patch is one against a checkout handed forward from its predecessor's. */
  lemma ContinueComesToAPatch(b: BridgeState, limits: Limits, pred: RunId, answer: string, t: Turn,
                              ops: seq<BridgeOp>, patch: string, es: seq<RunEvent>, cutoff: int)
    requires BridgeInv(b, limits) && TurnOk(b, t) && Continue(b, limits, pred, answer, t).1.Ok?
    requires t.attempt.mode == Write && t.attempt.confined
    requires var c := Continue(b, limits, pred, answer, t).0;
      && Possible(c, limits, ops) && (forall i :: 0 <= i < |ops| ==> !Takes(ops[i], t.attempt.id)) && Natural(es)
      && patch != ""
      && var d := AfterAll(c, limits, ops);
         t.attempt.id in d.reg.objects ==> d.reg.objects[t.attempt.id].state.IsTerminal()
    ensures var c := AfterAll(Continue(b, limits, pred, answer, t).0, limits, ops);
      var d := Collect(c, t.attempt.id, Some(patch), es, cutoff);
      && pred in b.store && t.attempt.checkout(Some(b.store[pred].wt)).Some?
      && t.attempt.id in d.store
      && d.store[t.attempt.id] == PendingChanges(t.attempt.checkout(Some(b.store[pred].wt)).value, patch)
  {
    hide Sound, Continue, AfterAll, Possible, Collect;
    var q, elapsed := ContinueExtendsTheChain(b, limits, pred, answer, t);
    ContinueKeeps(b, limits, pred, answer, t);
    var c, id := Continue(b, limits, pred, answer, t).0, t.attempt.id;
    NotContinuedYet(b, c, limits, pred, id);
    HeldComesToAPatch(c, limits, id, t.attempt.checkout(Some(b.store[pred].wt)).value, ops, patch, es, cutoff);
  }

  lemma NotContinuedYet(b: BridgeState, c: BridgeState, limits: Limits, pred: RunId, id: RunId)
    requires BridgeInv(b, limits) && BridgeInv(c, limits) && id !in b.reg.objects && id in c.reg.objects
    requires c.successor == b.successor[pred := id] && pred in b.reg.objects
    ensures c.reg.objects[id].resumedBy.None?
  {
    FreshId(b, limits, id);
    RunOf(c, limits, None, id);
  }
}
