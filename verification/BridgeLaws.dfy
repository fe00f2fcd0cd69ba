/** What every operation of the bridge keeps. */
module BridgeLaws {
  import opened Wrappers
  import opened RunLifecycle
  import opened Registry
  import opened Bridge

  // ---------------------------------------------------------------- runs moving on their own

  predicate Natural(es: seq<RunEvent>) {
    forall i :: 0 <= i < |es| ==> Environment(es[i].op) && OpOk(es[i].op)
  }

  predicate NaturalAll(env: seq<seq<RunEvent>>) { forall i :: 0 <= i < |env| ==> Natural(env[i]) }

  /** What a run keeps while others leave it to itself. */
  predicate Kept(v: RunView, w: RunView) {
    && w.id == v.id && w.confined == v.confined && w.resumedFrom == v.resumedFrom && w.resumedBy == v.resumedBy
    && w.continuation == v.continuation && w.worktree == v.worktree && w.retiring == v.retiring
    && (v.state.IsTerminal() ==> w.state == v.state)
    && (v.state == NeedsInput ==> w.state == NeedsInput || w.state == Failed)
  }

  predicate AllKept(s: RegistryState, t: RegistryState) {
    && t.objects.Keys == s.objects.Keys
    && forall id :: id in s.objects ==> Kept(s.objects[id], t.objects[id])
  }

  lemma NaturalStep(v: RunView, op: Op)
    requires Inv(v) && Environment(op) && OpOk(op)
    ensures Kept(v, Apply(v, op).view) && Inv(Apply(v, op).view)
  {
    StepKeepsInv(v, op);
    if op.OpAsk? || op.OpResolve? || op.OpAwait? || op.OpSetDiagnostic? {
      hide EnterNeedsInput, Finish, Expire;
      assert Kept(v, Apply(v, op).view);
    } else {
      hide Ask, Resolve;
      assert Kept(v, Apply(v, op).view);
    }
  }

  lemma NaturalHappen(s: RegistryState, e: RunEvent)
    requires RegistryInv(s) && Environment(e.op) && OpOk(e.op)
    ensures RegistryInv(Happen(s, e)) && AllKept(s, Happen(s, e)) && Live(Happen(s, e)) <= Live(s)
  {
    hide Live, Apply;
    HappenFacts(s, e);
    if e.run in s.objects { NaturalStep(s.objects[e.run], e.op); }
  }

  lemma AllKeptTwice(s: RegistryState, t: RegistryState, u: RegistryState)
    requires AllKept(s, t) && AllKept(t, u)
    ensures AllKept(s, u)
  {
    forall id | id in s.objects ensures Kept(s.objects[id], u.objects[id]) {
      assert Kept(s.objects[id], t.objects[id]) && Kept(t.objects[id], u.objects[id]);
    }
  }

  lemma {:induction false} NaturalKeeps(s: RegistryState, es: seq<RunEvent>)
    requires RegistryInv(s) && Natural(es)
    ensures var t := HappenAll(s, es); RegistryInv(t) && AllKept(s, t) && Live(t) <= Live(s)
    decreases |es|
  {
    if es != [] {
      hide RegistryInv, Live, Kept, Happen;
      var t := Happen(s, es[0]);
      NaturalHappen(s, es[0]);
      NaturalKeeps(t, es[1..]);
      AllKeptTwice(s, t, HappenAll(t, es[1..]));
    }
  }

  // ---------------------------------------------------------------- the invariant

  predicate LinkGood(b: BridgeState, limits: Limits, id: RunId)
    requires id in b.reg.objects && id in b.admitted
  {
    match b.reg.objects[id].resumedFrom
    case None => b.admitted[id].depth == 0 && b.admitted[id].turns == []
    case Some(p) =>
      && p in b.admitted && p in b.successor && b.successor[p] == id
      && b.admitted[id].depth == b.admitted[p].depth + 1
      && b.admitted[id].depth <= limits.maxContinuations
      && b.admitted[id].prompt == b.admitted[p].prompt
      && |b.admitted[id].turns| == |b.admitted[p].turns| + 1
      && b.admitted[p].turns <= b.admitted[id].turns
  }

  predicate RunGood(b: BridgeState, limits: Limits, id: RunId)
    requires id in b.reg.objects && id in b.admitted
  {
    var v := b.reg.objects[id];
    && LinkGood(b, limits, id)
    && (v.continuation.Some? ==> v.continuation.value == b.admitted[id])
    && (v.resumedBy.Some? ==> id in b.successor && b.successor[id] == v.resumedBy.value)
    && (id in b.store && b.store[id].patch != "" ==> v.worktree.None? && v.state.IsTerminal())
  }

  /** A continued run owns nothing its chain could still act on. */
  predicate Retired(b: BridgeState, p: RunId)
    requires p in b.reg.objects
  {
    && (b.reg.objects[p].state == Superseded || b.reg.objects[p].state == Failed)
    && b.reg.objects[p].worktree.None? && p !in b.store && p !in b.gates
  }

  predicate SuccGood(b: BridgeState, p: RunId, handing: Option<RunId>)
    requires p in b.successor
  {
    && p in b.reg.objects && b.successor[p] in b.reg.objects
    && b.reg.objects[b.successor[p]].resumedFrom == Some(p)
    && p !in b.applied
    && (if handing == Some(p)
        then b.reg.objects[p].state in {NeedsInput, Superseded, Failed}
        else Retired(b, p))
  }

  predicate AppliedGood(b: BridgeState, id: RunId) {
    && id in b.reg.objects && id !in b.store
    && b.reg.objects[id].worktree.None? && b.reg.objects[id].state.IsTerminal()
  }

  predicate NoRepeats(ids: seq<RunId>) { forall i, j :: 0 <= i < j < |ids| ==> ids[i] != ids[j] }

  /** `handing` is a predecessor whose successor has started but who is not yet retired. */
  predicate Sound(b: BridgeState, limits: Limits, handing: Option<RunId>) {
    && RegistryInv(b.reg)
    && b.admitted.Keys == b.reg.objects.Keys
    && b.store.Keys <= b.reg.objects.Keys
    && (forall id :: id in b.reg.objects ==> RunGood(b, limits, id))
    && (forall p :: p in b.successor ==> SuccGood(b, p, handing))
    && (forall id :: id in b.applied ==> AppliedGood(b, id))
    && NoRepeats(b.applied)
    && |Live(b.reg)| <= limits.maxLive
  }

  lemma SuccOf(b: BridgeState, limits: Limits, h: Option<RunId>, p: RunId)
    requires Sound(b, limits, h)
    ensures p in b.successor ==> SuccGood(b, p, h)
  {
  }

  lemma AppliedOf(b: BridgeState, limits: Limits, h: Option<RunId>, id: RunId)
    requires Sound(b, limits, h)
    ensures id in b.applied ==> AppliedGood(b, id)
  {
  }

  lemma SoundRegistry(b: BridgeState, limits: Limits, h: Option<RunId>)
    requires Sound(b, limits, h)
    ensures RegistryInv(b.reg) && |Live(b.reg)| <= limits.maxLive && b.admitted.Keys == b.reg.objects.Keys
    ensures b.store.Keys <= b.reg.objects.Keys && b.successor.Keys <= b.reg.objects.Keys
  {
    hide RunGood, AppliedGood, RegistryInv, Live;
    forall p | p in b.successor ensures p in b.reg.objects { assert SuccGood(b, p, h); }
  }

  lemma RunOf(b: BridgeState, limits: Limits, h: Option<RunId>, id: RunId)
    requires Sound(b, limits, h) && id in b.reg.objects
    ensures id in b.admitted && RunGood(b, limits, id)
    ensures Inv(b.reg.objects[id]) && b.reg.objects[id].id == id
    ensures b.reg.objects[id].continuation.Some? ==> b.reg.objects[id].continuation == Some(b.admitted[id])
  {
    hide LinkGood, SuccGood, AppliedGood, Live;
    assert RunGood(b, limits, id);
  }

  // ---------------------------------------------------------------- small steps

  /** A run may also lose its record, or get its own record back. */
  predicate Tame(v: RunView, w: RunView, rec: ContinuationRecord) {
    && Kept(v, w.(continuation := v.continuation))
    && (w.continuation == v.continuation || w.continuation.None? || w.continuation == Some(rec))
  }

  lemma TameRunGood(b: BridgeState, c: BridgeState, limits: Limits, id: RunId)
    requires c == b.(reg := c.reg) && id in b.reg.objects && id in b.admitted && id in c.reg.objects
    requires RunGood(b, limits, id) && Tame(b.reg.objects[id], c.reg.objects[id], b.admitted[id])
    ensures RunGood(c, limits, id)
  {
  }

  lemma TameSuccGood(b: BridgeState, c: BridgeState, h: Option<RunId>, p: RunId)
    requires c == b.(reg := c.reg) && p in b.successor && SuccGood(b, p, h)
    requires c.reg.objects.Keys == b.reg.objects.Keys && b.reg.objects.Keys <= b.admitted.Keys
    requires Tame(b.reg.objects[p], c.reg.objects[p], b.admitted[p])
    requires var q := b.successor[p]; Tame(b.reg.objects[q], c.reg.objects[q], b.admitted[q])
    ensures SuccGood(c, p, h)
  {
  }

  lemma RunsMoveSound(b: BridgeState, c: BridgeState, limits: Limits, h: Option<RunId>)
    requires Sound(b, limits, h) && c == b.(reg := c.reg)
    requires RegistryInv(c.reg) && c.reg.objects.Keys == b.reg.objects.Keys && Live(c.reg) <= Live(b.reg)
    requires forall id :: id in b.reg.objects ==> Tame(b.reg.objects[id], c.reg.objects[id], b.admitted[id])
    ensures Sound(c, limits, h)
  {
    SubsetSize(Live(c.reg), Live(b.reg));
    forall id | id in c.reg.objects ensures RunGood(c, limits, id) { TameRunGood(b, c, limits, id); }
    forall p | p in c.successor ensures SuccGood(c, p, h) {
      assert SuccGood(b, p, h);
      TameSuccGood(b, c, h, p);
    }
    forall id | id in c.applied ensures AppliedGood(c, id) {
      assert AppliedGood(b, id) && Tame(b.reg.objects[id], c.reg.objects[id], b.admitted[id]);
    }
  }

  lemma MeanwhileSound(b: BridgeState, limits: Limits, h: Option<RunId>, es: seq<RunEvent>)
    requires Sound(b, limits, h) && Natural(es)
    ensures Sound(Meanwhile(b, es), limits, h) && AllKept(b.reg, Meanwhile(b, es).reg)
  {
    NaturalKeeps(b.reg, es);
    var c := Meanwhile(b, es);
    forall id | id in b.reg.objects ensures Tame(b.reg.objects[id], c.reg.objects[id], b.admitted[id]) {
      assert Kept(b.reg.objects[id], c.reg.objects[id]);
    }
    RunsMoveSound(b, c, limits, h);
  }

  lemma ArriveSound(b: BridgeState, limits: Limits, es: seq<RunEvent>, cutoff: int)
    requires Sound(b, limits, None) && Natural(es)
    ensures Sound(Arrive(b, es, cutoff), limits, None)
    ensures AllKept(b.reg, Arrive(b, es, cutoff).reg)
  {
    NaturalKeeps(b.reg, es);
    var c := Arrive(b, es, cutoff);
    forall id | id in b.reg.objects ensures Tame(b.reg.objects[id], c.reg.objects[id], b.admitted[id]) {
      assert Kept(b.reg.objects[id], c.reg.objects[id]);
    }
    RunsMoveSound(b, c, limits, None);
  }

  lemma RecordMovesSound(b: BridgeState, c: BridgeState, limits: Limits, pred: RunId, rec: Option<ContinuationRecord>)
    requires Sound(b, limits, None) && pred in b.reg.objects
    requires rec.None? || rec == Some(b.admitted[pred]) || rec == b.reg.objects[pred].continuation
    requires c == b.(reg := b.reg.(objects := b.reg.objects[pred := b.reg.objects[pred].(continuation := rec)]))
    ensures Sound(c, limits, None)
  {
    hide Sound, RegistryInv, Live, RunGood;
    SoundRegistry(b, limits, None);
    RecordMovesRegistry(b.reg, c.reg, pred, rec);
    RunOf(b, limits, None, pred);
    forall id | id in b.reg.objects ensures Tame(b.reg.objects[id], c.reg.objects[id], b.admitted[id]) {
      if id != pred { assert c.reg.objects[id] == b.reg.objects[id]; }
    }
    RunsMoveSound(b, c, limits, None);
  }

  lemma RecordMovesRegistry(s: RegistryState, t: RegistryState, pred: RunId, rec: Option<ContinuationRecord>)
    requires RegistryInv(s) && pred in s.objects
    requires t == s.(objects := s.objects[pred := s.objects[pred].(continuation := rec)])
    ensures RegistryInv(t) && Live(t) <= Live(s)
  {
  }

  lemma TakeSound(b: BridgeState, limits: Limits, pred: RunId)
    requires Sound(b, limits, None) && pred in b.reg.objects
    ensures Sound(OnRun(b, pred, OpTakeContinuation), limits, None)
  {
    var v := b.reg.objects[pred];
    RecordMovesSound(b, OnRun(b, pred, OpTakeContinuation), limits, pred, TakeContinuation(v).continuation);
  }

  lemma RestoreSound(b: BridgeState, limits: Limits, pred: RunId, rec: ContinuationRecord)
    requires Sound(b, limits, None) && pred in b.reg.objects && rec == b.admitted[pred]
    ensures Sound(Restore(b, pred, rec), limits, None)
  {
    RecordMovesSound(b, Restore(b, pred, rec), limits, pred, Some(rec));
  }

  /** Gates may come and go, but never for a run that was continued. */
  lemma GatesSound(b: BridgeState, c: BridgeState, limits: Limits, h: Option<RunId>)
    requires Sound(b, limits, h) && c == b.(gates := c.gates)
    requires forall p :: p in b.successor && p in c.gates ==> p in b.gates
    ensures Sound(c, limits, h)
  {
    forall id | id in c.reg.objects ensures RunGood(c, limits, id) { assert RunGood(b, limits, id); }
    forall p | p in c.successor ensures SuccGood(c, p, h) { assert SuccGood(b, p, h); }
    forall id | id in c.applied ensures AppliedGood(c, id) { assert AppliedGood(b, id); }
  }

  /** Entries may be dropped at any time. */
  lemma FewerEntriesSound(b: BridgeState, c: BridgeState, limits: Limits, h: Option<RunId>)
    requires Sound(b, limits, h) && c == b.(store := c.store)
    requires forall id :: id in c.store ==> id in b.store && c.store[id] == b.store[id]
    ensures Sound(c, limits, h)
  {
    forall id | id in c.reg.objects ensures RunGood(c, limits, id) { assert RunGood(b, limits, id); }
    forall p | p in c.successor ensures SuccGood(c, p, h) { assert SuccGood(b, p, h); }
    forall id | id in c.applied ensures AppliedGood(c, id) { assert AppliedGood(b, id); }
  }

  // ---------------------------------------------------------------- starting a run

  /** Everything that happened while Start counted, in order. */
  function Flat(order: seq<RunId>, env: seq<seq<RunEvent>>): (es: seq<RunEvent>)
    ensures env == [] ==> es == []
    decreases |order|
  {
    if order == [] then [] else Between(env, 0) + Flat(order[1..], if env == [] then [] else env[1..])
  }

  lemma {:induction false} CountingIsElapsing(s: RegistryState, order: seq<RunId>, exclude: Option<RunId>,
                                              env: seq<seq<RunEvent>>)
    requires NaturalAll(env)
    ensures CountLive(s, order, exclude, env).0 == HappenAll(s, Flat(order, env)) && Natural(Flat(order, env))
    decreases |order|
  {
    if order != [] {
      var env' := if env == [] then [] else env[1..];
      CountingIsElapsing(HappenAll(s, Between(env, 0)), order[1..], exclude, env');
      HappenInParts(s, Between(env, 0), Flat(order[1..], env'));
    }
  }

  lemma NaturalIsOk(env: seq<seq<RunEvent>>)
    requires NaturalAll(env)
    ensures EnvOk(env)
  {
  }

  /** What the spec of a new run must be for its chain to stay a chain. */
  predicate SpecFits(b: BridgeState, limits: Limits, spec: Spec) {
    && spec.id !in b.reg.objects
    && match spec.resumedFrom
       case None => spec.continuation.depth == 0 && spec.continuation.turns == []
       case Some(p) =>
         && p in b.reg.objects && p in b.admitted && p !in b.successor && p !in b.applied
         && (b.reg.objects[p].state == NeedsInput || b.reg.objects[p].state == Failed)
         && spec.continuation.depth == b.admitted[p].depth + 1
         && spec.continuation.depth <= limits.maxContinuations
         && spec.continuation.prompt == b.admitted[p].prompt
         && |spec.continuation.turns| == |b.admitted[p].turns| + 1
         && b.admitted[p].turns <= spec.continuation.turns
  }

  /** The state just after admission, before anything else is done for the new run. */
  function Admitted(b: BridgeState, spec: Spec): BridgeState {
    b.(reg := Admit(b.reg, spec),
       admitted := b.admitted[spec.id := spec.continuation],
       successor := if spec.resumedFrom.Some? then b.successor[spec.resumedFrom.value := spec.id] else b.successor)
  }

  /** The registry after one admission, without saying how it got there. */
  predicate Grown(s: RegistryState, t: RegistryState, spec: Spec) {
    && t.objects.Keys == s.objects.Keys + {spec.id}
    && (forall id :: id in s.objects && id != spec.id ==>
          t.objects[id] == s.objects[id].(retiring := t.objects[id].retiring))
    && t.objects[spec.id] == Fresh(spec.id, spec.confined, spec.worktree, Some(spec.continuation), spec.resumedFrom)
  }

  lemma AdmitGrows(s: RegistryState, spec: Spec)
    requires spec.id !in s.objects && spec.resumedFrom != Some(spec.id)
    ensures Grown(s, Admit(s, spec), spec)
  {
    var r := Fresh(spec.id, spec.confined, spec.worktree, Some(spec.continuation), spec.resumedFrom);
    var s1 := s.(objects := s.objects[spec.id := r], runs := s.runs + {spec.id});
    if spec.resumedFrom.Some? && spec.resumedFrom.value in s1.runs {
      RetireStep(s1, spec.resumedFrom.value);
    }
  }

  lemma RetireStep(s: RegistryState, id: RunId)
    ensures var t := Happen(s, RunEvent(id, OpRetire));
      t.objects == (if id in s.objects then s.objects[id := s.objects[id].(retiring := true)] else s.objects)
  {
  }

  /** The bridge after one admission. */
  predicate Joined(b: BridgeState, c: BridgeState, spec: Spec) {
    && c.store == b.store && c.gates == b.gates && c.applied == b.applied
    && c.admitted == b.admitted[spec.id := spec.continuation]
    && c.successor == (if spec.resumedFrom.Some? then b.successor[spec.resumedFrom.value := spec.id] else b.successor)
    && Grown(b.reg, c.reg, spec)
  }

  lemma OldLinkStaysGood(b: BridgeState, c: BridgeState, limits: Limits, spec: Spec, id: RunId)
    requires Sound(b, limits, None) && SpecFits(b, limits, spec) && Joined(b, c, spec) && id in b.reg.objects
    ensures id in c.reg.objects && id in c.admitted && LinkGood(c, limits, id)
  {
    assert RunGood(b, limits, id);
    HistoryGrows(b, c, spec);
    LinkMoves(b, c, limits, id);
  }

  lemma HistoryGrows(b: BridgeState, c: BridgeState, spec: Spec)
    requires Joined(b, c, spec) && spec.id !in b.admitted
    requires spec.resumedFrom.Some? ==> spec.resumedFrom.value !in b.successor
    ensures forall i :: i in b.admitted ==> i in c.admitted && c.admitted[i] == b.admitted[i]
    ensures forall i :: i in b.successor ==> i in c.successor && c.successor[i] == b.successor[i]
  {
  }

  lemma LinkMoves(b: BridgeState, c: BridgeState, limits: Limits, id: RunId)
    requires id in b.reg.objects && id in b.admitted && LinkGood(b, limits, id)
    requires id in c.reg.objects && c.reg.objects[id].resumedFrom == b.reg.objects[id].resumedFrom
    requires forall i :: i in b.admitted ==> i in c.admitted && c.admitted[i] == b.admitted[i]
    requires forall i :: i in b.successor ==> i in c.successor && c.successor[i] == b.successor[i]
    ensures LinkGood(c, limits, id)
  {
  }

  lemma OldRunStaysGood(b: BridgeState, c: BridgeState, limits: Limits, spec: Spec, id: RunId)
    requires Sound(b, limits, None) && SpecFits(b, limits, spec) && Joined(b, c, spec) && id in b.reg.objects
    ensures RunGood(c, limits, id)
  {
    hide Sound, LinkGood, RunGood;
    RunOf(b, limits, None, id);
    OldLinkStaysGood(b, c, limits, spec, id);
    OldRun(b, c, limits, spec, id);
  }

  lemma OldRun(b: BridgeState, c: BridgeState, limits: Limits, spec: Spec, id: RunId)
    requires Joined(b, c, spec) && id in b.reg.objects && id in b.admitted && RunGood(b, limits, id) && id != spec.id
    requires spec.resumedFrom.Some? ==> spec.resumedFrom.value !in b.successor
    requires id in c.reg.objects && id in c.admitted && LinkGood(c, limits, id)
    ensures RunGood(c, limits, id)
  {
    hide LinkGood;
  }

  lemma NewRunIsGood(b: BridgeState, c: BridgeState, limits: Limits, spec: Spec)
    requires Sound(b, limits, None) && SpecFits(b, limits, spec) && Joined(b, c, spec)
    ensures RunGood(c, limits, spec.id)
  {
  }

  lemma ContinuedStaysGood(b: BridgeState, c: BridgeState, limits: Limits, spec: Spec, p: RunId)
    requires Sound(b, limits, None) && SpecFits(b, limits, spec) && Joined(b, c, spec) && p in c.successor
    ensures SuccGood(c, p, spec.resumedFrom)
  {
    hide Sound, SuccGood, Grown;
    SuccOf(b, limits, None, p);
    if p in b.successor {
      OldSucc(b, c, spec, p);
    } else {
      NewSucc(b, c, limits, spec);
    }
  }

  lemma OldSucc(b: BridgeState, c: BridgeState, spec: Spec, p: RunId)
    requires Joined(b, c, spec) && p in b.successor && SuccGood(b, p, None) && spec.id !in b.reg.objects
    requires spec.resumedFrom.Some? ==> spec.resumedFrom.value !in b.successor
    ensures p in c.successor && SuccGood(c, p, spec.resumedFrom)
  {
  }

  lemma NewSucc(b: BridgeState, c: BridgeState, limits: Limits, spec: Spec)
    requires SpecFits(b, limits, spec) && Joined(b, c, spec) && spec.resumedFrom.Some?
    ensures SuccGood(c, spec.resumedFrom.value, spec.resumedFrom)
  {
  }

  lemma OldAppliedStaysGood(b: BridgeState, c: BridgeState, spec: Spec, id: RunId)
    requires Joined(b, c, spec) && spec.id !in b.reg.objects && AppliedGood(b, id)
    ensures AppliedGood(c, id)
  {
  }

  lemma AdmittedSound(b: BridgeState, c: BridgeState, limits: Limits, spec: Spec)
    requires Sound(b, limits, None) && SpecFits(b, limits, spec) && Joined(b, c, spec)
    requires RegistryInv(c.reg) && |Live(c.reg)| <= limits.maxLive
    ensures Sound(c, limits, spec.resumedFrom)
  {
    hide RunGood, SuccGood, AppliedGood, RegistryInv, Live;
    forall id | id in c.reg.objects ensures RunGood(c, limits, id) {
      if id == spec.id { NewRunIsGood(b, c, limits, spec); } else { OldRunStaysGood(b, c, limits, spec, id); }
    }
    forall p | p in c.successor ensures SuccGood(c, p, spec.resumedFrom) { ContinuedStaysGood(b, c, limits, spec, p); }
    forall id | id in c.applied ensures AppliedGood(c, id) { OldAppliedStaysGood(b, c, spec, id); }
  }

  lemma LaunchShape(b: BridgeState, limits: Limits, spec: Spec, order: seq<RunId>, env: seq<seq<RunEvent>>)
    requires NaturalAll(env)
    ensures var (c, r) := Launch(b, limits, spec, order, env);
            && c.store == b.store && c.gates == b.gates
            && (r.Err? ==> c == Meanwhile(b, Flat(order, env)))
            && (r.Ok? ==> r.value == spec.id && c == Admitted(Meanwhile(b, Flat(order, env)), spec))
  {
    CountingIsElapsing(b.reg, order, spec.resumedFrom, env);
  }

  lemma LaunchCap(b: BridgeState, limits: Limits, spec: Spec, order: seq<RunId>, env: seq<seq<RunEvent>>)
    requires Sound(b, limits, None) && spec.id !in b.reg.objects && NaturalAll(env) && IterationOf(order, b.reg.runs)
    ensures var reg := Launch(b, limits, spec, order, env).0.reg; RegistryInv(reg) && |Live(reg)| <= limits.maxLive
  {
    NaturalIsOk(env);
    StartKeepsCap(b.reg, limits.maxLive, spec, order, env);
  }

  lemma FitsMeanwhile(b: BridgeState, limits: Limits, spec: Spec, es: seq<RunEvent>)
    requires Sound(b, limits, None) && SpecFits(b, limits, spec) && Natural(es)
    ensures SpecFits(Meanwhile(b, es), limits, spec)
  {
    NaturalKeeps(b.reg, es);
    if spec.resumedFrom.Some? {
      assert Kept(b.reg.objects[spec.resumedFrom.value], Meanwhile(b, es).reg.objects[spec.resumedFrom.value]);
    }
  }

  lemma LaunchSound(b: BridgeState, limits: Limits, spec: Spec, order: seq<RunId>, env: seq<seq<RunEvent>>)
    requires Sound(b, limits, None) && SpecFits(b, limits, spec) && NaturalAll(env) && IterationOf(order, b.reg.runs)
    ensures var (c, r) := Launch(b, limits, spec, order, env);
            && Sound(c, limits, if r.Ok? then spec.resumedFrom else None)
            && (r.Ok? ==> c.reg.objects.Keys == b.reg.objects.Keys + {spec.id})
  {
    var (c, r) := Launch(b, limits, spec, order, env);
    LaunchShape(b, limits, spec, order, env);
    CountingIsElapsing(b.reg, order, spec.resumedFrom, env);
    var es := Flat(order, env);
    MeanwhileSound(b, limits, None, es);
    if r.Ok? {
      LaunchCap(b, limits, spec, order, env);
      FitsMeanwhile(b, limits, spec, es);
      AdmitGrows(Meanwhile(b, es).reg, spec);
      AdmittedSound(Meanwhile(b, es), c, limits, spec);
    }
  }

  lemma RegisterSound(b: BridgeState, limits: Limits, h: Option<RunId>, spec: Spec)
    requires Sound(b, limits, h) && spec.id in b.reg.objects && spec.id !in b.successor && spec.id !in b.applied
    ensures Sound(Register(b, spec), limits, h)
  {
    hide RegistryInv, Live, LinkGood;
    var c := Register(b, spec);
    forall id | id in c.reg.objects ensures RunGood(c, limits, id) { RegisterRunGood(b, limits, h, spec, id); }
    forall p | p in c.successor ensures SuccGood(c, p, h) { assert SuccGood(b, p, h); }
    forall id | id in c.applied ensures AppliedGood(c, id) { assert AppliedGood(b, id); }
  }

  lemma RegisterRunGood(b: BridgeState, limits: Limits, h: Option<RunId>, spec: Spec, id: RunId)
    requires Sound(b, limits, h) && id in b.reg.objects
    ensures RunGood(Register(b, spec), limits, id)
  {
    hide RegistryInv, Live, SuccGood, AppliedGood;
    assert RunGood(b, limits, id);
  }

  // ---------------------------------------------------------------- retiring the predecessor

  /** Steps of the retirement: the label, and the handle. */
  predicate Handover(v: RunView, w: RunView, succ: RunId) {
    && w.id == v.id && w.resumedFrom == v.resumedFrom
    && (w.continuation == v.continuation || w.continuation.None?)
    && (w.worktree == v.worktree || w.worktree.None?)
    && (w.state == v.state || (v.state == NeedsInput && w.state == Superseded))
    && (w.resumedBy == v.resumedBy || w.resumedBy == Some(succ))
  }

  lemma HandoverSound(b: BridgeState, c: BridgeState, limits: Limits, pred: RunId, w: RunView)
    requires Sound(b, limits, Some(pred)) && pred in b.successor && pred in b.reg.objects
    requires c == b.(reg := c.reg) && c.reg.objects == b.reg.objects[pred := w] && c.reg.runs == b.reg.runs
    requires Handover(b.reg.objects[pred], w, b.successor[pred]) && Inv(w) && w.retiring == b.reg.objects[pred].retiring
    ensures Sound(c, limits, Some(pred))
  {
    hide RunGood, SuccGood, AppliedGood, RegistryInv, Live;
    HandoverLive(b, c, pred, w);
    forall id | id in c.reg.objects ensures RunGood(c, limits, id) { HandoverRunGood(b, c, limits, pred, w, id); }
    forall p | p in c.successor ensures SuccGood(c, p, Some(pred)) { HandoverSuccGood(b, c, limits, pred, w, p); }
    forall id | id in c.applied ensures AppliedGood(c, id) { HandoverAppliedGood(b, c, limits, pred, w, id); }
  }

  lemma HandoverLive(b: BridgeState, c: BridgeState, pred: RunId, w: RunView)
    requires RegistryInv(b.reg) && pred in b.reg.objects
    requires c.reg.objects == b.reg.objects[pred := w] && c.reg.runs == b.reg.runs && b.reg.objects[pred].id == w.id
    requires Inv(w) && w.retiring == b.reg.objects[pred].retiring
    requires w.state == b.reg.objects[pred].state || w.state == Superseded
    ensures RegistryInv(c.reg) && |Live(c.reg)| <= |Live(b.reg)|
  {
    assert Live(c.reg) <= Live(b.reg);
    SubsetSize(Live(c.reg), Live(b.reg));
  }

  lemma HandoverRunGood(b: BridgeState, c: BridgeState, limits: Limits, pred: RunId, w: RunView, id: RunId)
    requires Sound(b, limits, Some(pred)) && pred in b.successor && pred in b.reg.objects && id in c.reg.objects
    requires c == b.(reg := c.reg) && c.reg.objects == b.reg.objects[pred := w]
    requires Handover(b.reg.objects[pred], w, b.successor[pred])
    ensures id in c.admitted && RunGood(c, limits, id)
  {
    hide Sound;
    RunOf(b, limits, Some(pred), id);
  }

  lemma HandoverSuccGood(b: BridgeState, c: BridgeState, limits: Limits, pred: RunId, w: RunView, p: RunId)
    requires Sound(b, limits, Some(pred)) && pred in b.successor && pred in b.reg.objects && p in b.successor
    requires c == b.(reg := c.reg) && c.reg.objects == b.reg.objects[pred := w]
    requires Handover(b.reg.objects[pred], w, b.successor[pred])
    ensures SuccGood(c, p, Some(pred))
  {
    assert SuccGood(b, p, Some(pred));
  }

  lemma HandoverAppliedGood(b: BridgeState, c: BridgeState, limits: Limits, pred: RunId, w: RunView, id: RunId)
    requires Sound(b, limits, Some(pred)) && pred in b.reg.objects && id in b.applied
    requires c == b.(reg := c.reg) && c.reg.objects == b.reg.objects[pred := w]
    requires Handover(b.reg.objects[pred], w, if pred in b.successor then b.successor[pred] else 0)
    ensures AppliedGood(c, id)
  {
    assert AppliedGood(b, id);
  }

  lemma LabelSound(b: BridgeState, limits: Limits, pred: RunId, succ: RunId, now: int)
    requires Sound(b, limits, Some(pred)) && pred in b.successor && b.successor[pred] == succ && pred in b.reg.objects
    ensures var c := OnRun(b, pred, OpSupersede(succ, now));
            Sound(c, limits, Some(pred)) && c.reg.objects[pred].state != NeedsInput
  {
    hide Sound;
    var c := OnRun(b, pred, OpSupersede(succ, now));
    var w := Supersede(b.reg.objects[pred], succ, now).view;
    RunOf(b, limits, Some(pred), pred);
    assert c.reg.objects == b.reg.objects[pred := w];
    HandoverSound(b, c, limits, pred, w);
  }

  lemma TakenHandle(s: RegistryState, pred: RunId)
    requires pred in s.objects
    ensures Happen(s, RunEvent(pred, OpTakeWorktree))
         == s.(objects := s.objects[pred := s.objects[pred].(worktree := None)])
  {
  }

  lemma TakeHandleSound(b: BridgeState, limits: Limits, pred: RunId)
    requires Sound(b, limits, Some(pred)) && pred in b.successor && pred in b.reg.objects
    ensures var c := OnRun(b, pred, OpTakeWorktree);
            && Sound(c, limits, Some(pred))
            && c.reg.objects[pred] == b.reg.objects[pred].(worktree := None)
  {
    hide Sound;
    var w := b.reg.objects[pred].(worktree := None);
    TakenHandle(b.reg, pred);
    RunOf(b, limits, Some(pred), pred);
    HandoverSound(b, b.(reg := b.reg.(objects := b.reg.objects[pred := w])), limits, pred, w);
  }

  /** Once labelled or expired, and with its handle taken, a predecessor stays so. */
  predicate Inert(v: RunView) { (v.state == Superseded || v.state == Failed) && v.worktree.None? }

  lemma HandlePhase(b: BridgeState, limits: Limits, pred: RunId, es: seq<RunEvent>, es': seq<RunEvent>)
    requires Sound(b, limits, Some(pred)) && pred in b.successor && pred in b.reg.objects
    requires b.reg.objects[pred].state != NeedsInput && Natural(es) && Natural(es')
    ensures var c := Meanwhile(OnRun(Meanwhile(b, es), pred, OpTakeWorktree), es');
            Sound(c, limits, Some(pred)) && Inert(c.reg.objects[pred])
  {
    var h := Some(pred);
    assert SuccGood(b, pred, h);
    var a := Meanwhile(b, es);
    MeanwhileSound(b, limits, h, es);
    assert Kept(b.reg.objects[pred], a.reg.objects[pred]);
    TakeHandleSound(a, limits, pred);
    var d := OnRun(a, pred, OpTakeWorktree);
    assert Inert(d.reg.objects[pred]);
    MeanwhileSound(d, limits, h, es');
    assert Kept(d.reg.objects[pred], Meanwhile(d, es').reg.objects[pred]);
  }

  lemma StorePhase(b: BridgeState, limits: Limits, pred: RunId)
    requires Sound(b, limits, Some(pred)) && pred in b.reg.objects && Inert(b.reg.objects[pred])
    ensures Sound(CloseGate(Discard(b, pred), pred), limits, None)
  {
    var h := Some(pred);
    FewerEntriesSound(b, Discard(b, pred), limits, h);
    GatesSound(Discard(b, pred), CloseGate(Discard(b, pred), pred), limits, h);
    HandedOver(CloseGate(Discard(b, pred), pred), limits, pred);
  }

  lemma LabelPhase(b: BridgeState, limits: Limits, pred: RunId, succ: RunId, now: int, es: seq<RunEvent>)
    requires Sound(b, limits, Some(pred)) && pred in b.successor && b.successor[pred] == succ && pred in b.reg.objects
    requires Natural(es)
    ensures var c := OnRun(Meanwhile(b, es), pred, OpSupersede(succ, now));
            && Sound(c, limits, Some(pred)) && c.successor == b.successor
            && pred in c.reg.objects && c.reg.objects[pred].state != NeedsInput
  {
    MeanwhileSound(b, limits, Some(pred), es);
    LabelSound(Meanwhile(b, es), limits, pred, succ, now);
  }

  lemma RetireSound(b: BridgeState, limits: Limits, pred: RunId, succ: RunId, now: int, env: seq<seq<RunEvent>>)
    requires Sound(b, limits, Some(pred)) && pred in b.successor && b.successor[pred] == succ && NaturalAll(env)
    ensures Sound(RetirePredecessor(b, pred, succ, now, env), limits, None)
  {
    hide Sound, SuccGood, Meanwhile, OnRun, Discard, CloseGate;
    Handing(b, limits, pred);
    LabelPhase(b, limits, pred, succ, now, Between(env, 4));
    var d := OnRun(Meanwhile(b, Between(env, 4)), pred, OpSupersede(succ, now));
    RetireLabelled(d, limits, pred, Between(env, 5), Between(env, 6));
  }

  /** A predecessor being handed over is a run of the registry. */
  lemma Handing(b: BridgeState, limits: Limits, pred: RunId)
    requires Sound(b, limits, Some(pred)) && pred in b.successor
    ensures pred in b.reg.objects
  {
    hide RunGood, AppliedGood, RegistryInv, Live;
    assert SuccGood(b, pred, Some(pred));
  }

  lemma RetireLabelled(d: BridgeState, limits: Limits, pred: RunId, es: seq<RunEvent>, es': seq<RunEvent>)
    requires Sound(d, limits, Some(pred)) && pred in d.successor && pred in d.reg.objects
    requires d.reg.objects[pred].state != NeedsInput && Natural(es) && Natural(es')
    ensures var e := Meanwhile(OnRun(Meanwhile(d, es), pred, OpTakeWorktree), es');
      Sound(CloseGate(Discard(e, pred), pred), limits, None)
  {
    HandlePhase(d, limits, pred, es, es');
    StorePhase(Meanwhile(OnRun(Meanwhile(d, es), pred, OpTakeWorktree), es'), limits, pred);
  }

  lemma RetireFrame(b: BridgeState, pred: RunId, succ: RunId, now: int, env: seq<seq<RunEvent>>)
    ensures var c := RetirePredecessor(b, pred, succ, now, env);
            && c.reg.objects.Keys == b.reg.objects.Keys
            && c.successor == b.successor && c.admitted == b.admitted && c.applied == b.applied
            && c.store == b.store - {pred} && c.gates == b.gates - {pred}
  {
  }

  lemma HandedOver(c: BridgeState, limits: Limits, pred: RunId)
    requires Sound(c, limits, Some(pred)) && pred in c.reg.objects && Retired(c, pred)
    ensures Sound(c, limits, None)
  {
    forall p | p in c.successor ensures SuccGood(c, p, None) { assert SuccGood(c, p, Some(pred)); }
  }
}
