/** What asking, collecting, accepting and reaping do, told from outside. */
module BridgeDecisions {
  import opened Wrappers
  import opened RunLifecycle
  import opened Registry
  import opened Bridge
  import opened BridgeLaws
  import opened BridgeOperations
  import opened BridgeHistory

  // ---------------------------------------------------------------- looking runs up

  /** Known are exactly the runs that were and that had not settled before the cutoff. */
  ghost predicate Recalled(s: RegistryState, t: RegistryState, cutoff: int) {
    forall id :: id in t.runs <==>
      id in s.runs && id in t.objects
      && !(t.objects[id].state.IsTerminal() && t.objects[id].finished.Some? && t.objects[id].finished.value < cutoff)
  }

  /** A lookup forgets what is past its retention, whoever asks and whatever comes of it. */
  lemma LookupsForget(b: BridgeState, limits: Limits, id: RunId, clean: bool, env: seq<RunEvent>, cutoff: int)
    requires BridgeInv(b, limits) && Natural(env)
    ensures Recalled(b.reg, Arrive(b, env, cutoff).reg, cutoff)
    ensures Recalled(b.reg, Accept(b, id, clean, env, cutoff).0.reg, cutoff)
    ensures Recalled(b.reg, AcceptChanges(b, id, clean, env, cutoff).0.reg, cutoff)
  {
    hide Sound, Live, Recalled, Arrive, RegistryInv, Accept, AcceptChanges;
    SoundRegistry(b, limits, None);
    NaturalKeeps(b.reg, env);
    LookForgets(b, env, cutoff);
    AcceptsLook(b, id, clean, env, cutoff);
  }

  lemma AcceptsLook(b: BridgeState, id: RunId, clean: bool, env: seq<RunEvent>, cutoff: int)
    ensures Accept(b, id, clean, env, cutoff).0.reg == Arrive(b, env, cutoff).reg
    ensures AcceptChanges(b, id, clean, env, cutoff).0.reg == Arrive(b, env, cutoff).reg
  {
    ApplyIsAllOrNothing(Arrive(b, env, cutoff), id, clean);
    hide Arrive, ApplyPatch;
  }

  lemma LookForgets(b: BridgeState, env: seq<RunEvent>, cutoff: int)
    requires RegistryInv(HappenAll(b.reg, env))
    ensures Recalled(b.reg, Arrive(b, env, cutoff).reg, cutoff)
  {
    var s := HappenAll(b.reg, env);
    forall id | id in s.runs { ForgetsExactly(s, cutoff, id); }
    assert Prune(s, cutoff).runs <= s.runs;
  }

  /** Collecting a settled run looks runs up as well, before it reaps. */
  lemma CollectForgets(b: BridgeState, limits: Limits, id: RunId, diff: Option<string>, env: seq<RunEvent>, cutoff: int)
    requires BridgeInv(b, limits) && Natural(env)
    requires id in b.reg.objects && b.reg.objects[id].state.IsTerminal() && b.reg.objects[id].state != Superseded
    ensures Recalled(b.reg, Collect(b, id, diff, env, cutoff).reg, cutoff)
  {
    SoundRegistry(b, limits, None);
    CollectsAll(b, id, diff, env, cutoff);
    var b0 := CloseGate(b, id);
    PickStores(b0, id, diff);
    hide Sound, Live, Collect, Picked, RegistryInv, Recalled, Arrive, Reap, Collected;
    PickKnows(b0, id, diff);
    var b2 := Picked(b0, id, diff);
    NaturalKeeps(b2.reg, env);
    LookForgets(b2, env, cutoff);
    ReapTells(Arrive(b2, env, cutoff), id);
    SameRecall(b0.reg, b2.reg, Arrive(b2, env, cutoff).reg, cutoff);
  }

  lemma SameRecall(s: RegistryState, s': RegistryState, t: RegistryState, cutoff: int)
    requires Recalled(s', t, cutoff) && s'.runs == s.runs
    ensures Recalled(s, t, cutoff)
  {
  }

  lemma PickKnows(b: BridgeState, id: RunId, diff: Option<string>)
    requires id in b.reg.objects
    ensures Picked(b, id, diff).reg.runs == b.reg.runs
  {
    hide Apply;
  }

  // ---------------------------------------------------------------- asking

  /** A refused request leaves what the passage of time alone would have left. */
  lemma RefusedAskIsNoOp(b: BridgeState, limits: Limits, a: Attempt, prompt: string, order: seq<RunId>,
                         env: seq<seq<RunEvent>>)
    returns (elapsed: seq<RunEvent>)
    requires BridgeInv(b, limits) && AskOk(b, a, order, env) && AskAgent(b, limits, a, prompt, order, env).1.Err?
    ensures Natural(elapsed) && (env == [] ==> elapsed == [])
    ensures AskAgent(b, limits, a, prompt, order, env).0 == Meanwhile(b, elapsed)
  {
    FreshId(b, limits, a.id);
    BuildFrame(b, a, prompt, None);
    hide Sound, BuildSpec, Start, Flat, CountLive;
    var (b1, spec) := BuildSpec(b, a, prompt, None);
    elapsed := [];
    if a.authorised && spec.Some? {
      LaunchShape(b1, limits, spec.value, order, env);
      CountingIsElapsing(b1.reg, order, None, env);
      elapsed := Flat(order, env);
      assert b1.gates - {a.id} == b.gates;
    }
  }

  // ---------------------------------------------------------------- collecting

  /** The entry a collection leaves, before reaping: the patch, none, or the old one. */
  function Collected(b: BridgeState, id: RunId, wt: Option<Worktree>, diff: Option<string>): Option<PendingChanges> {
    if wt.Some? && diff.Some? then (if diff.value == "" then None else Some(PendingChanges(wt.value, diff.value)))
    else if id in b.store then Some(b.store[id]) else None
  }

  /** A settled run is collected once: its gate is closed, its handle taken, and its patch
      is what is stored. */
  lemma CollectStoresThePatch(b: BridgeState, id: RunId, diff: Option<string>, env: seq<RunEvent>, cutoff: int)
    requires RegistryInv(b.reg) && Natural(env)
    requires id in b.reg.objects && b.reg.objects[id].state.IsTerminal() && b.reg.objects[id].state != Superseded
    ensures var c, e := Collect(b, id, diff, env, cutoff), Collected(b, id, b.reg.objects[id].worktree, diff);
      && id !in c.gates && c.gates == b.gates - {id}
      && id in c.reg.objects && c.reg.objects[id].worktree.None?
      && (e.None? ==> id !in c.store)
      && (e.Some? && e.value.patch != "" ==> id in c.store && c.store[id] == e.value)
  {
    var b0 := CloseGate(b, id);
    var b2 := Picked(b0, id, diff);
    PickStores(b0, id, diff);
    CollectsAll(b, id, diff, env, cutoff);
    hide Collect, Reap, Arrive, Picked, RegistryInv, Collected, CollectDiff;
    ArriveFrame(b2, env, cutoff);
    StillTaken(b2, id, env, cutoff);
    ReapTells(Arrive(b2, env, cutoff), id);
  }

  lemma CollectsAll(b: BridgeState, id: RunId, diff: Option<string>, env: seq<RunEvent>, cutoff: int)
    requires id in b.reg.objects && b.reg.objects[id].state.IsTerminal() && b.reg.objects[id].state != Superseded
    ensures Collect(b, id, diff, env, cutoff) == Reap(Arrive(Picked(CloseGate(b, id), id, diff), env, cutoff))
  {
    hide Reap, Arrive, CollectDiff;
  }

  lemma PickStores(b: BridgeState, id: RunId, diff: Option<string>)
    requires RegistryInv(b.reg) && id in b.reg.objects
    ensures var c, e := Picked(b, id, diff), Collected(b, id, b.reg.objects[id].worktree, diff);
      && RegistryInv(c.reg) && id in c.reg.objects && c.reg.objects[id].worktree.None? && c.gates == b.gates
      && (e.None? ==> id !in c.store)
      && (e.Some? ==> id in c.store && c.store[id] == e.value)
  {
    hide RegistryInv, Happen, CollectDiff;
    TakenHandle(b.reg, id);
    HappenFacts(b.reg, RunEvent(id, OpTakeWorktree));
    var wt, b1 := b.reg.objects[id].worktree, OnRun(b, id, OpTakeWorktree);
    if wt.Some? { DiffStores(b1, id, wt.value, diff); }
  }

  lemma DiffStores(b: BridgeState, id: RunId, wt: Worktree, diff: Option<string>)
    ensures var c, e := CollectDiff(b, id, wt, diff), Collected(b, id, Some(wt), diff);
      && c == b.(store := c.store)
      && (e.None? ==> id !in c.store)
      && (e.Some? ==> id in c.store && c.store[id] == e.value)
  {
  }

  lemma StillTaken(b: BridgeState, id: RunId, env: seq<RunEvent>, cutoff: int)
    requires RegistryInv(b.reg) && Natural(env) && id in b.reg.objects && b.reg.objects[id].worktree.None?
    ensures var c := Arrive(b, env, cutoff); id in c.reg.objects && c.reg.objects[id].worktree.None?
  {
    hide RegistryInv, Live;
    NaturalKeeps(b.reg, env);
    assert Kept(b.reg.objects[id], HappenAll(b.reg, env).objects[id]);
  }

  lemma ReapTells(b: BridgeState, id: RunId)
    ensures Reap(b) == b.(store := Reap(b).store)
    ensures id !in b.store ==> id !in Reap(b).store
    ensures id in b.store && b.store[id].patch != "" ==> id in Reap(b).store && Reap(b).store[id] == b.store[id]
  {
  }

  /** Collecting again, whatever git would say by then, leaves a stored patch alone. */
  lemma CollectsOnce(b: BridgeState, id: RunId, diff: Option<string>, env: seq<RunEvent>, cutoff: int)
    requires RegistryInv(b.reg) && Natural(env)
    requires id in b.reg.objects && b.reg.objects[id].worktree.None? && id in b.store && b.store[id].patch != ""
    ensures id in Collect(b, id, diff, env, cutoff).store && Collect(b, id, diff, env, cutoff).store[id] == b.store[id]
  {
    if b.reg.objects[id].state.IsTerminal() && b.reg.objects[id].state != Superseded {
      CollectStoresThePatch(b, id, diff, env, cutoff);
    }
  }

  /** Reaping never takes an entry that could still come to a decision: one with a patch,
      or of a run that is not settled, or that completed and may yet be collected. */
  lemma ReapSparesDecisions(b: BridgeState, id: RunId)
    requires id in b.store
    requires b.store[id].patch != "" || id !in b.reg.objects
          || !b.reg.objects[id].state.IsTerminal() || b.reg.objects[id].state == Completed
    ensures id in Reap(b).store && Reap(b).store[id] == b.store[id]
  {
  }

  /** No other run's diff, and no other gate, is touched by collecting one. */
  lemma CollectLeavesOthers(b: BridgeState, id: RunId, other: RunId, diff: Option<string>, env: seq<RunEvent>,
                            cutoff: int)
    requires other != id && other in b.store && b.store[other].patch != ""
    ensures var c := Collect(b, id, diff, env, cutoff);
      && other in c.store && c.store[other] == b.store[other]
      && (other in c.gates <==> other in b.gates) && c.applied == b.applied
  {
    CollectShape(b, id, diff, env, cutoff);
    hide Collect, Reap, Arrive, Picked, CloseGate;
    ClosesOneGate(b, id);
    if id in b.reg.objects {
      PickLeavesOthers(CloseGate(b, id), id, other, diff);
      ArriveFrame(Picked(CloseGate(b, id), id, diff), env, cutoff);
      ReapTells(Arrive(Picked(CloseGate(b, id), id, diff), env, cutoff), other);
    }
  }

  lemma ClosesOneGate(b: BridgeState, id: RunId)
    ensures CloseGate(b, id) == b.(gates := b.gates - {id})
  {
  }

  lemma ArriveFrame(b: BridgeState, env: seq<RunEvent>, cutoff: int)
    ensures Arrive(b, env, cutoff) == b.(reg := Arrive(b, env, cutoff).reg)
  {
  }

  lemma PickLeavesOthers(b: BridgeState, id: RunId, other: RunId, diff: Option<string>)
    requires other != id && id in b.reg.objects && other in b.store
    ensures var c := Picked(b, id, diff);
      && other in c.store && c.store[other] == b.store[other] && c.gates == b.gates && c.applied == b.applied
  {
    hide Happen;
  }

  /** Before a run has settled there is nothing to collect: at most its gate is closed, when
      it rests; and a superseded run has nothing of its own left. */
  lemma CollectsNothingElse(b: BridgeState, id: RunId, diff: Option<string>, env: seq<RunEvent>, cutoff: int)
    requires id in b.reg.objects ==> !b.reg.objects[id].state.IsTerminal() || b.reg.objects[id].state == Superseded
    ensures var c := Collect(b, id, diff, env, cutoff);
      && c == b.(gates := c.gates)
      && c.gates == (if id in b.reg.objects && b.reg.objects[id].state == NeedsInput then b.gates - {id} else b.gates)
  {
  }

  /** Reaping drops exactly the entries that never got a patch and never will: of runs still
      known that settled without completing. Everything else about the bridge stays. */
  lemma ReapsExactly(b: BridgeState, id: RunId)
    requires RegistryInv(b.reg) && id in b.store
    ensures id !in Reap(b).store <==>
      (id in b.reg.runs && b.store[id].patch == ""
       && b.reg.objects[id].state in {Failed, Cancelled, Refused, Superseded})
    ensures id in Reap(b).store ==> Reap(b).store[id] == b.store[id]
    ensures Reap(b) == b.(store := Reap(b).store) && Reap(b).store.Keys <= b.store.Keys
  {
  }

  /** A write run nobody collected, that failed or was cancelled: its entry goes with the next
      collection of any settled run, and a run that completed keeps its own. */
  lemma AbandonedGoes(b: BridgeState, id: RunId, other: RunId, diff: Option<string>, env: seq<RunEvent>, cutoff: int)
    requires RegistryInv(b.reg) && Natural(env) && other != id && id in b.store && b.store[id].patch == ""
    requires id in b.reg.objects && b.reg.objects[id].state.IsTerminal()
    requires other in b.reg.objects && b.reg.objects[other].state.IsTerminal()
          && b.reg.objects[other].state != Superseded
    requires id in Collect(b, other, diff, env, cutoff).reg.runs
    ensures id in Collect(b, other, diff, env, cutoff).store <==> b.reg.objects[id].state == Completed
  {
    var b0 := CloseGate(b, other);
    var b2 := Picked(b0, other, diff);
    CollectsAll(b, other, diff, env, cutoff);
    PickLeavesOthers(b0, other, id, diff);
    PickLeavesRun(b0, other, id, diff);
    LookKeepsState(b2, id, env, cutoff);
    ReapTells(Arrive(b2, env, cutoff), id);
    hide Collect, Reap, Arrive, Picked, Natural, RegistryInv;
    ReapsExactly(Arrive(b2, env, cutoff), id);
  }

  lemma PickLeavesRun(b: BridgeState, other: RunId, id: RunId, diff: Option<string>)
    requires RegistryInv(b.reg) && other in b.reg.objects && id in b.reg.objects && id != other
    ensures var c := Picked(b, other, diff);
      RegistryInv(c.reg) && id in c.reg.objects && c.reg.objects[id] == b.reg.objects[id]
  {
    TakenHandle(b.reg, other);
    HappenFacts(b.reg, RunEvent(other, OpTakeWorktree));
    hide Happen, RegistryInv, Live;
  }

  lemma LookKeepsState(b: BridgeState, id: RunId, env: seq<RunEvent>, cutoff: int)
    requires RegistryInv(b.reg) && Natural(env) && id in b.reg.objects && b.reg.objects[id].state.IsTerminal()
    ensures var c := Arrive(b, env, cutoff);
      && RegistryInv(c.reg) && c == b.(reg := c.reg)
      && id in c.reg.objects && c.reg.objects[id].state == b.reg.objects[id].state
  {
    NaturalKeeps(b.reg, env);
    assert Kept(b.reg.objects[id], HappenAll(b.reg, env).objects[id]);
  }

  // ---------------------------------------------------------------- deciding

  /** Rejecting drops the entry and nothing else, or says there was none. */
  lemma RejectsExactly(b: BridgeState, id: RunId)
    ensures Reject(b, id).1 == if id in b.store then Dropped else NothingPending
    ensures id !in Reject(b, id).0.store
    ensures Reject(b, id).0 == b.(store := Reject(b, id).0.store)
    ensures forall other :: other in b.store && other != id ==>
      other in Reject(b, id).0.store && Reject(b, id).0.store[other] == b.store[other]
    ensures Reject(b, id).0.store.Keys <= b.store.Keys
  {
  }

  /** All or nothing: the tree gets the patch and the entry goes, or neither. */
  predicate AllOrNothing(b: BridgeState, c: BridgeState, id: RunId, applied: bool) {
    && c == b.(reg := c.reg, store := c.store, applied := c.applied)
    && (applied ==> id in b.store && !Blank(b.store[id].patch)
                    && c.applied == b.applied + [id] && c.store == b.store - {id})
    && (!applied ==> c.applied == b.applied && c.store == b.store)
  }

  lemma ApplyIsAllOrNothing(b: BridgeState, id: RunId, clean: bool)
    ensures var (c, d) := ApplyPatch(b, id, clean); AllOrNothing(b, c, id, d.Applied?) && c.reg == b.reg
    ensures ApplyPatch(b, id, clean).1.Applied? <==> id in b.store && !Blank(b.store[id].patch) && clean
  {
  }

  lemma SupersededHasSuccessor(b: BridgeState, b1: BridgeState, limits: Limits, id: RunId)
    requires Sound(b, limits, None) && Sound(b1, limits, None) && b1.successor == b.successor && b1.store == b.store
    requires AllKept(b.reg, b1.reg) && id in b1.reg.objects && b1.reg.objects[id].state == Superseded
    ensures id !in b.store && b1.reg.objects[id].resumedBy.Some?
    ensures HasSuccessor(b, id, b1.reg.objects[id].resumedBy.value)
  {
    assert RunGood(b1, limits, id);
    SuccOf(b, limits, None, id);
    SuccOf(b1, limits, None, id);
  }

  /** What a lookup changes is which runs are known, not what they were. */
  lemma ArrivedFacts(b: BridgeState, limits: Limits, id: RunId, env: seq<RunEvent>, cutoff: int)
    requires Reachable(b, limits) && Natural(env)
    ensures var b1 := Arrive(b, env, cutoff);
      && b1 == b.(reg := b1.reg) && b1.reg.objects.Keys == b.reg.objects.Keys
      && (id in b.reg.objects ==> b1.reg.objects[id].confined == b.reg.objects[id].confined)
      && (id in b.reg.objects && b1.reg.objects[id].state == Superseded ==>
            && id !in b.store && b1.reg.objects[id].resumedBy.Some?
            && HasSuccessor(b, id, b1.reg.objects[id].resumedBy.value))
  {
    ReachableIsSound(b, limits);
    var b1 := Arrive(b, env, cutoff);
    ArriveSound(b, limits, env, cutoff);
    if id in b.reg.objects {
      assert Kept(b.reg.objects[id], b1.reg.objects[id]);
      if b1.reg.objects[id].state == Superseded { SupersededHasSuccessor(b, b1, limits, id); }
    }
  }

  /** The operator's accept writes exactly a real patch that applies cleanly: a superseded
      run has none left, and its refusal names the successor that has. */
  lemma AcceptExactly(b: BridgeState, limits: Limits, id: RunId, clean: bool, env: seq<RunEvent>, cutoff: int)
    requires Reachable(b, limits) && Natural(env)
    ensures var (c, d) := Accept(b, id, clean, env, cutoff);
      && AllOrNothing(b, c, id, d.Applied?)
      && (d.Applied? <==> id in b.store && !Blank(b.store[id].patch) && clean)
      && (d.DoesNotApply? <==> id in b.store && (Blank(b.store[id].patch) || !clean))
      && (id !in b.store ==> d.NothingPending? || d.Superseding?)
      && (d.Superseding? <==> id in c.reg.runs && id in c.reg.objects && c.reg.objects[id].state == Superseded)
      && (d.Superseding? ==> d.next.Some? && HasSuccessor(b, id, d.next.value))
  {
    ArrivedFacts(b, limits, id, env, cutoff);
    ApplyIsAllOrNothing(Arrive(b, env, cutoff), id, clean);
  }

  /** The model's accept does the same for known, confined runs only. */
  lemma AcceptChangesExactly(b: BridgeState, limits: Limits, id: RunId, clean: bool, env: seq<RunEvent>, cutoff: int)
    requires Reachable(b, limits) && Natural(env)
    ensures var (c, d) := AcceptChanges(b, id, clean, env, cutoff);
      && AllOrNothing(b, c, id, d.Applied?)
      && (d.Applied? <==> (id in c.reg.runs && id in b.reg.objects && b.reg.objects[id].confined
                            && id in b.store && !Blank(b.store[id].patch) && clean))
      && (d.Unknown? <==> id !in c.reg.runs || id !in b.reg.objects)
      && (d.NotConfined? ==> !b.reg.objects[id].confined)
      && (d.DoesNotApply? ==> id in b.store && (Blank(b.store[id].patch) || !clean))
      && (d.NothingPending? ==> id !in b.store) && !d.Dropped?
      && (d.Superseding? ==> d.next.Some? && HasSuccessor(b, id, d.next.value))
  {
    ArrivedFacts(b, limits, id, env, cutoff);
    ApplyIsAllOrNothing(Arrive(b, env, cutoff), id, clean);
  }
}
