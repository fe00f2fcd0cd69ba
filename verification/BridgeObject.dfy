/** The bridge as the code writes it: a registry, a store of pending diffs and a map
    of gates, changed step by step with early returns on every refusal. */
module BridgeObject {
  import opened Wrappers
  import opened RunLifecycle
  import opened Registry
  import opened RegistryObject
  import opened Bridge

  class ChangeStore {
    var m: map<RunId, PendingChanges>

    constructor ()
      ensures m == map[]
    {
      m := map[];
    }

    method Put(id: RunId, p: PendingChanges)
      modifies this
      ensures m == old(m)[id := p]
    {
      m := m[id := p];
    }

    method Get(id: RunId) returns (p: Option<PendingChanges>)
      ensures p == if id in m then Some(m[id]) else None
    {
      p := if id in m then Some(m[id]) else None;
    }

    method Discard(id: RunId)
      modifies this
      ensures m == old(m) - {id}
    {
      m := m - {id};
    }
  }

  class BridgeServer {
    const reg: RunRegistry
    const changes: ChangeStore
    const maxContinuations: nat
    var gates: set<RunId>
    ghost var admitted: map<RunId, ContinuationRecord>
    ghost var successor: map<RunId, RunId>
    ghost var applied: seq<RunId>

    ghost function View(): BridgeState
      reads this, reg, changes
    {
      BridgeState(reg.View(), changes.m, gates, admitted, successor, applied)
    }

    function Bounds(): Limits { Limits(reg.maxLive, maxContinuations) }

    constructor (maxLive: int, maxContinuations: nat)
      ensures View() == EmptyBridge && fresh(reg) && fresh(changes)
      ensures Bounds() == Limits(if maxLive <= 0 then 4 else maxLive, maxContinuations)
    {
      reg := new RunRegistry(maxLive);
      changes := new ChangeStore();
      this.maxContinuations := maxContinuations;
      gates, admitted, successor, applied := {}, map[], map[], [];
    }

    /** Get and List sweep first, among whatever else happens, and then prune. */
    method Arriving(es: seq<RunEvent>, cutoff: int)
      requires reg.runs <= reg.objects.Keys
      modifies reg
      ensures View() == Arrive(old(View()), es, cutoff)
    {
      reg.Interfere(es);
      reg.PruneLocked(cutoff);
    }

    method BuildingSpec(a: Attempt, prompt: string, seed: Option<Seed>) returns (spec: Option<Spec>)
      modifies this`gates
      ensures (View(), spec) == BuildSpec(old(View()), a, prompt, seed)
    {
      if a.wantsGate {
        if !a.gateStarts {
          return None;
        }
        gates := gates + {a.id};
      }
      var confinedWrite := a.mode == Write && a.confined;
      var wt: Option<Worktree> := None;
      if a.argsBuild && confinedWrite {
        if seed.None? {
          wt := a.checkout(None);
        } else if seed.value.predWorktree.Some? {
          wt := a.checkout(seed.value.predWorktree);
        }
      }
      if !a.argsBuild || (confinedWrite && wt.None?) {
        if a.wantsGate {
          gates := gates - {a.id};
        }
        return None;
      }
      return Some(Spec(a.id, a.confined, wt,
                       if seed.Some? then Some(seed.value.pred) else None, RecordFor(a, prompt, seed)));
    }

    method Launching(spec: Spec, order: seq<RunId>, env: seq<seq<RunEvent>>) returns (r: Result<RunId, nat>)
      modifies this`admitted, this`successor, reg
      ensures (View(), r) == Launch(old(View()), Bounds(), spec, order, env)
    {
      r := reg.Start(spec, order, env);
      if r.Ok? {
        admitted := admitted[spec.id := spec.continuation];
        successor := if spec.resumedFrom.Some? then successor[spec.resumedFrom.value := spec.id] else successor;
      }
    }

    method Asking(a: Attempt, prompt: string, order: seq<RunId>, env: seq<seq<RunEvent>>)
      returns (r: Result<RunId, Refusal>)
      modifies this, reg, changes
      ensures (View(), r) == AskAgent(old(View()), Bounds(), a, prompt, order, env)
    {
      if !a.authorised {
        return Err(NotAuthorised);
      }
      var spec := BuildingSpec(a, prompt, None);
      if spec.None? {
        return Err(SpecFailed);
      }
      var started := Launching(spec.value, order, env);
      if started.Err? {
        gates := gates - {a.id};
        return Err(NoSlot(started.error));
      }
      if spec.value.worktree.Some? {
        changes.Put(spec.value.id, PendingChanges(spec.value.worktree.value, ""));
      }
      return Ok(started.value);
    }

    method Retiring(pred: RunId, succ: RunId, now: int, env: seq<seq<RunEvent>>)
      modifies this`gates, reg, changes
      ensures View() == RetirePredecessor(old(View()), pred, succ, now, env)
    {
      reg.Interfere(Between(env, 4));
      reg.Step(pred, OpSupersede(succ, now));
      reg.Interfere(Between(env, 5));
      reg.Step(pred, OpTakeWorktree);
      reg.Interfere(Between(env, 6));
      changes.Discard(pred);
      gates := gates - {pred};
    }

    method Committing(seed: Seed, taken: ContinuationRecord, t: Turn) returns (r: Result<RunId, Refusal>)
      modifies this, reg, changes
      ensures (View(), r) == Commit(old(View()), Bounds(), seed, taken, t)
    {
      if !t.attempt.authorised {
        reg.Step(seed.pred, OpSetContinuation(taken));
        return Err(NotAuthorised);
      }
      var spec := BuildingSpec(t.attempt, taken.prompt, Some(seed));
      if spec.None? {
        reg.Step(seed.pred, OpSetContinuation(taken));
        return Err(SpecFailed);
      }
      reg.Interfere(Between(t.env, 3));
      var started := Launching(spec.value, t.order, t.countEnv);
      if started.Err? {
        reg.Step(seed.pred, OpSetContinuation(taken));
        gates := gates - {t.attempt.id};
        return Err(NoSlot(started.error));
      }
      if spec.value.worktree.Some? {
        changes.Put(spec.value.id, PendingChanges(spec.value.worktree.value, ""));
      }
      Retiring(seed.pred, started.value, t.now, t.env);
      return Ok(started.value);
    }

    /** The whole transaction: every refusal gives the record back. */
    method ContinueRun(pred: RunId, answer: string, t: Turn) returns (r: Result<RunId, Refusal>)
      requires reg.runs <= reg.objects.Keys
      modifies this, reg, changes
      ensures (View(), r) == Continue(old(View()), Bounds(), pred, answer, t)
    {
      Arriving(Between(t.env, 0), t.cutoff);
      if pred !in reg.runs {
        return Err(NoSuchRun);
      }
      reg.Interfere(Between(t.env, 1));
      var refused := TakeRefusal(reg.objects[pred]);
      if refused.Some? {
        return Err(NotContinuable(refused.value));
      }
      var rec := reg.objects[pred].continuation.value;
      reg.Step(pred, OpTakeContinuation);
      r := Proceeding(pred, answer, rec, t);
    }

    method Proceeding(pred: RunId, answer: string, rec: ContinuationRecord, t: Turn) returns (r: Result<RunId, Refusal>)
      requires pred in reg.objects
      modifies this, reg, changes
      ensures (View(), r) == Proceed(old(View()), Bounds(), pred, answer, rec, t)
    {
      if !DepthAllowed(rec, maxContinuations) {
        reg.Step(pred, OpSetContinuation(rec));
        return Err(ChainTooDeep);
      }
      if rec.mode == Write && !rec.confined {
        reg.Step(pred, OpSetContinuation(rec));
        return Err(Unconfined);
      }
      reg.Interfere(Between(t.env, 2));
      r := Resuming(pred, answer, rec, t);
    }

    method Resuming(pred: RunId, answer: string, rec: ContinuationRecord, t: Turn) returns (r: Result<RunId, Refusal>)
      requires pred in reg.objects
      modifies this, reg, changes
      ensures (View(), r) == Resume(old(View()), Bounds(), pred, answer, rec, t)
    {
      hide Commit, ShownQuestion;
      var question := ShownQuestion(reg.objects[pred]);
      if question.None? {
        reg.Step(pred, OpSetContinuation(rec));
        return Err(NoQuestionRecorded);
      }
      var predWorktree: Option<Worktree> := None;
      if rec.mode == Write && rec.confined {
        var p := changes.Get(pred);
        if p.None? {
          reg.Step(pred, OpSetContinuation(rec));
          return Err(NoWorkspace);
        }
        predWorktree := Some(p.value.wt);
      }
      var next := rec.(turns := rec.turns + [QATurn(question.value, answer)], depth := rec.depth + 1);
      r := Committing(Seed(pred, next, predWorktree), rec, t);
    }

    method CollectingDiff(id: RunId, wt: Worktree, diff: Option<string>)
      modifies changes
      ensures View() == CollectDiff(old(View()), id, wt, diff)
    {
      if diff.None? {
        return;
      }
      if diff.value == "" {
        changes.Discard(id);
        return;
      }
      changes.Put(id, PendingChanges(wt, diff.value));
    }

    method Reaping()
      requires reg.runs <= reg.objects.Keys
      modifies changes
      ensures View() == Reap(old(View()))
    {
      var todo := reg.runs;
      ghost var b := View();
      while todo != {}
        invariant todo <= reg.runs && reg.View() == old(reg.View())
        invariant forall id :: id in changes.m <==> id in old(changes.m) && (id in todo || !Abandoned(b, id))
        invariant forall id :: id in changes.m ==> changes.m[id] == old(changes.m)[id]
        decreases todo
      {
        var id :| id in todo;
        var s := reg.objects[id];
        if s.state.IsTerminal() {
          var p := changes.Get(id);
          if p.Some? && p.value.patch == "" && s.state != Completed {
            changes.Discard(id);
          }
        }
        todo := todo - {id};
      }
      assert changes.m == Reap(b).store;
    }

    /** await_agent after its wait. */
    method Collecting(id: RunId, diff: Option<string>, es: seq<RunEvent>, cutoff: int)
      requires reg.runs <= reg.objects.Keys && id in reg.objects
      modifies this, reg, changes
      ensures View() == Collect(old(View()), id, diff, es, cutoff)
    {
      var s := reg.objects[id];
      if s.state == Superseded {
        return;
      }
      if s.state == NeedsInput {
        gates := gates - {id};
        return;
      }
      if !s.state.IsTerminal() {
        return;
      }
      gates := gates - {id};
      reg.Step(id, OpTakeWorktree);
      if s.worktree.Some? {
        CollectingDiff(id, s.worktree.value, diff);
      }
      Arriving(es, cutoff);
      Reaping();
    }

    method Applying(id: RunId, clean: bool) returns (d: Decision)
      modifies this, changes
      ensures (View(), d) == ApplyPatch(old(View()), id, clean)
    {
      var p := changes.Get(id);
      if p.None? {
        return NothingPending;
      }
      if Blank(p.value.patch) || !clean {
        return DoesNotApply;
      }
      applied := applied + [id];
      changes.Discard(id);
      return Applied;
    }

    method AcceptFromOperator(id: RunId, clean: bool, es: seq<RunEvent>, cutoff: int) returns (d: Decision)
      requires reg.runs <= reg.objects.Keys
      modifies this, reg, changes
      ensures (View(), d) == Accept(old(View()), id, clean, es, cutoff)
    {
      Arriving(es, cutoff);
      if id in reg.runs && reg.objects[id].state == Superseded {
        return Superseding(reg.objects[id].resumedBy);
      }
      d := Applying(id, clean);
    }

    method AcceptFromAgent(id: RunId, clean: bool, es: seq<RunEvent>, cutoff: int) returns (d: Decision)
      requires reg.runs <= reg.objects.Keys
      modifies this, reg, changes
      ensures (View(), d) == AcceptChanges(old(View()), id, clean, es, cutoff)
    {
      Arriving(es, cutoff);
      if id !in reg.runs {
        return Unknown;
      }
      if reg.objects[id].state == Superseded {
        return Superseding(reg.objects[id].resumedBy);
      }
      if !reg.objects[id].confined {
        return NotConfined;
      }
      d := Applying(id, clean);
    }

    method Rejecting(id: RunId) returns (d: Decision)
      modifies changes
      ensures (View(), d) == Reject(old(View()), id)
    {
      var p := changes.Get(id);
      if p.None? {
        return NothingPending;
      }
      changes.Discard(id);
      return Dropped;
    }
  }
}
