/** The registry as the code writes it: loops over the run map, with other
    goroutines moving runs between one step and the next. */
module RegistryObject {
  import opened Wrappers
  import opened RunLifecycle
  import opened Registry

  class RunRegistry {
    const maxLive: nat
    var objects: map<RunId, RunView>
    var runs: set<RunId>
    var events: seq<Event>

    function View(): RegistryState
      reads this
    {
      RegistryState(objects, runs, events)
    }

    constructor (maxLive: int)
      ensures View() == EmptyRegistry
      ensures this.maxLive == if maxLive <= 0 then 4 else maxLive
    {
      this.maxLive := if maxLive <= 0 then 4 else maxLive;
      objects, runs, events := map[], {}, [];
    }

    /** One critical section of one run, with its audit callback after it. */
    method Step(id: RunId, op: Op)
      modifies this
      ensures View() == Happen(old(View()), RunEvent(id, op))
    {
      if id in objects {
        var effect := Apply(objects[id], op);
        objects := objects[id := effect.view];
        if effect.event.Some? {
          events := events + [effect.event.value];
        }
      }
    }

    method Interfere(es: seq<RunEvent>)
      modifies this
      ensures View() == HappenAll(old(View()), es)
    {
      var i := 0;
      while i < |es|
        invariant i <= |es|
        invariant HappenAll(View(), es[i..]) == HappenAll(old(View()), es)
      {
        Step(es[i].run, es[i].op);
        assert es[i..][1..] == es[i + 1..];
        i := i + 1;
      }
    }

    method SweepExpired(order: seq<RunId>, now: int)
      modifies this
      ensures View() == HappenAll(old(View()), Sweep(order, now))
    {
      var i := 0;
      while i < |order|
        invariant i <= |order|
        invariant HappenAll(View(), Sweep(order[i..], now)) == HappenAll(old(View()), Sweep(order, now))
      {
        assert Sweep(order[i..], now)[1..] == Sweep(order[i..][1..], now);
        assert order[i..][1..] == order[i + 1..];
        Step(order[i], OpExpire(now));
        i := i + 1;
      }
      assert order[i..] == [];
    }

    method PruneLocked(cutoff: int)
      requires runs <= objects.Keys
      modifies this
      ensures View() == Prune(old(View()), cutoff)
    {
      var todo := runs;
      while todo != {}
        invariant objects == old(objects) && events == old(events)
        invariant todo <= runs <= old(runs)
        invariant forall id :: id in old(runs) - todo ==> (id in runs <==> !Outlived(objects[id], cutoff))
        decreases todo
      {
        var id :| id in todo;
        if Outlived(objects[id], cutoff) {
          runs := runs - {id};
        }
        todo := todo - {id};
      }
      assert runs == Prune(old(View()), cutoff).runs;
    }

    method LiveCountExcludingLocked(order: seq<RunId>, exclude: Option<RunId>, env: seq<seq<RunEvent>>) returns (n: nat)
      modifies this
      ensures CountLive(old(View()), order, exclude, env) == (View(), n)
    {
      n := 0;
      var i, left := 0, env;
      while i < |order|
        invariant i <= |order|
        invariant CountLive(View(), order[i..], exclude, left).0 == CountLive(old(View()), order, exclude, env).0
        invariant n + CountLive(View(), order[i..], exclude, left).1 == CountLive(old(View()), order, exclude, env).1
      {
        assert order[i..][1..] == order[i + 1..];
        Interfere(Between(left, 0));
        if exclude != Some(order[i]) && order[i] in objects && objects[order[i]].CountsAsLive() {
          n := n + 1;
        }
        left := if left == [] then [] else left[1..];
        i := i + 1;
      }
      assert order[i..] == [];
    }

    method Get(id: RunId, order: seq<RunId>, now: int, cutoff: int) returns (r: Option<RunView>)
      requires runs <= objects.Keys
      modifies this
      ensures View() == Prune(HappenAll(old(View()), Sweep(order, now)), cutoff)
      ensures r == if id in runs && id in objects then Some(objects[id]) else None
    {
      SweepExpired(order, now);
      PruneLocked(cutoff);
      r := if id in runs && id in objects then Some(objects[id]) else None;
    }

    /** The sweep is part of what happens before; this is the critical section. */
    method Start(spec: Spec, order: seq<RunId>, env: seq<seq<RunEvent>>) returns (r: Result<RunId, nat>)
      modifies this
      ensures Registry.Start(old(View()), maxLive, spec, order, env) == (View(), r)
    {
      var live := LiveCountExcludingLocked(order, spec.resumedFrom, env);
      if live >= maxLive {
        return Err(live);
      }
      var r0 := Fresh(spec.id, spec.confined, spec.worktree, Some(spec.continuation), spec.resumedFrom);
      objects := objects[spec.id := r0];
      runs := runs + {spec.id};
      if spec.resumedFrom.Some? && spec.resumedFrom.value in runs {
        Step(spec.resumedFrom.value, OpRetire);
      }
      return Ok(spec.id);
    }
  }
}
