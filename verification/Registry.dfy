/** The registry of runs: lookup, expiry sweep, retention and admission
    (internal/run/run.go, internal/run/exec.go). Run objects are kept by id in
    `objects`, which plays the Go heap and so outlives pruning; `runs` is the
    registry's own map, the ids it can still look up. */
module Registry {
  import opened Wrappers
  import opened RunLifecycle
  import RunFate

  /** A run moving on its own, from any goroutine that holds its lock. */
  datatype RunEvent = RunEvent(run: RunId, op: Op)

  datatype RegistryState = RegistryState(
    objects: map<RunId, RunView>,
    runs: set<RunId>,
    events: seq<Event>)

  /** What Start needs to know of a child. */
  datatype Spec = Spec(id: RunId, confined: bool, worktree: Option<Worktree>,
                       resumedFrom: Option<RunId>, continuation: ContinuationRecord)

  const EmptyRegistry := RegistryState(map[], {}, [])

  function Happen(s: RegistryState, e: RunEvent): (t: RegistryState)
    ensures t.objects.Keys == s.objects.Keys && t.runs == s.runs
  {
    if e.run !in s.objects then s
    else
      var effect := Apply(s.objects[e.run], e.op);
      s.(objects := s.objects[e.run := effect.view],
         events := if effect.event.Some? then s.events + [effect.event.value] else s.events)
  }

  function HappenAll(s: RegistryState, es: seq<RunEvent>): (t: RegistryState)
    ensures t.objects.Keys == s.objects.Keys && t.runs == s.runs
    decreases |es|
  {
    if es == [] then s else HappenAll(Happen(s, es[0]), es[1..])
  }

  predicate EventsOk(es: seq<RunEvent>) { forall i :: 0 <= i < |es| ==> OpOk(es[i].op) }

  /** What goroutine i of several did while we were between two steps. */
  function Between(env: seq<seq<RunEvent>>, i: nat): seq<RunEvent> {
    if i < |env| then env[i] else []
  }

  predicate EnvOk(env: seq<seq<RunEvent>>) { forall i :: 0 <= i < |env| ==> EventsOk(env[i]) }

  /** An order in which a map is ranged over. */
  predicate IterationOf(order: seq<RunId>, ids: set<RunId>) {
    && (forall i :: 0 <= i < |order| ==> order[i] in ids)
    && (forall id :: id in ids ==> id in order)
    && (forall i, j :: 0 <= i < j < |order| ==> order[i] != order[j])
  }

  /** The sweep is one expiry check per known run. */
  function Sweep(order: seq<RunId>, now: int): seq<RunEvent>
    decreases |order|
  {
    if order == [] then [] else [RunEvent(order[0], OpExpire(now))] + Sweep(order[1..], now)
  }

  predicate Outlived(v: RunView, cutoff: int) {
    v.state.IsTerminal() && v.finished.Some? && v.finished.value < cutoff
  }

  function Prune(s: RegistryState, cutoff: int): RegistryState {
    s.(runs := set id | id in s.runs && !(id in s.objects && Outlived(s.objects[id], cutoff)))
  }

  /** Counting run by run under each run's own lock, while the others move. */
  function CountLive(s: RegistryState, order: seq<RunId>, exclude: Option<RunId>, env: seq<seq<RunEvent>>)
    : (r: (RegistryState, nat))
    decreases |order|
  {
    if order == [] then (s, 0)
    else
      var s1 := HappenAll(s, Between(env, 0));
      var counts := exclude != Some(order[0]) && order[0] in s1.objects && s1.objects[order[0]].CountsAsLive();
      var one := if counts then 1 else 0;
      var rest := CountLive(s1, order[1..], exclude, if env == [] then [] else env[1..]);
      (rest.0, one + rest.1)
  }

  /** Insertion and the predecessor's retirement, one critical section. */
  function Admit(s: RegistryState, spec: Spec): RegistryState {
    var r := Fresh(spec.id, spec.confined, spec.worktree, Some(spec.continuation), spec.resumedFrom);
    var s1 := s.(objects := s.objects[spec.id := r], runs := s.runs + {spec.id});
    if spec.resumedFrom.Some? && spec.resumedFrom.value in s1.runs
    then Happen(s1, RunEvent(spec.resumedFrom.value, OpRetire))
    else s1
  }

  /** Err carries the live count that refused it. */
  function Start(s: RegistryState, maxLive: nat, spec: Spec, order: seq<RunId>, env: seq<seq<RunEvent>>)
    : (RegistryState, Result<RunId, nat>)
  {
    var counted := CountLive(s, order, spec.resumedFrom, env);
    if counted.1 >= maxLive then (counted.0, Err(counted.1))
    else (Admit(counted.0, spec), Ok(spec.id))
  }

  // ---------------------------------------------------------------- invariants

  predicate RegistryInv(s: RegistryState) {
    && s.runs <= s.objects.Keys
    && (forall id :: id in s.objects ==> Inv(s.objects[id]) && s.objects[id].id == id)
    && (forall id :: id in s.objects && !s.objects[id].state.IsTerminal() ==> id in s.runs)
  }

  function Live(s: RegistryState): set<RunId> {
    set id | id in s.objects && s.objects[id].CountsAsLive()
  }

  lemma SubsetSize(a: set<RunId>, b: set<RunId>)
    requires a <= b
    ensures |a| <= |b|
  {
    assert b == a + (b - a);
  }

  lemma HappenFacts(s: RegistryState, e: RunEvent)
    requires RegistryInv(s) && OpOk(e.op)
    ensures var t := Happen(s, e);
            && RegistryInv(t) && t.runs == s.runs && t.objects.Keys == s.objects.Keys && Live(t) <= Live(s)
  {
    if e.run in s.objects {
      StepKeepsInv(s.objects[e.run], e.op);
      TerminalStays(s.objects[e.run], e.op);
    }
  }

  lemma TerminalStays(v: RunView, op: Op)
    requires Inv(v) && OpOk(op)
    ensures v.state.IsTerminal() ==> Apply(v, op).view.state == v.state
    ensures v.retiring ==> Apply(v, op).view.retiring
    ensures Apply(v, op).view.id == v.id && Apply(v, op).view.resumedFrom == v.resumedFrom
  {
  }

  /** Liveness only falls while nobody is being admitted. */
  lemma {:induction false} HappenAllFacts(s: RegistryState, es: seq<RunEvent>)
    requires RegistryInv(s) && EventsOk(es)
    ensures var t := HappenAll(s, es);
            && RegistryInv(t) && t.runs == s.runs && t.objects.Keys == s.objects.Keys && Live(t) <= Live(s)
    decreases |es|
  {
    if es != [] {
      HappenFacts(s, es[0]);
      HappenAllFacts(Happen(s, es[0]), es[1..]);
    }
  }

  /** A sweep expires every run it visits exactly as one look at it would, however often it
      comes by, and touches no other. */
  lemma {:induction false} SweepIsOneLook(s: RegistryState, order: seq<RunId>, now: int, id: RunId)
    requires id in s.objects
    ensures HappenAll(s, Sweep(order, now)).objects[id]
         == (if id in order then Expire(s.objects[id], now).view else s.objects[id])
    decreases |order|
  {
    if order != [] {
      var e := RunEvent(order[0], OpExpire(now));
      assert Sweep(order, now)[1..] == Sweep(order[1..], now);
      SweepIsOneLook(Happen(s, e), order[1..], now, id);
      ExpiresOnce(s.objects[id], now);
    }
  }

  lemma ExpiresOnce(v: RunView, now: int)
    ensures !Due(Expire(v, now).view, now) && Expire(Expire(v, now).view, now).view == Expire(v, now).view
  {
  }

  // ---------------------------------------------------------------- a sweep among others

  /** The sweep's looks, with what other goroutines did before each of them. */
  function SweepAmong(order: seq<RunId>, now: int, env: seq<seq<RunEvent>>): seq<RunEvent>
    decreases |order|
  {
    if order == [] then []
    else
      Between(env, 0) + [RunEvent(order[0], OpExpire(now))]
      + SweepAmong(order[1..], now, if env == [] then [] else env[1..])
  }

  /** Nothing came to rest before the sweep looked at its clock. */
  predicate NotBefore(es: seq<RunEvent>, now: int) {
    forall i :: 0 <= i < |es| && es[i].op.OpNeedsInput? ==> es[i].op.now >= now
  }

  predicate NoneBefore(env: seq<seq<RunEvent>>, now: int) { forall i :: 0 <= i < |env| ==> NotBefore(env[i], now) }

  lemma NotDueStays(v: RunView, op: Op, now: int)
    requires Inv(v) && OpOk(op) && !Due(v, now) && (op.OpNeedsInput? ==> op.now >= now)
    ensures !Due(Apply(v, op).view, now)
  {
  }

  lemma NotDueHappens(s: RegistryState, e: RunEvent, now: int, id: RunId)
    requires id in s.objects && Inv(s.objects[id]) && !Due(s.objects[id], now)
    requires OpOk(e.op) && (e.op.OpNeedsInput? ==> e.op.now >= now)
    ensures !Due(Happen(s, e).objects[id], now)
  {
    hide Due, Apply;
    if e.run == id { NotDueStays(s.objects[id], e.op, now); }
  }

  lemma RunInv(s: RegistryState, id: RunId)
    requires RegistryInv(s) && id in s.objects
    ensures Inv(s.objects[id])
  {
  }

  lemma {:induction false} NotDueStaysAmong(s: RegistryState, es: seq<RunEvent>, now: int, id: RunId)
    requires RegistryInv(s) && EventsOk(es) && NotBefore(es, now) && id in s.objects && !Due(s.objects[id], now)
    ensures !Due(HappenAll(s, es).objects[id], now)
    decreases |es|
  {
    hide Live, Due, RegistryInv, Happen;
    if es != [] {
      RunInv(s, id);
      HappenFacts(s, es[0]);
      NotDueHappens(s, es[0], now, id);
      NotDueStaysAmong(Happen(s, es[0]), es[1..], now, id);
    }
  }

  lemma {:induction false} HappenInParts(s: RegistryState, a: seq<RunEvent>, b: seq<RunEvent>)
    ensures HappenAll(s, a + b) == HappenAll(HappenAll(s, a), b)
    decreases |a|
  {
    if a == [] {
      assert a + b == b;
    } else {
      assert (a + b)[1..] == a[1..] + b;
      HappenInParts(Happen(s, a[0]), a[1..], b);
    }
  }

  lemma {:induction false} SweepAmongIsNatural(order: seq<RunId>, now: int, env: seq<seq<RunEvent>>)
    requires EnvOk(env) && NoneBefore(env, now)
    ensures EventsOk(SweepAmong(order, now, env)) && NotBefore(SweepAmong(order, now, env), now)
    decreases |order|
  {
    if order != [] { SweepAmongIsNatural(order[1..], now, if env == [] then [] else env[1..]); }
  }

  /** However other goroutines move the runs between its looks, after the sweep no run that
      it visited is past its deadline by the sweep's clock. */
  lemma {:induction false} NothingIsDueAfterSweep(s: RegistryState, order: seq<RunId>, now: int,
                                                  env: seq<seq<RunEvent>>, id: RunId)
    requires RegistryInv(s) && EnvOk(env) && NoneBefore(env, now) && id in s.objects && id in order
    ensures !Due(HappenAll(s, SweepAmong(order, now, env)).objects[id], now)
    decreases |order|
  {
    var look, env' := RunEvent(order[0], OpExpire(now)), if env == [] then [] else env[1..];
    var s1 := HappenAll(s, Between(env, 0));
    var s2 := Happen(s1, look);
    EnvTail(env, now);
    hide RegistryInv, Live, Due, EnvOk, EventsOk, NoneBefore, NotBefore, Between, SweepAmong, HappenAll, Happen;
    FirstLook(s, order, now, env);
    HappenAllFacts(s, Between(env, 0));
    HappenFacts(s1, look);
    if id == order[0] {
      LookSettles(s1, id, now);
      SweepAmongIsNatural(order[1..], now, env');
      NotDueStaysAmong(s2, SweepAmong(order[1..], now, env'), now, id);
    } else {
      NothingIsDueAfterSweep(s2, order[1..], now, env', id);
    }
  }

  lemma EnvTail(env: seq<seq<RunEvent>>, now: int)
    requires EnvOk(env) && NoneBefore(env, now)
    ensures EventsOk(Between(env, 0))
    ensures var env' := if env == [] then [] else env[1..]; EnvOk(env') && NoneBefore(env', now)
  {
  }

  lemma LookSettles(s: RegistryState, id: RunId, now: int)
    requires id in s.objects
    ensures !Due(Happen(s, RunEvent(id, OpExpire(now))).objects[id], now)
  {
    ExpiresOnce(s.objects[id], now);
  }

  lemma FirstLook(s: RegistryState, order: seq<RunId>, now: int, env: seq<seq<RunEvent>>)
    requires order != []
    ensures HappenAll(s, SweepAmong(order, now, env))
         == HappenAll(Happen(HappenAll(s, Between(env, 0)), RunEvent(order[0], OpExpire(now))),
                      SweepAmong(order[1..], now, if env == [] then [] else env[1..]))
  {
    var look := RunEvent(order[0], OpExpire(now));
    var rest := SweepAmong(order[1..], now, if env == [] then [] else env[1..]);
    assert SweepAmong(order, now, env) == Between(env, 0) + ([look] + rest);
    assert ([look] + rest)[1..] == rest;
    HappenInParts(s, Between(env, 0), [look] + rest);
  }

  lemma {:induction false} CountFrame(s: RegistryState, order: seq<RunId>, exclude: Option<RunId>,
                                      env: seq<seq<RunEvent>>)
    requires RegistryInv(s) && EnvOk(env)
    ensures var t := CountLive(s, order, exclude, env).0;
            RegistryInv(t) && t.runs == s.runs && t.objects.Keys == s.objects.Keys && Live(t) <= Live(s)
    decreases |order|
  {
    if order != [] {
      HappenAllFacts(s, Between(env, 0));
      CountFrame(HappenAll(s, Between(env, 0)), order[1..], exclude, if env == [] then [] else env[1..]);
    }
  }

  /** Those of `order` that are live and not excused. */
  function Occupying(s: RegistryState, order: seq<RunId>, exclude: Option<RunId>): set<RunId> {
    set id | id in order && id in Live(s) && exclude != Some(id)
  }

  lemma OccupyingStep(s: RegistryState, order: seq<RunId>, exclude: Option<RunId>)
    requires order != []
    ensures |Occupying(s, order, exclude)|
         <= |Occupying(s, order[1..], exclude)| + if order[0] in Live(s) && exclude != Some(order[0]) then 1 else 0
  {
    var all, tail := Occupying(s, order, exclude), Occupying(s, order[1..], exclude);
    if order[0] in all {
      SubsetSize(all, tail + {order[0]});
    } else {
      SubsetSize(all, tail);
    }
  }

  /** The count is no snapshot, but it never comes out below what is live when it ends. */
  lemma {:induction false} CountNeverLow(s: RegistryState, order: seq<RunId>, exclude: Option<RunId>,
                                         env: seq<seq<RunEvent>>)
    requires RegistryInv(s) && EnvOk(env)
    ensures var r := CountLive(s, order, exclude, env);
            |Occupying(r.0, order, exclude)| <= r.1
    decreases |order|
  {
    var t := CountLive(s, order, exclude, env).0;
    if order == [] {
      assert Occupying(t, order, exclude) == {};
    } else {
      var env' := if env == [] then [] else env[1..];
      var s1 := HappenAll(s, Between(env, 0));
      HappenAllFacts(s, Between(env, 0));
      CountFrame(s1, order[1..], exclude, env');
      CountNeverLow(s1, order[1..], exclude, env');
      OccupyingStep(t, order, exclude);
    }
  }

  /** With nobody moving, the count is exactly the number of occupied slots, so a
      refusal then means there really is no room. */
  lemma {:induction false} CountExactWhenQuiet(s: RegistryState, order: seq<RunId>, exclude: Option<RunId>)
    requires forall i, j :: 0 <= i < j < |order| ==> order[i] != order[j]
    ensures CountLive(s, order, exclude, []) == (s, |Occupying(s, order, exclude)|)
    decreases |order|
  {
    if order == [] {
      assert Occupying(s, order, exclude) == {};
    } else {
      CountExactWhenQuiet(s, order[1..], exclude);
      OccupyingSplits(s, order, exclude);
      assert HappenAll(s, []) == s;
    }
  }

  lemma OccupyingSplits(s: RegistryState, order: seq<RunId>, exclude: Option<RunId>)
    requires order != [] && order[0] !in order[1..]
    ensures |Occupying(s, order, exclude)|
         == |Occupying(s, order[1..], exclude)| + (if order[0] in Live(s) && exclude != Some(order[0]) then 1 else 0)
  {
    var all, tail := Occupying(s, order, exclude), Occupying(s, order[1..], exclude);
    if order[0] in Live(s) && exclude != Some(order[0]) {
      assert all == tail + {order[0]} && order[0] !in tail;
    } else {
      assert all == tail;
    }
  }

  lemma AdmitInv(s: RegistryState, spec: Spec)
    requires RegistryInv(s) && spec.id !in s.objects
    ensures RegistryInv(Admit(s, spec))
  {
    assert Inv(Fresh(spec.id, spec.confined, spec.worktree, Some(spec.continuation), spec.resumedFrom));
  }

  /** A successor takes over its predecessor's room; anyone else needs room of their own. */
  lemma AdmitLive(s: RegistryState, spec: Spec, order: seq<RunId>)
    requires RegistryInv(s) && IterationOf(order, s.runs) && spec.id !in s.objects
    ensures RegistryInv(Admit(s, spec))
    ensures Live(Admit(s, spec)) <= Occupying(s, order, spec.resumedFrom) + {spec.id}
  {
    AdmitInv(s, spec);
    var t := Admit(s, spec);
    forall id | id in Live(t) && id != spec.id ensures id in Occupying(s, order, spec.resumedFrom) {
      LiveBefore(s, spec, id);
    }
  }

  /** Who else is live was live before, and is not the predecessor. */
  lemma LiveBefore(s: RegistryState, spec: Spec, id: RunId)
    requires RegistryInv(s) && spec.id !in s.objects && id in Live(Admit(s, spec)) && id != spec.id
    ensures id in Live(s) && id in s.runs && spec.resumedFrom != Some(id)
  {
  }

  /** The cap holds across one admission, whatever moves while it counts. */
  lemma StartKeepsCap(s: RegistryState, maxLive: nat, spec: Spec, order: seq<RunId>, env: seq<seq<RunEvent>>)
    requires RegistryInv(s) && EnvOk(env) && IterationOf(order, s.runs) && spec.id !in s.objects
    requires |Live(s)| <= maxLive
    ensures var r := Start(s, maxLive, spec, order, env);
            && RegistryInv(r.0) && |Live(r.0)| <= maxLive
            && (r.1.Err? ==> r.1.error >= maxLive && r.0.runs == s.runs && r.0.objects.Keys == s.objects.Keys)
  {
    var counted := CountLive(s, order, spec.resumedFrom, env);
    CountFrame(s, order, spec.resumedFrom, env);
    if counted.1 >= maxLive {
      SubsetSize(Live(counted.0), Live(s));
    } else {
      CountNeverLow(s, order, spec.resumedFrom, env);
      AdmitLive(counted.0, spec, order);
      SubsetSize(Live(Admit(counted.0, spec)), Occupying(counted.0, order, spec.resumedFrom) + {spec.id});
    }
  }

  // ---------------------------------------------------------------- who is admitted, who is forgotten

  /** A run nothing has happened to yet, and what it was given. */
  predicate IsNew(v: RunView, spec: Spec) {
    && v.state == Running && !v.retiring && !v.doneClosed && !v.awaited && v.finished.None?
    && v.pending.None? && v.verdict.None? && v.lastQuestion.None? && v.deadline.None? && v.resumedBy.None?
    && v.report == Report("", "", "", None, false)
    && v.id == spec.id && v.confined == spec.confined && v.resumedFrom == spec.resumedFrom
    && v.worktree == spec.worktree && v.continuation == Some(spec.continuation)
  }

  /** t has one run more than c: a new one, its predecessor retiring if it is still known. */
  predicate Gains(c: RegistryState, t: RegistryState, spec: Spec) {
    && t.runs == c.runs + {spec.id} && t.objects.Keys == c.objects.Keys + {spec.id} && t.events == c.events
    && IsNew(t.objects[spec.id], spec)
    && forall id :: id in c.objects ==>
         t.objects[id] == if spec.resumedFrom == Some(id) && id in c.runs then c.objects[id].(retiring := true)
                          else c.objects[id]
  }

  lemma AdmitGains(c: RegistryState, spec: Spec)
    requires spec.id !in c.objects && spec.resumedFrom != Some(spec.id) && c.runs <= c.objects.Keys
    ensures Gains(c, Admit(c, spec), spec)
  {
    NewRun(spec);
    hide IsNew, Fresh;
  }

  lemma NewRun(spec: Spec)
    ensures IsNew(Fresh(spec.id, spec.confined, spec.worktree, Some(spec.continuation), spec.resumedFrom), spec)
  {
  }

  /** An admission brings in exactly one run, new and with everything its spec held for it;
      nobody else is touched, whatever moved during the count, but a predecessor retired. */
  lemma AdmittedIsNew(s: RegistryState, maxLive: nat, spec: Spec, order: seq<RunId>, env: seq<seq<RunEvent>>)
    requires RegistryInv(s) && EnvOk(env) && spec.id !in s.objects && spec.resumedFrom != Some(spec.id)
    requires Start(s, maxLive, spec, order, env).1.Ok?
    ensures var c, t := CountLive(s, order, spec.resumedFrom, env).0, Start(s, maxLive, spec, order, env).0;
      c.runs == s.runs && c.objects.Keys == s.objects.Keys && Gains(c, t, spec)
  {
    CountFrame(s, order, spec.resumedFrom, env);
    AdmitGains(CountLive(s, order, spec.resumedFrom, env).0, spec);
    hide Live, CountLive, Gains, Admit;
  }

  /** Looking runs up forgets exactly those that settled before the cutoff. */
  lemma ForgetsExactly(s: RegistryState, cutoff: int, id: RunId)
    requires RegistryInv(s) && id in s.runs
    ensures id in s.objects
    ensures var v := s.objects[id];
      id !in Prune(s, cutoff).runs <==> v.state.IsTerminal() && v.finished.Some? && v.finished.value < cutoff
    ensures Prune(s, cutoff) == s.(runs := Prune(s, cutoff).runs) && Prune(s, cutoff).runs <= s.runs
  {
  }

  /** So a run that ended in an exit is found for as long as its end is not too far back,
      whatever was done with it since. */
  lemma FoundAfterItsEnd(s: RegistryState, id: RunId, v: RunView, before: seq<Op>, x: Exit, now: int, after: seq<Op>,
                         cutoff: int)
    requires RegistryInv(s) && id in s.runs && Inv(v) && v.state == Running
    requires RunFate.Undecided(before) && ExitState(x.state) && OpsOk(after)
    requires s.objects[id] == Run(v, before + [OpFinish(x, now)] + after)
    ensures id in Prune(s, cutoff).runs <==> cutoff <= now
  {
    RunFate.FirstExitDecides(v, before, x, now, after);
    ForgetsExactly(s, cutoff, id);
  }

  // ---------------------------------------------------------------- every history

  datatype RegistryOp =
    | Moves(event: RunEvent)
    | Prunes(cutoff: int)
    | Starts(spec: Spec, order: seq<RunId>, env: seq<seq<RunEvent>>)

  predicate CanDo(s: RegistryState, op: RegistryOp) {
    match op
    case Moves(e) => OpOk(e.op)
    case Prunes(_) => true
    case Starts(spec, order, env) => EnvOk(env) && IterationOf(order, s.runs) && spec.id !in s.objects
  }

  function Do(s: RegistryState, maxLive: nat, op: RegistryOp): RegistryState {
    match op
    case Moves(e) => Happen(s, e)
    case Prunes(cutoff) => Prune(s, cutoff)
    case Starts(spec, order, env) => Start(s, maxLive, spec, order, env).0
  }

  predicate History(s: RegistryState, maxLive: nat, ops: seq<RegistryOp>)
    decreases |ops|
  {
    ops == [] || (CanDo(s, ops[0]) && History(Do(s, maxLive, ops[0]), maxLive, ops[1..]))
  }

  function DoAll(s: RegistryState, maxLive: nat, ops: seq<RegistryOp>): RegistryState
    decreases |ops|
  {
    if ops == [] then s else DoAll(Do(s, maxLive, ops[0]), maxLive, ops[1..])
  }

  lemma {:induction false} CapKept(s: RegistryState, maxLive: nat, ops: seq<RegistryOp>)
    requires RegistryInv(s) && |Live(s)| <= maxLive && History(s, maxLive, ops)
    ensures RegistryInv(DoAll(s, maxLive, ops)) && |Live(DoAll(s, maxLive, ops))| <= maxLive
    decreases |ops|
  {
    if ops != [] {
      match ops[0] {
        case Moves(e) =>
          HappenFacts(s, e);
          SubsetSize(Live(Happen(s, e)), Live(s));
        case Prunes(cutoff) => assert Live(Prune(s, cutoff)) == Live(s);
        case Starts(spec, order, env) => StartKeepsCap(s, maxLive, spec, order, env);
      }
      CapKept(Do(s, maxLive, ops[0]), maxLive, ops[1..]);
    }
  }

  /** After any history of admissions, prunings and run transitions, and at every
      point inside the next admission's count, at most maxLive runs hold a slot. */
  lemma ConcurrencyCap(maxLive: nat, ops: seq<RegistryOp>, during: seq<RunEvent>)
    requires History(EmptyRegistry, maxLive, ops) && EventsOk(during)
    ensures |Live(HappenAll(DoAll(EmptyRegistry, maxLive, ops), during))| <= maxLive
  {
    assert Live(EmptyRegistry) == {};
    CapKept(EmptyRegistry, maxLive, ops);
    var s := DoAll(EmptyRegistry, maxLive, ops);
    HappenAllFacts(s, during);
    SubsetSize(Live(HappenAll(s, during)), Live(s));
  }
}
