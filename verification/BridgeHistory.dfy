/** Whole histories of the bridge: chains are linear and bounded, a continued run
    owns nothing, and at most one patch per chain is ever applied. */
module BridgeHistory {
  import opened Wrappers
  import opened RunLifecycle
  import opened Registry
  import opened Bridge
  import opened BridgeLaws
  import opened BridgeOperations

  datatype BridgeOp =
    | RunsMove(es: seq<RunEvent>)
    | Looks(es: seq<RunEvent>, cutoff: int)
    | Asks(a: Attempt, prompt: string, order: seq<RunId>, env: seq<seq<RunEvent>>)
    | Continues(pred: RunId, answer: string, turn: Turn)
    | Collects(id: RunId, diff: Option<string>, es: seq<RunEvent>, cutoff: int)
    | Accepts(id: RunId, clean: bool, es: seq<RunEvent>, cutoff: int)
    | AgentAccepts(id: RunId, clean: bool, es: seq<RunEvent>, cutoff: int)
    | Rejects(id: RunId)

  predicate CanBe(b: BridgeState, op: BridgeOp) {
    match op
    case RunsMove(es) => Natural(es)
    case Looks(es, _) => Natural(es)
    case Asks(a, _, order, env) => AskOk(b, a, order, env)
    case Continues(_, _, turn) => TurnOk(b, turn)
    case Collects(_, _, es, _) => Natural(es)
    case Accepts(_, _, es, _) => Natural(es)
    case AgentAccepts(_, _, es, _) => Natural(es)
    case Rejects(_) => true
  }

  function After(b: BridgeState, limits: Limits, op: BridgeOp): BridgeState {
    match op
    case RunsMove(es) => Meanwhile(b, es)
    case Looks(es, cutoff) => Arrive(b, es, cutoff)
    case Asks(a, prompt, order, env) => AskAgent(b, limits, a, prompt, order, env).0
    case Continues(pred, answer, turn) => Continue(b, limits, pred, answer, turn).0
    case Collects(id, diff, es, cutoff) => Collect(b, id, diff, es, cutoff)
    case Accepts(id, clean, es, cutoff) => Accept(b, id, clean, es, cutoff).0
    case AgentAccepts(id, clean, es, cutoff) => AcceptChanges(b, id, clean, es, cutoff).0
    case Rejects(id) => Reject(b, id).0
  }

  predicate Possible(b: BridgeState, limits: Limits, ops: seq<BridgeOp>)
    decreases |ops|
  {
    ops == [] || (CanBe(b, ops[0]) && Possible(After(b, limits, ops[0]), limits, ops[1..]))
  }

  function AfterAll(b: BridgeState, limits: Limits, ops: seq<BridgeOp>): BridgeState
    decreases |ops|
  {
    if ops == [] then b else AfterAll(After(b, limits, ops[0]), limits, ops[1..])
  }

  lemma OpKeeps(b: BridgeState, limits: Limits, op: BridgeOp)
    requires BridgeInv(b, limits) && CanBe(b, op)
    ensures BridgeInv(After(b, limits, op), limits)
  {
    match op
    case RunsMove(es) => MeanwhileSound(b, limits, None, es);
    case Looks(es, cutoff) => ArriveSound(b, limits, es, cutoff);
    case Asks(a, prompt, order, env) => AskKeeps(b, limits, a, prompt, order, env);
    case Continues(pred, answer, turn) => ContinueKeeps(b, limits, pred, answer, turn);
    case Collects(id, diff, es, cutoff) => CollectKeeps(b, limits, id, diff, es, cutoff);
    case Accepts(id, clean, es, cutoff) => AcceptKeeps(b, limits, id, clean, es, cutoff);
    case AgentAccepts(id, clean, es, cutoff) => AcceptChangesKeeps(b, limits, id, clean, es, cutoff);
    case Rejects(id) => RejectKeeps(b, limits, id);
  }

  lemma {:induction false} HistoryKeeps(b: BridgeState, limits: Limits, ops: seq<BridgeOp>)
    requires BridgeInv(b, limits) && Possible(b, limits, ops)
    ensures BridgeInv(AfterAll(b, limits, ops), limits)
    decreases |ops|
  {
    if ops != [] {
      OpKeeps(b, limits, ops[0]);
      HistoryKeeps(After(b, limits, ops[0]), limits, ops[1..]);
    }
  }

  lemma EmptyIsSound(limits: Limits)
    ensures BridgeInv(EmptyBridge, limits)
  {
    assert Live(EmptyRegistry) == {};
  }

  /** The state after a history that began with nothing. */
  ghost predicate Reachable(b: BridgeState, limits: Limits) {
    exists ops :: Possible(EmptyBridge, limits, ops) && b == AfterAll(EmptyBridge, limits, ops)
  }

  lemma {:induction false} OneMoreOp(b: BridgeState, limits: Limits, ops: seq<BridgeOp>, op: BridgeOp)
    requires Possible(b, limits, ops) && CanBe(AfterAll(b, limits, ops), op)
    ensures Possible(b, limits, ops + [op])
    ensures AfterAll(b, limits, ops + [op]) == After(AfterAll(b, limits, ops), limits, op)
    decreases |ops|
  {
    if ops == [] {
      assert [op][1..] == [];
    } else {
      assert (ops + [op])[1..] == ops[1..] + [op];
      OneMoreOp(After(b, limits, ops[0]), limits, ops[1..], op);
    }
  }

  lemma ReachableStep(b: BridgeState, limits: Limits, op: BridgeOp)
    requires Reachable(b, limits) && CanBe(b, op)
    ensures Reachable(After(b, limits, op), limits)
  {
    var ops :| Possible(EmptyBridge, limits, ops) && b == AfterAll(EmptyBridge, limits, ops);
    OneMoreOp(EmptyBridge, limits, ops, op);
  }

  lemma EmptyIsReachable(limits: Limits)
    ensures Reachable(EmptyBridge, limits)
  {
    assert Possible(EmptyBridge, limits, []) && AfterAll(EmptyBridge, limits, []) == EmptyBridge;
  }

  lemma ReachableIsSound(b: BridgeState, limits: Limits)
    requires Reachable(b, limits)
    ensures BridgeInv(b, limits)
  {
    var ops :| Possible(EmptyBridge, limits, ops) && b == AfterAll(EmptyBridge, limits, ops);
    EmptyIsSound(limits);
    HistoryKeeps(EmptyBridge, limits, ops);
  }

  // ---------------------------------------------------------------- chains

  predicate HasSuccessor(b: BridgeState, p: RunId, s: RunId) {
    s in b.reg.objects && b.reg.objects[s].resumedFrom == Some(p)
  }

  /** A path of continuations, from some run to one of its descendants. */
  predicate Chain(b: BridgeState, path: seq<RunId>) {
    && path != []
    && (forall i :: 0 <= i < |path| ==> path[i] in b.reg.objects)
    && (forall i :: 0 <= i < |path| - 1 ==> HasSuccessor(b, path[i], path[i + 1]))
  }

  predicate FromRoot(b: BridgeState, path: seq<RunId>) {
    Chain(b, path) && b.reg.objects[path[0]].resumedFrom.None?
  }

  /** No run is ever continued twice. */
  lemma ChainsAreLinear(b: BridgeState, limits: Limits, p: RunId, s: RunId, s': RunId)
    requires Reachable(b, limits) && HasSuccessor(b, p, s) && HasSuccessor(b, p, s')
    ensures s == s'
  {
    ReachableIsSound(b, limits);
    assert RunGood(b, limits, s) && RunGood(b, limits, s');
  }

  lemma LinkRecord(b: BridgeState, limits: Limits, p: RunId, s: RunId)
    requires BridgeInv(b, limits) && HasSuccessor(b, p, s)
    ensures p in b.admitted && s in b.admitted
    ensures b.admitted[s].depth == b.admitted[p].depth + 1 <= limits.maxContinuations
    ensures b.admitted[s].prompt == b.admitted[p].prompt
    ensures |b.admitted[s].turns| == |b.admitted[p].turns| + 1 && b.admitted[p].turns <= b.admitted[s].turns
  {
    hide Sound;
    RunOf(b, limits, None, s);
  }

  function Last(path: seq<RunId>): RunId
    requires path != []
  {
    path[|path| - 1]
  }

  /** The record is on the run, not taken and not spent. */
  predicate Carries(b: BridgeState, id: RunId) { id in b.reg.objects && b.reg.objects[id].continuation.Some? }

  /** A run's record says exactly where it stands: its depth is its distance from the
      root and within the limit, it carries one turn per link, extending its
      predecessor's, and the root's prompt. */
  predicate TellsTheChain(b: BridgeState, limits: Limits, path: seq<RunId>) {
    && path != [] && path[0] in b.admitted && Last(path) in b.admitted
    && var rec := b.admitted[Last(path)];
       && rec.depth == |path| - 1 && |rec.turns| == |path| - 1
       && rec.prompt == b.admitted[path[0]].prompt
       && (Carries(b, Last(path)) ==> b.reg.objects[Last(path)].continuation == Some(rec))
       && (|path| > 1 ==>
             && rec.depth <= limits.maxContinuations
             && path[|path| - 2] in b.admitted && b.admitted[path[|path| - 2]].turns <= rec.turns)
  }

  /** The last run's record, one link further. */
  lemma TellsOneMore(b: BridgeState, limits: Limits, path: seq<RunId>, last: RunId)
    requires TellsTheChain(b, limits, path) && last in b.admitted
    requires Carries(b, last) ==> b.reg.objects[last].continuation == Some(b.admitted[last])
    requires var p := Last(path);
             && b.admitted[last].depth == b.admitted[p].depth + 1 <= limits.maxContinuations
             && b.admitted[last].prompt == b.admitted[p].prompt
             && |b.admitted[last].turns| == |b.admitted[p].turns| + 1 && b.admitted[p].turns <= b.admitted[last].turns
    ensures TellsTheChain(b, limits, path + [last])
  {
    hide Carries;
    var longer := path + [last];
    assert Last(longer) == last && longer[|longer| - 2] == Last(path) && longer[0] == path[0];
  }

  lemma CarriesItsRecord(b: BridgeState, limits: Limits, id: RunId)
    requires BridgeInv(b, limits)
    ensures Carries(b, id) && id in b.admitted ==> b.reg.objects[id].continuation == Some(b.admitted[id])
  {
    hide Sound;
    if id in b.reg.objects { RunOf(b, limits, None, id); }
  }

  lemma RootTells(b: BridgeState, limits: Limits, path: seq<RunId>)
    requires BridgeInv(b, limits) && FromRoot(b, path) && |path| == 1
    ensures TellsTheChain(b, limits, path)
  {
    hide Sound;
    RunOf(b, limits, None, path[0]);
  }

  lemma FrontOfPath(b: BridgeState, path: seq<RunId>)
    requires FromRoot(b, path) && |path| > 1
    ensures var front := path[..|path| - 1];
      FromRoot(b, front) && HasSuccessor(b, Last(front), Last(path)) && path == front + [Last(path)]
  {
    var front := path[..|path| - 1];
    assert HasSuccessor(b, path[|path| - 2], path[|path| - 2 + 1]);
    forall i | 0 <= i < |front| - 1 ensures HasSuccessor(b, front[i], front[i + 1]) {
      assert HasSuccessor(b, path[i], path[i + 1]);
    }
  }

  lemma {:induction false} RecordsFollowPaths(b: BridgeState, limits: Limits, path: seq<RunId>)
    requires BridgeInv(b, limits) && FromRoot(b, path)
    ensures TellsTheChain(b, limits, path)
    decreases |path|
  {
    assert |path| > 0;
    hide FromRoot, HasSuccessor, Sound, TellsTheChain, RunGood, RegistryInv, Last, Carries;
    if |path| == 1 {
      RootTells(b, limits, path);
    } else {
      var front := path[..|path| - 1];
      FrontOfPath(b, path);
      RecordsFollowPaths(b, limits, front);
      LinkRecord(b, limits, Last(front), Last(path));
      CarriesItsRecord(b, limits, Last(path));
      TellsOneMore(b, limits, front, Last(path));
    }
  }

  lemma RecordsTellTheChain(b: BridgeState, limits: Limits, path: seq<RunId>)
    requires Reachable(b, limits) && FromRoot(b, path)
    ensures TellsTheChain(b, limits, path)
  {
    ReachableIsSound(b, limits);
    RecordsFollowPaths(b, limits, path);
  }

  /** Every run is at the end of such a path, so the depth is a distance and not a label. */
  lemma {:induction false} EveryRunHasARoot(b: BridgeState, limits: Limits, id: RunId) returns (path: seq<RunId>)
    requires BridgeInv(b, limits) && id in b.reg.objects
    ensures FromRoot(b, path) && path[|path| - 1] == id && |path| == b.admitted[id].depth + 1
    decreases b.admitted[id].depth
  {
    hide Sound;
    SoundRegistry(b, limits, None);
    RunOf(b, limits, None, id);
    match b.reg.objects[id].resumedFrom
    case None => path := [id];
    case Some(p) =>
      var front := EveryRunHasARoot(b, limits, p);
      path := front + [id];
      forall i | 0 <= i < |path| - 1 ensures HasSuccessor(b, path[i], path[i + 1]) {
        if i < |front| - 1 { assert HasSuccessor(b, front[i], front[i + 1]); }
      }
  }

  /** Two paths from one root are one path, as far as the shorter goes. */
  lemma {:induction false} PathsAgree(b: BridgeState, limits: Limits, p: seq<RunId>, q: seq<RunId>, n: nat)
    requires Reachable(b, limits) && FromRoot(b, p) && FromRoot(b, q) && p[0] == q[0]
    requires n < |p| && n < |q|
    ensures p[n] == q[n]
    decreases n
  {
    if n > 0 {
      PathsAgree(b, limits, p, q, n - 1);
      assert HasSuccessor(b, p[n - 1], p[n - 1 + 1]) && HasSuccessor(b, q[n - 1], q[n - 1 + 1]);
      ChainsAreLinear(b, limits, p[n - 1], p[n], q[n]);
    }
  }

  // ---------------------------------------------------------------- the chain's one patch

  /** From the moment a run has a successor, whatever became of its own label: no
      entry, no handle, no gate, and its patch never reached the tree. */
  lemma ContinuedOwnsNothing(b: BridgeState, limits: Limits, p: RunId, s: RunId)
    requires Reachable(b, limits) && HasSuccessor(b, p, s)
    ensures p in b.reg.objects && p !in b.store && p !in b.gates && p !in b.applied
    ensures b.reg.objects[p].worktree.None?
    ensures b.reg.objects[p].state == Superseded || b.reg.objects[p].state == Failed
    ensures b.reg.objects[p].state == Superseded ==> b.reg.objects[p].resumedBy == Some(s)
  {
    ReachableIsSound(b, limits);
    hide Sound, Reachable;
    RunOf(b, limits, None, s);
    SuccOf(b, limits, None, p);
    RunOf(b, limits, None, p);
  }

  /** The race the transaction is written for: the deadline strikes after the successor has
      started and the label is refused, yet everything the chain owned is gone. */
  lemma ExpiryBeatsTheLabel(b: BridgeState, pred: RunId, succ: RunId, now: int, late: int)
    requires RegistryInv(b.reg) && pred in b.reg.objects && Due(b.reg.objects[pred], late)
    ensures var c := RetirePredecessor(b, pred, succ, now, [[], [], [], [], [RunEvent(pred, OpExpire(late))]]);
      && c.reg.objects[pred].state == Failed && c.reg.objects[pred].resumedBy.None?
      && c.reg.objects[pred].worktree.None? && pred !in c.store && pred !in c.gates
      && c.reg.events == b.reg.events + [Expired(pred)]
  {
    LateRetirement(b, pred, succ, now, RunEvent(pred, OpExpire(late)));
    hide RetirePredecessor, RegistryInv;
  }

  /** With the label refused, what is left of a retirement takes the rest away. */
  lemma LateRetirement(b: BridgeState, pred: RunId, succ: RunId, now: int, e: RunEvent)
    requires var s := Happen(b.reg, e); pred in s.objects && s.objects[pred].state == Failed
    ensures RetirePredecessor(b, pred, succ, now, [[], [], [], [], [e]])
         == CloseGate(Discard(OnRun(b.(reg := Happen(b.reg, e)), pred, OpTakeWorktree), pred), pred)
  {
    var env := [[], [], [], [], [e]];
    assert Between(env, 4) == [e] && Between(env, 5) == [] && Between(env, 6) == [];
    hide Between;
    OneEvent(b.reg, e);
    LabelRefused(Happen(b.reg, e), pred, succ, now);
  }

  lemma OneEvent(s: RegistryState, e: RunEvent)
    ensures HappenAll(s, [e]) == Happen(s, e)
  {
    assert [e][1..] == [];
  }

  lemma LabelRefused(s: RegistryState, pred: RunId, succ: RunId, now: int)
    requires pred in s.objects && s.objects[pred].state == Failed
    ensures Happen(s, RunEvent(pred, OpSupersede(succ, now))) == s
  {
    assert s.objects[pred := s.objects[pred]] == s.objects;
  }

  /** Nor can collecting it again, with any diff, bring it an entry. */
  lemma ContinuedIsNeverCollected(b: BridgeState, limits: Limits, p: RunId, s: RunId, diff: Option<string>,
                                  es: seq<RunEvent>, cutoff: int)
    requires Reachable(b, limits) && HasSuccessor(b, p, s) && Natural(es)
    ensures p !in Collect(b, p, diff, es, cutoff).store
  {
    ReachableIsSound(b, limits);
    ContinuedOwnsNothing(b, limits, p, s);
    hide Reachable, BridgeInv, Reap, Arrive, OnRun;
    CollectShape(b, p, diff, es, cutoff);
    ReapAddsNothing(Arrive(Picked(CloseGate(b, p), p, diff), es, cutoff));
    ArriveKeepsStore(Picked(CloseGate(b, p), p, diff), es, cutoff);
    OnRunKeepsStore(CloseGate(b, p), p, OpTakeWorktree);
  }

  lemma ReapAddsNothing(b: BridgeState)
    ensures Reap(b).store.Keys <= b.store.Keys
  {
  }

  lemma ArriveKeepsStore(b: BridgeState, es: seq<RunEvent>, cutoff: int)
    ensures Arrive(b, es, cutoff).store == b.store
  {
  }

  lemma OnRunKeepsStore(b: BridgeState, id: RunId, op: Op)
    ensures OnRun(b, id, op).store == b.store
  {
  }

  /** Two runs of one chain: paths from the same root lead to both. */
  ghost predicate SameChain(b: BridgeState, x: RunId, y: RunId) {
    exists p, q :: Leads(b, p, x) && Leads(b, q, y) && p[0] == q[0]
  }

  predicate Leads(b: BridgeState, path: seq<RunId>, x: RunId) { FromRoot(b, path) && Last(path) == x }

  lemma EarlierIsContinued(b: BridgeState, limits: Limits, p: seq<RunId>, q: seq<RunId>)
    requires Reachable(b, limits) && FromRoot(b, p) && FromRoot(b, q) && p[0] == q[0] && |p| < |q|
    ensures p[|p| - 1] !in b.applied
  {
    hide Reachable;
    PathsAgree(b, limits, p, q, |p| - 1);
    assert HasSuccessor(b, q[|p| - 1], q[|p| - 1 + 1]);
    ContinuedOwnsNothing(b, limits, q[|p| - 1], q[|p|]);
  }

  /** Over any history at most one patch per chain is ever applied. */
  lemma OnePatchPerChain(b: BridgeState, limits: Limits, i: nat, j: nat)
    requires Reachable(b, limits) && i < j < |b.applied|
    ensures !SameChain(b, b.applied[i], b.applied[j])
  {
    ReachableIsSound(b, limits);
    var x, y := b.applied[i], b.applied[j];
    assert x != y && x in b.applied && y in b.applied;
    hide BridgeInv, Reachable, FromRoot;
    if SameChain(b, x, y) {
      var p, q :| Leads(b, p, x) && Leads(b, q, y) && p[0] == q[0];
      if |p| < |q| { EarlierIsContinued(b, limits, p, q); }
      if |q| < |p| { EarlierIsContinued(b, limits, q, p); }
      if |p| == |q| { PathsAgree(b, limits, p, q, |p| - 1); }
    }
  }

  /** The slots held never exceed the limit, with continuations handing theirs over. */
  lemma SlotsWithinLimit(b: BridgeState, limits: Limits)
    requires Reachable(b, limits)
    ensures |Live(b.reg)| <= limits.maxLive
  {
    ReachableIsSound(b, limits);
  }
}
