/** One run, the verdict channels its questions made, and the goroutines that have
    cleared a question under the lock but not yet sent. Every interleaving of
    critical sections, sends and closes is a sequence of steps here. */
module VerdictProtocol {
  import opened Wrappers
  import opened RunLifecycle

  /** A channel keeps everything ever sent on it and how often it was closed, so
      that a second send, a send after close or a second close would show.
      `owed` is the verdict decided for it when its question was cleared. */
  datatype Chan = Chan(owed: Option<Verdict>, sent: seq<Verdict>, closes: nat)

  /** A goroutine between unlocking and finishing its send. */
  datatype Sender = Sender(ch: ChanId, verdict: Verdict, hasSent: bool)

  datatype Sys = Sys(run: RunView, chans: seq<Chan>, flying: seq<Sender>)

  datatype Step =
    | Locked(op: Op)
    | SendNow(i: nat)
    | CloseNow(i: nat)

  function Initial(run: RunView): Sys { Sys(run, [], []) }

  predicate IsStart(v: RunView) {
    v == Fresh(v.id, v.confined, v.worktree, v.continuation, v.resumedFrom)
  }

  predicate Enabled(s: Sys, step: Step) {
    match step
    case Locked(op) => OpOk(op) && (op.OpAsk? ==> op.ch == |s.chans|)
    case SendNow(i) => i < |s.flying| && !s.flying[i].hasSent && s.flying[i].ch < |s.chans|
    case CloseNow(i) => i < |s.flying| && s.flying[i].hasSent && s.flying[i].ch < |s.chans|
  }

  function Owe(chans: seq<Chan>, send: Send): seq<Chan>
    requires send.ch < |chans|
  {
    chans[send.ch := chans[send.ch].(owed := Some(send.verdict))]
  }

  function SendOn(chans: seq<Chan>, ch: ChanId, v: Verdict): seq<Chan>
    requires ch < |chans|
  {
    chans[ch := chans[ch].(sent := chans[ch].sent + [v])]
  }

  function CloseOn(chans: seq<Chan>, ch: ChanId): seq<Chan>
    requires ch < |chans|
  {
    chans[ch := chans[ch].(closes := chans[ch].closes + 1)]
  }

  function AfterLock(s: Sys, op: Op): Sys
    requires Enabled(s, Locked(op))
  {
    var e := Apply(s.run, op);
    if op.OpAsk? then
      Sys(e.view, if AskRefusal(s.run).None? then s.chans + [Chan(None, [], 0)] else s.chans, s.flying)
    else if e.send.Some? && e.send.value.ch < |s.chans| then
      var send := e.send.value;
      var owing := Owe(s.chans, send);
      if op.OpResolve?
      then Sys(e.view, CloseOn(SendOn(owing, send.ch, send.verdict), send.ch), s.flying) // sent under the lock
      else Sys(e.view, owing, s.flying + [Sender(send.ch, send.verdict, false)])
    else s.(run := e.view)
  }

  function Next(s: Sys, step: Step): Sys
    requires Enabled(s, step)
  {
    match step
    case Locked(op) => AfterLock(s, op)
    case SendNow(i) =>
      var f := s.flying[i];
      s.(chans := SendOn(s.chans, f.ch, f.verdict), flying := s.flying[i := f.(hasSent := true)])
    case CloseNow(i) =>
      s.(chans := CloseOn(s.chans, s.flying[i].ch), flying := s.flying[..i] + s.flying[i + 1..])
  }

  // ---------------------------------------------------------------- the invariant

  predicate Waiting(s: Sys, c: ChanId) { s.run.verdict == Some(c) }

  predicate Held(s: Sys, c: ChanId) { exists i :: 0 <= i < |s.flying| && s.flying[i].ch == c }

  predicate Delivered(chan: Chan) {
    chan.owed.Some? && chan.sent == [chan.owed.value] && chan.closes == 1
  }

  predicate HeldChan(chan: Chan, f: Sender) {
    && chan.owed == Some(f.verdict) && chan.closes == 0
    && chan.sent == (if f.hasSent then [f.verdict] else [])
  }

  /** The three places a channel can be. */
  predicate Placed(s: Sys, c: ChanId)
    requires c < |s.chans|
  {
    if Waiting(s, c) then s.chans[c] == Chan(None, [], 0) && !Held(s, c)
    else if s.flying != [] && s.flying[0].ch == c then HeldChan(s.chans[c], s.flying[0])
    else Delivered(s.chans[c])
  }

  predicate Good(s: Sys) {
    && Inv(s.run)
    && |s.flying| <= 1
    && (s.flying != [] ==> s.run.state != Running && s.flying[0].ch < |s.chans|)
    && (s.run.verdict.Some? ==> s.run.verdict.value < |s.chans|)
    && forall c :: 0 <= c < |s.chans| ==> Placed(s, c)
  }

  lemma LockPlaces(s: Sys, op: Op, c: ChanId)
    requires Good(s) && Enabled(s, Locked(op)) && c < |AfterLock(s, op).chans|
    ensures Placed(AfterLock(s, op), c)
  {
    if c < |s.chans| { assert Placed(s, c); }
  }

  lemma LockShape(s: Sys, op: Op)
    requires Good(s) && Enabled(s, Locked(op))
    ensures var t := AfterLock(s, op);
      && t.run == Apply(s.run, op).view && |t.flying| <= 1
      && (t.flying != [] ==> t.run.state != Running && t.flying[0].ch < |t.chans|)
      && (t.run.verdict.Some? ==> t.run.verdict.value < |t.chans|)
  {
    hide Placed;
  }

  lemma LockKeepsGood(s: Sys, op: Op)
    requires Good(s) && Enabled(s, Locked(op))
    ensures Good(AfterLock(s, op))
  {
    StepKeepsInv(s.run, op);
    var t := AfterLock(s, op);
    forall c | 0 <= c < |t.chans| ensures Placed(t, c) { LockPlaces(s, op, c); }
    LockShape(s, op);
    hide Placed, AfterLock;
  }

  lemma StepKeepsGood(s: Sys, step: Step)
    requires Good(s) && Enabled(s, step)
    ensures Good(Next(s, step))
  {
    match step
    case Locked(op) => LockKeepsGood(s, op);
    case SendNow(i) =>
      var t := Next(s, step);
      forall c | 0 <= c < |t.chans| ensures Placed(t, c) { assert Placed(s, c); }
    case CloseNow(i) =>
      var t := Next(s, step);
      assert t.flying == [];
      forall c | 0 <= c < |t.chans| ensures Placed(t, c) { assert Placed(s, c); }
  }

  // ---------------------------------------------------------------- every interleaving

  predicate Schedule(s: Sys, steps: seq<Step>)
    decreases |steps|
  {
    steps == [] || (Enabled(s, steps[0]) && Schedule(Next(s, steps[0]), steps[1..]))
  }

  function Exec(s: Sys, steps: seq<Step>): Sys
    requires Schedule(s, steps)
    decreases |steps|
  {
    if steps == [] then s else Exec(Next(s, steps[0]), steps[1..])
  }

  lemma {:induction false} ExecKeepsGood(s: Sys, steps: seq<Step>)
    requires Good(s) && Schedule(s, steps)
    ensures Good(Exec(s, steps))
    decreases |steps|
  {
    if steps != [] {
      StepKeepsGood(s, steps[0]);
      ExecKeepsGood(Next(s, steps[0]), steps[1..]);
    }
  }

  /** At every moment of every interleaving each channel is in exactly one place:
      pending on a running run, held by the one goroutine that owes it its verdict,
      or delivered once and closed once. */
  lemma ExactlyOneVerdict(run: RunView, steps: seq<Step>, c: ChanId)
    requires IsStart(run) && Schedule(Initial(run), steps)
    requires c < |Exec(Initial(run), steps).chans|
    ensures var s := Exec(Initial(run), steps);
            && |s.chans[c].sent| <= 1 && s.chans[c].closes <= 1
            && (s.chans[c].closes == 1 ==> |s.chans[c].sent| == 1)
            && (Waiting(s, c) <==> s.chans[c].owed.None?)
            && (Waiting(s, c) ==> s.run.state == Running && s.chans[c].sent == [] && !Held(s, c))
            && (Held(s, c) <==> s.chans[c].owed.Some? && s.chans[c].closes == 0)
            && (Held(s, c) ==> |s.flying| == 1)
            && (!Waiting(s, c) && !Held(s, c) <==> Delivered(s.chans[c]))
  {
    ExecKeepsGood(Initial(run), steps);
    var s := Exec(Initial(run), steps);
    assert Placed(s, c);
    if s.flying != [] && s.flying[0].ch == c { assert Held(s, c); }
  }

  /** No sender ever blocks on a full channel or panics on a closed one: neither
      one in flight nor a resolve about to send under the lock. */
  lemma SendsNeverBlockOrPanic(run: RunView, steps: seq<Step>)
    requires IsStart(run) && Schedule(Initial(run), steps)
    ensures var s := Exec(Initial(run), steps);
            && (forall i :: 0 <= i < |s.flying| ==>
                  s.flying[i].ch < |s.chans| && s.chans[s.flying[i].ch].closes == 0
                  && (!s.flying[i].hasSent ==> s.chans[s.flying[i].ch].sent == []))
            && (s.run.pending.Some? ==>
                  s.run.verdict.Some? && s.run.verdict.value < |s.chans|
                  && s.chans[s.run.verdict.value] == Chan(None, [], 0))
  {
    ExecKeepsGood(Initial(run), steps);
    var s := Exec(Initial(run), steps);
    if s.flying != [] { assert Placed(s, s.flying[0].ch); }
    if s.run.verdict.Some? { assert Placed(s, s.run.verdict.value); }
  }

  /** What the goroutines still in flight have left to do, nobody else moving. */
  function Draining(s: Sys): seq<Step> {
    if s.flying == [] then [] else if s.flying[0].hasSent then [CloseNow(0)] else [SendNow(0), CloseNow(0)]
  }

  /** Once the run has settled, in any way, letting the senders finish delivers every
      question ever asked: no waiter is stranded. */
  lemma NobodyStranded(run: RunView, steps: seq<Step>)
    requires IsStart(run) && Schedule(Initial(run), steps)
    requires Exec(Initial(run), steps).run.state != Running
    ensures var s := Exec(Initial(run), steps);
            && Schedule(s, Draining(s))
            && var t := Exec(s, Draining(s));
               t.flying == [] && |t.chans| == |s.chans| && forall c :: 0 <= c < |t.chans| ==> Delivered(t.chans[c])
  {
    ExecKeepsGood(Initial(run), steps);
    var s := Exec(Initial(run), steps);
    DrainDelivers(s);
  }

  lemma DrainDelivers(s: Sys)
    requires Good(s) && s.run.state != Running
    ensures Schedule(s, Draining(s))
    ensures var t := Exec(s, Draining(s));
            t.flying == [] && |t.chans| == |s.chans| && forall c :: 0 <= c < |t.chans| ==> Delivered(t.chans[c])
  {
    var t := s;
    if s.flying != [] && !s.flying[0].hasSent {
      StepKeepsGood(s, SendNow(0));
      t := Next(s, SendNow(0));
      assert Draining(s)[1..] == [CloseNow(0)];
    }
    if t.flying != [] {
      StepKeepsGood(t, CloseNow(0));
      var u := Next(t, CloseNow(0));
      assert [CloseNow(0)][1..] == [];
      assert Schedule(t, [CloseNow(0)]) && Exec(t, [CloseNow(0)]) == u;
      t := u;
    }
    assert Exec(s, Draining(s)) == t;
    forall c | 0 <= c < |t.chans| ensures Delivered(t.chans[c]) { assert Placed(t, c); }
  }

  lemma StepKeepsVerdict(s: Sys, step: Step, c: ChanId)
    requires Good(s) && Enabled(s, step) && c < |s.chans| && s.chans[c].owed.Some?
    ensures var t := Next(s, step); c < |t.chans| && t.chans[c].owed == s.chans[c].owed
  {
    assert Placed(s, c);
  }

  lemma {:induction false} OwedIsKept(s: Sys, steps: seq<Step>, c: ChanId)
    requires Good(s) && Schedule(s, steps) && c < |s.chans| && s.chans[c].owed.Some?
    ensures c < |Exec(s, steps).chans| && Exec(s, steps).chans[c].owed == s.chans[c].owed
    decreases |steps|
  {
    if steps != [] {
      var t := Next(s, steps[0]);
      StepKeepsGood(s, steps[0]);
      StepKeepsVerdict(s, steps[0], c);
      OwedIsKept(t, steps[1..], c);
    }
  }

  /** The verdict decided when a question was cleared is never replaced. */
  lemma VerdictIsFinal(s: Sys, steps: seq<Step>, c: ChanId)
    requires Good(s) && Schedule(s, steps) && c < |s.chans| && s.chans[c].owed.Some?
    ensures c < |Exec(s, steps).chans| && Exec(s, steps).chans[c].owed == s.chans[c].owed
    ensures Exec(s, steps).chans[c].sent <= [s.chans[c].owed.value]
  {
    OwedIsKept(s, steps, c);
    ExecKeepsGood(s, steps);
    assert Placed(Exec(s, steps), c);
  }
}
