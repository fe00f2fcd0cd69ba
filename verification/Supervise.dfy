/** Waiting for a child, killing its group and reaping it (internal/run/exec.go), once the
    waiter goroutine has been started. Every interleaving of the waiter, the supervisor,
    the timer, the cancellation, the readers and the child is a sequence of steps; a step
    that cannot be taken where it comes up is skipped. */
module Supervise {
  import opened Wrappers

  /** The leader: running, exited but not waited for, or reaped, its pid free for reuse. */
  datatype Child = Alive | Zombie | Reaped

  /** Where the waiter goroutine stands. */
  datatype Waiter =
    | Watching      // inside WaitExit
    | Failed        // no such wait, or it failed: about to mark the leader as reaped
    | Marked        // about to call cmd.Wait
    | Reaping       // inside cmd.Wait
    | Sending       // about to send the result
    | Closing       // about to close exited
    | Ended

  /** What woke the supervisor. */
  datatype Cause = Exited | TimedOut | Cancelled

  /** Where the supervisor stands. */
  datatype Supervisor =
    | Selecting
    | Killing(why: Cause)                               // before the drain
    | Grace(why: Cause, stage: nat, killAfter: bool)    // waiting for the readers
    | GraceKilling(why: Cause, killAfter: bool)         // the grace expired once
    | LateKilling(why: Cause)                           // after the drain, the leader being reaped
    | Awaiting(why: Cause)                              // reap: until exited is closed
    | Collecting(why: Cause)                            // reap: the result, or the wait itself
    | InWait(why: Cause)                                // reap: inside cmd.Wait
    | Finishing(why: Cause, failed: bool)
    | Done(outcome: Outcome)

  datatype Outcome = RunCompleted | RunFailed | RunTimedOut | RunCancelled

  datatype Event = KillAll | WaitCalled

  datatype State = State(
    child: Child,
    waiter: Waiter,
    watched: bool,                  // WaitExit succeeded
    leaderReaped: bool,
    exited: bool,                   // closed
    waitErr: Option<bool>,          // the buffered channel: whether cmd.Wait failed
    supervisor: Supervisor,
    readersStuck: bool,
    trace: seq<Event>,
    result: Option<bool>)           // what the one cmd.Wait returned

  function Start(hasExitWaiter: bool): State {
    State(Alive, if hasExitWaiter then Watching else Failed, false, false, false, None, Selecting, false, [], None)
  }

  datatype Step =
    | ChildExits
    | WaitExitReturns(ok: bool)
    | Mark
    | CallWait
    | WaitReturns(failed: bool)
    | Send
    | Close
    | Wake(why: Cause)
    | Kill
    | GraceEnds(finished: bool)
    | SeeExited
    | Collect
    | WaitReturnsToReap(failed: bool)
    | Finish

  /** The waiter's own steps. */
  function WaiterStep(s: State, step: Step): State {
    match (s.waiter, step)
    case (Watching, WaitExitReturns(true)) => if s.child == Alive then s else s.(watched := true, waiter := Closing)
    case (Watching, WaitExitReturns(false)) => s.(waiter := Failed)
    case (Failed, Mark) => s.(leaderReaped := true, waiter := Marked)
    case (Marked, CallWait) => s.(trace := s.trace + [WaitCalled], waiter := Reaping)
    case (Reaping, WaitReturns(failed)) =>
      if s.child == Alive then s else s.(child := Reaped, result := Some(failed), waiter := Sending)
    case (Sending, Send) => s.(waitErr := s.result, waiter := Closing)
    case (Closing, Close) => s.(exited := true, waiter := Ended)
    case _ => s
  }

  /** After a drain: the late kill if one is due, then reap. */
  function Drained(s: State, why: Cause, killAfter: bool): State {
    s.(supervisor := if killAfter then LateKilling(why) else Awaiting(why))
  }

  function OutcomeOf(why: Cause, failed: bool): Outcome {
    match why
    case Exited => if failed then RunFailed else RunCompleted
    case TimedOut => RunTimedOut
    case Cancelled => RunCancelled
  }

  function SupervisorStep(s: State, step: Step): State {
    match (s.supervisor, step)
    case (Selecting, Wake(why)) =>
      if why == Exited && !s.exited then s
      else if why == Exited && s.leaderReaped then s.(supervisor := Grace(why, 1, true))
      else s.(supervisor := Killing(why))
    case (Killing(why), Kill) => s.(trace := s.trace + [KillAll], supervisor := Grace(why, 1, false))
    case (Grace(why, stage, killAfter), GraceEnds(finished)) =>
      if finished then Drained(s, why, killAfter)
      else if stage <= 1 then s.(supervisor := GraceKilling(why, killAfter))
      else if stage == 2 then s.(supervisor := Grace(why, 3, killAfter))
      else Drained(s.(readersStuck := true), why, killAfter)
    case (GraceKilling(why, killAfter), Kill) =>
      s.(trace := s.trace + [KillAll], supervisor := Grace(why, 2, killAfter))
    case (LateKilling(why), Kill) => s.(trace := s.trace + [KillAll], supervisor := Awaiting(why))
    case (Awaiting(why), SeeExited) => if s.exited then s.(supervisor := Collecting(why)) else s
    case (Collecting(why), Collect) =>
      if s.leaderReaped then
        (match s.waitErr
         case None => s
         case Some(failed) => s.(waitErr := None, supervisor := Finishing(why, failed)))
      else s.(trace := s.trace + [WaitCalled], supervisor := InWait(why))
    case (InWait(why), WaitReturnsToReap(failed)) =>
      if s.child == Alive then s else s.(child := Reaped, result := Some(failed), supervisor := Finishing(why, failed))
    case (Finishing(why, failed), Finish) => s.(supervisor := Done(OutcomeOf(why, failed)))
    case _ => s
  }

  function Next(s: State, step: Step): State {
    if step.ChildExits? then (if s.child == Alive then s.(child := Zombie) else s)
    else SupervisorStep(WaiterStep(s, step), step)
  }

  function RunAll(s: State, steps: seq<Step>): State
    decreases |steps|
  {
    if steps == [] then s else RunAll(Next(s, steps[0]), steps[1..])
  }

  // ---- What every step keeps ----

  function Waits(trace: seq<Event>): nat {
    if trace == [] then 0 else Waits(trace[..|trace| - 1]) + (if trace[|trace| - 1] == WaitCalled then 1 else 0)
  }

  lemma WaitsAppend(trace: seq<Event>, e: Event)
    ensures Waits(trace + [e]) == Waits(trace) + (if e == WaitCalled then 1 else 0)
  {
    assert (trace + [e])[..|trace|] == trace;
  }

  /** The supervisor has its result, or is getting it itself. */
  predicate Collected(p: Supervisor) { p.InWait? || p.Finishing? || p.Done? }

  predicate GoodWaiter(s: State) {
    match s.waiter
    case Watching => !s.leaderReaped && !s.watched && s.waitErr == None && s.result == None
    case Failed => !s.leaderReaped && !s.watched && s.waitErr == None && s.result == None
    case Marked => s.leaderReaped && !s.watched && s.waitErr == None && s.result == None
    case Reaping => s.leaderReaped && !s.watched && s.waitErr == None && s.result == None
    case Sending => s.leaderReaped && !s.watched && s.waitErr == None && s.result.Some?
    case Closing =>
      && (s.watched <==> !s.leaderReaped)
      && s.waitErr == s.result && (s.leaderReaped <==> s.result.Some?)
    case Ended => s.watched <==> !s.leaderReaped
  }

  predicate GoodSupervisor(s: State) {
    match s.supervisor
    case Selecting => true
    case Killing(_) => true
    case Grace(_, _, killAfter) => killAfter ==> s.leaderReaped
    case GraceKilling(_, killAfter) => killAfter ==> s.leaderReaped
    case LateKilling(_) => s.leaderReaped
    case Awaiting(_) => true
    case Collecting(_) => s.exited
    case InWait(_) => s.exited && !s.leaderReaped && s.result == None
    case Finishing(_, failed) => s.exited && s.result == Some(failed) && s.child == Reaped
    case Done(outcome) =>
      && s.exited && s.result.Some? && s.child == Reaped
      && (outcome == RunCompleted ==> !s.result.value) && (outcome == RunFailed ==> s.result.value)
  }

  /** How often cmd.Wait has been called so far, by whom. */
  function WaitsDue(s: State): nat {
    (if s.leaderReaped && !s.waiter.Marked? then 1 else 0)
    + (if !s.leaderReaped && Collected(s.supervisor) then 1 else 0)
  }

  predicate Good(s: State) {
    && GoodWaiter(s) && GoodSupervisor(s)
    && (s.exited <==> s.waiter.Ended?)
    && Waits(s.trace) == WaitsDue(s)
    && (s.waiter.Ended? && !Collected(s.supervisor) ==> s.waitErr == s.result && (s.leaderReaped <==> s.result.Some?))
    && (s.watched ==> s.child != Alive)
    && (s.result.Some? <==> s.child == Reaped)
    && ReapIsLast(s)
  }

  /** A supervisor that reaps has done nothing since. */
  predicate ReapIsLast(s: State) {
    !s.leaderReaped && Collected(s.supervisor) ==> s.trace != [] && s.trace[|s.trace| - 1] == WaitCalled
  }

  lemma WaiterKeeps(s: State, step: Step)
    requires Good(s)
    ensures Good(WaiterStep(s, step))
  {
    WaitsAppend(s.trace, WaitCalled);
  }

  lemma WakeKeeps(s: State, why: Cause)
    requires Good(s)
    ensures Good(SupervisorStep(s, Wake(why)))
  {
  }

  lemma KillFrom(s: State, p: Supervisor, t: State)
    requires Good(s) && !Collected(s.supervisor) && !Collected(p) && GoodSupervisor(s.(supervisor := p))
    requires t == s.(trace := s.trace + [KillAll], supervisor := p)
    ensures Good(t)
  {
    WaitsAppend(s.trace, KillAll);
  }

  lemma KillKeeps(s: State, t: State)
    requires Good(s) && t == SupervisorStep(s, Kill)
    ensures Good(t)
  {
    match s.supervisor
    case Killing(why) => KillFrom(s, Grace(why, 1, false), t);
    case GraceKilling(why, killAfter) => KillFrom(s, Grace(why, 2, killAfter), t);
    case LateKilling(why) => KillFrom(s, Awaiting(why), t);
    case _ => assert t == s;
  }

  lemma MoveTo(s: State, p: Supervisor, stuck: bool, t: State)
    requires Good(s) && !Collected(s.supervisor) && !Collected(p) && GoodSupervisor(s.(supervisor := p))
    requires t == s.(readersStuck := stuck, supervisor := p)
    ensures Good(t)
  {
    hide Waits;
  }

  lemma GraceMoves(s: State, finished: bool)
    requires GoodSupervisor(s) && s.supervisor.Grace?
    ensures var t := SupervisorStep(s, GraceEnds(finished));
      && t == s.(readersStuck := t.readersStuck, supervisor := t.supervisor)
      && !Collected(t.supervisor) && GoodSupervisor(s.(supervisor := t.supervisor))
  {
  }

  lemma GraceKeeps(s: State, finished: bool, t: State)
    requires Good(s) && t == SupervisorStep(s, GraceEnds(finished))
    ensures Good(t)
  {
    if s.supervisor.Grace? {
      GraceMoves(s, finished);
      hide SupervisorStep, GoodSupervisor, GoodWaiter, Good;
      MoveTo(s, t.supervisor, t.readersStuck, t);
    }
  }

  lemma CollectKeeps(s: State)
    requires Good(s)
    ensures Good(SupervisorStep(s, Collect))
  {
    WaitsAppend(s.trace, WaitCalled);
  }

  lemma ReapKeeps(s: State, step: Step)
    requires Good(s) && (step.SeeExited? || step.WaitReturnsToReap? || step.Finish?)
    ensures Good(SupervisorStep(s, step))
  {
  }

  lemma SupervisorKeeps(s: State, step: Step)
    requires Good(s)
    ensures Good(SupervisorStep(s, step))
  {
    match step
    case Wake(why) => WakeKeeps(s, why);
    case Kill => KillKeeps(s, SupervisorStep(s, step));
    case GraceEnds(finished) => GraceKeeps(s, finished, SupervisorStep(s, step));
    case Collect => CollectKeeps(s);
    case SeeExited => ReapKeeps(s, step);
    case WaitReturnsToReap(_) => ReapKeeps(s, step);
    case Finish => ReapKeeps(s, step);
    case _ =>
  }

  lemma {:induction false} RunKeeps(s: State, steps: seq<Step>)
    requires Good(s)
    ensures Good(RunAll(s, steps))
    decreases |steps|
  {
    if steps != [] {
      WaiterKeeps(s, steps[0]);
      SupervisorKeeps(WaiterStep(s, steps[0]), steps[0]);
      RunKeeps(Next(s, steps[0]), steps[1..]);
    }
  }

  // ---- What follows for every interleaving ----

  lemma Reached(hasExitWaiter: bool, steps: seq<Step>)
    ensures Good(RunAll(Start(hasExitWaiter), steps))
  {
    RunKeeps(Start(hasExitWaiter), steps);
  }

  /** cmd.Wait is called at most once, and by the end exactly once; the run's outcome is
      what woke the supervisor, and for an exit, what that one call returned. */
  lemma WaitedForOnce(hasExitWaiter: bool, steps: seq<Step>)
    ensures var s := RunAll(Start(hasExitWaiter), steps);
      && Waits(s.trace) <= 1
      && (s.supervisor.Done? ==>
            && Waits(s.trace) == 1 && s.child == Reaped && s.result.Some?
            && (s.supervisor.outcome == RunCompleted ==> s.result == Some(false))
            && (s.supervisor.outcome == RunFailed ==> s.result == Some(true)))
  {
    Reached(hasExitWaiter, steps);
  }

  /** When reap comes for a result the waiter was to leave, it is there. */
  lemma ReapFindsItsResult(hasExitWaiter: bool, steps: seq<Step>)
    ensures var s := RunAll(Start(hasExitWaiter), steps);
      s.supervisor.Collecting? ==>
        (if s.leaderReaped then s.waitErr.Some? && s.waitErr == s.result && Waits(s.trace) == 1
         else s.watched && s.child == Zombie && Waits(s.trace) == 0)
  {
    Reached(hasExitWaiter, steps);
  }

  lemma {:induction false} NoneWaits(trace: seq<Event>, i: nat)
    requires Waits(trace) == 0 && i < |trace|
    ensures trace[i] == KillAll
    decreases |trace|
  {
    if i < |trace| - 1 { NoneWaits(trace[..|trace| - 1], i); }
  }

  /** Whenever WaitExit succeeded, every KillAll precedes the reap: until the supervisor
      reaps, the exited leader keeps its pid, and afterwards nothing is signalled. */
  lemma KillsPrecedeTheReap(hasExitWaiter: bool, steps: seq<Step>, i: nat, j: nat)
    requires var s := RunAll(Start(hasExitWaiter), steps);
      s.watched && i < |s.trace| && j < |s.trace| && s.trace[i] == KillAll && s.trace[j] == WaitCalled
    ensures i < j
  {
    var s := RunAll(Start(hasExitWaiter), steps);
    Reached(hasExitWaiter, steps);
    assert !s.leaderReaped;
    var n := |s.trace| - 1;
    if Waits(s.trace) == 0 {
      NoneWaits(s.trace, j);
    } else {
      assert Waits(s.trace[..n]) == 0;
      if j < n { NoneWaits(s.trace[..n], j); }
    }
  }

  // ---- The kills are made ----

  function Kills(trace: seq<Event>): nat {
    if trace == [] then 0 else Kills(trace[..|trace| - 1]) + (if trace[|trace| - 1] == KillAll then 1 else 0)
  }

  lemma KillsAppend(trace: seq<Event>, e: Event)
    ensures Kills(trace + [e]) == Kills(trace) + (if e == KillAll then 1 else 0)
  {
    assert (trace + [e])[..|trace|] == trace;
  }

  lemma {:induction false} KillsThere(trace: seq<Event>)
    ensures Kills(trace) > 0 <==> KillAll in trace
  {
    if trace != [] {
      var n := |trace| - 1;
      KillsThere(trace[..n]);
      assert trace == trace[..n] + [trace[n]];
    }
  }

  /** How many kills a supervisor at this point has made, given how many waits of the grace
      ran out: the one it owes the group, before the drain or after it, and the grace's own. */
  function KillsDue(p: Supervisor, expired: nat): nat {
    match p
    case Selecting => 0
    case Killing(_) => 0
    case Grace(_, _, killAfter) => (if killAfter then 0 else 1) + (if expired > 0 then 1 else 0)
    case GraceKilling(_, killAfter) => if killAfter then 0 else 1
    case LateKilling(_) => if expired > 0 then 1 else 0
    case _ => 1 + if expired > 0 then 1 else 0
  }

  /** The stage of the drain says how many of its waits ran out. */
  predicate StageIs(p: Supervisor, expired: nat) {
    match p
    case Selecting => expired == 0
    case Killing(_) => expired == 0
    case Grace(_, stage, _) => stage == expired + 1 && expired <= 2
    case GraceKilling(_, _) => expired == 1
    case _ => expired <= 3
  }

  /** What the steps so far amount to: who woke the supervisor, and how many of the waits
      for the readers ran out. */
  datatype Seen = Seen(woken: Option<Cause>, expired: nat)

  function Look(s: State, seen: Seen, step: Step): Seen {
    if Next(s, step) == s then seen
    else match step
      case Wake(why) => seen.(woken := Some(why))
      case GraceEnds(finished) => if finished then seen else seen.(expired := seen.expired + 1)
      case _ => seen
  }

  /** Over a whole schedule, from the start; steps that are not taken count for nothing. */
  function SeenOf(s: State, seen: Seen, steps: seq<Step>): Seen
    decreases |steps|
  {
    if steps == [] then seen else SeenOf(Next(s, steps[0]), Look(s, seen, steps[0]), steps[1..])
  }

  function CauseOf(p: Supervisor): Option<Cause> {
    match p
    case Selecting => None
    case Killing(why) => Some(why)
    case Grace(why, _, _) => Some(why)
    case GraceKilling(why, _) => Some(why)
    case LateKilling(why) => Some(why)
    case Awaiting(why) => Some(why)
    case Collecting(why) => Some(why)
    case InWait(why) => Some(why)
    case Finishing(why, _) => Some(why)
    case Done(_) => None
  }

  predicate Ends(outcome: Outcome, woken: Option<Cause>, result: Option<bool>) {
    && woken.Some? && result.Some?
    && (outcome == RunTimedOut <==> woken.value == TimedOut)
    && (outcome == RunCancelled <==> woken.value == Cancelled)
    && (outcome == RunCompleted <==> woken.value == Exited && !result.value)
    && (outcome == RunFailed <==> woken.value == Exited && result.value)
  }

  /** Nobody but a supervisor woken by an exit puts its kill off until after the drain. */
  predicate PutOff(p: Supervisor) {
    match p
    case Grace(why, _, killAfter) => killAfter ==> why == Exited
    case GraceKilling(why, killAfter) => killAfter ==> why == Exited
    case LateKilling(why) => why == Exited
    case _ => true
  }

  predicate Told(s: State, seen: Seen) {
    && Kills(s.trace) == KillsDue(s.supervisor, seen.expired)
    && StageIs(s.supervisor, seen.expired) && PutOff(s.supervisor)
    && (s.readersStuck <==> seen.expired == 3)
    && (if s.supervisor.Done? then Ends(s.supervisor.outcome, seen.woken, s.result)
        else CauseOf(s.supervisor) == seen.woken)
  }

  lemma WaiterTells(s: State, seen: Seen, step: Step)
    requires Good(s) && Told(s, seen)
    ensures Told(WaiterStep(s, step), seen)
  {
    KillsAppend(s.trace, WaitCalled);
  }

  lemma KillIsTheSupervisors(s: State)
    ensures Next(s, Kill) == SupervisorStep(s, Kill)
    ensures SupervisorStep(s, Kill) == s || SupervisorStep(s, Kill).trace == s.trace + [KillAll]
  {
  }

  lemma KillTells(s: State, seen: Seen)
    requires Good(s) && Told(s, seen)
    ensures Told(Next(s, Kill), Look(s, seen, Kill))
  {
    KillsAppend(s.trace, KillAll);
    KillIsTheSupervisors(s);
    hide Good, GoodWaiter, Waits, Kills, WaiterStep, Next, Drained;
  }

  lemma WakeTells(s: State, seen: Seen, why: Cause)
    requires Good(s) && Told(s, seen)
    ensures Told(Next(s, Wake(why)), Look(s, seen, Wake(why)))
  {
    hide GoodWaiter, Waits, Kills;
  }

  lemma GraceTells(s: State, seen: Seen, finished: bool)
    requires Good(s) && Told(s, seen)
    ensures Told(Next(s, GraceEnds(finished)), Look(s, seen, GraceEnds(finished)))
  {
    hide GoodWaiter, Waits, Kills;
  }

  lemma ReapTells(s: State, seen: Seen, step: Step)
    requires Good(s) && Told(s, seen)
    requires step.SeeExited? || step.Collect? || step.WaitReturnsToReap? || step.Finish?
    ensures Told(Next(s, step), Look(s, seen, step))
  {
    KillsAppend(s.trace, WaitCalled);
    hide GoodWaiter, Waits, Kills;
  }

  lemma StepTells(s: State, seen: Seen, step: Step)
    requires Good(s) && Told(s, seen)
    ensures Told(Next(s, step), Look(s, seen, step))
  {
    match step
    case Kill => KillTells(s, seen);
    case GraceEnds(finished) => GraceTells(s, seen, finished);
    case Wake(why) => WakeTells(s, seen, why);
    case SeeExited => ReapTells(s, seen, step);
    case Collect => ReapTells(s, seen, step);
    case WaitReturnsToReap(_) => ReapTells(s, seen, step);
    case Finish => ReapTells(s, seen, step);
    case ChildExits =>
    case _ => WaiterTells(s, seen, step);
  }

  lemma {:induction false} RunTells(s: State, seen: Seen, steps: seq<Step>)
    requires Good(s) && Told(s, seen)
    ensures Told(RunAll(s, steps), SeenOf(s, seen, steps))
    decreases |steps|
  {
    if steps != [] {
      StepTells(s, seen, steps[0]);
      WaiterKeeps(s, steps[0]);
      SupervisorKeeps(WaiterStep(s, steps[0]), steps[0]);
      RunTells(Next(s, steps[0]), Look(s, seen, steps[0]), steps[1..]);
    }
  }

  function Witnessed(hasExitWaiter: bool, steps: seq<Step>): Seen { SeenOf(Start(hasExitWaiter), Seen(None, 0), steps) }

  lemma Telling(hasExitWaiter: bool, steps: seq<Step>)
    ensures Told(RunAll(Start(hasExitWaiter), steps), Witnessed(hasExitWaiter, steps))
  {
    RunTells(Start(hasExitWaiter), Seen(None, 0), steps);
  }

  /** Under every schedule the group is killed: by a supervisor woken by the timer or the
      cancellation before anything else it does, and on every path by the time it reaps;
      once more when the first wait of the grace runs out, before the second begins. */
  lemma KillsAreMade(hasExitWaiter: bool, steps: seq<Step>)
    ensures var s, seen := RunAll(Start(hasExitWaiter), steps), Witnessed(hasExitWaiter, steps);
      && (seen.woken.Some? && seen.woken != Some(Exited) && !s.supervisor.Killing? ==> KillAll in s.trace)
      && (s.supervisor.Awaiting? || s.supervisor.Collecting? || Collected(s.supervisor) ==>
            KillAll in s.trace && Kills(s.trace) == if seen.expired > 0 then 2 else 1)
      && (s.supervisor.Grace? && s.supervisor.stage >= 2 ==>
            KillAll in s.trace && (!s.supervisor.killAfter ==> Kills(s.trace) == 2))
  {
    Telling(hasExitWaiter, steps);
    KillsThere(RunAll(Start(hasExitWaiter), steps).trace);
  }

  /** The outcome is what woke the supervisor, and for an exit what the one wait returned;
      the output is reported cut short exactly when all three waits for the readers ran out. */
  lemma OutcomeIsTheCause(hasExitWaiter: bool, steps: seq<Step>)
    ensures var s, seen := RunAll(Start(hasExitWaiter), steps), Witnessed(hasExitWaiter, steps);
      && (s.supervisor.Done? ==> Ends(s.supervisor.outcome, seen.woken, s.result))
      && (s.readersStuck <==> seen.expired == 3)
  {
    Telling(hasExitWaiter, steps);
  }

  lemma OneStep(s: State, step: Step, t: State, rest: seq<Step>)
    requires t == Next(s, step)
    ensures RunAll(s, [step] + rest) == RunAll(t, rest)
  {
    assert ([step] + rest)[1..] == rest;
  }

  /** The ordinary end: the child exits, its group is killed while it is a zombie, the readers
      finish, and it is reaped by the supervisor, once. */
  lemma OrdinaryExit() returns (steps: seq<Step>)
    ensures var s := RunAll(Start(true), steps);
      s.watched && s.trace == [KillAll, WaitCalled] && s.supervisor == Done(RunCompleted) && s.child == Reaped
  {
    var reap := [SeeExited, Collect, WaitReturnsToReap(false), Finish];
    var drain := [Wake(Exited), Kill, GraceEnds(true)];
    var wait := [ChildExits, WaitExitReturns(true), Close];
    var a := Waited(wait);
    var b := DrainedOnce(a, drain);
    ReapedOnce(b, reap);
    RunInParts(Start(true), wait, drain + reap);
    RunInParts(a, drain, reap);
    steps := wait + (drain + reap);
  }

  lemma Waited(steps: seq<Step>) returns (t: State)
    requires steps == [ChildExits, WaitExitReturns(true), Close]
    ensures t == RunAll(Start(true), steps)
    ensures t == State(Zombie, Ended, true, false, true, None, Selecting, false, [], None)
  {
    var s := Start(true);
    t := Next(Next(Next(s, steps[0]), steps[1]), steps[2]);
    assert steps == [steps[0]] + ([steps[1]] + ([steps[2]] + []));
    OneStep(s, steps[0], Next(s, steps[0]), [steps[1]] + ([steps[2]] + []));
    OneStep(Next(s, steps[0]), steps[1], Next(Next(s, steps[0]), steps[1]), [steps[2]] + []);
    OneStep(Next(Next(s, steps[0]), steps[1]), steps[2], t, []);
  }

  lemma DrainedOnce(s: State, steps: seq<Step>) returns (t: State)
    requires s == State(Zombie, Ended, true, false, true, None, Selecting, false, [], None)
    requires steps == [Wake(Exited), Kill, GraceEnds(true)]
    ensures t == RunAll(s, steps)
    ensures t == State(Zombie, Ended, true, false, true, None, Awaiting(Exited), false, [KillAll], None)
  {
    t := Next(Next(Next(s, steps[0]), steps[1]), steps[2]);
    assert steps == [steps[0]] + ([steps[1]] + ([steps[2]] + []));
    OneStep(s, steps[0], Next(s, steps[0]), [steps[1]] + ([steps[2]] + []));
    OneStep(Next(s, steps[0]), steps[1], Next(Next(s, steps[0]), steps[1]), [steps[2]] + []);
    OneStep(Next(Next(s, steps[0]), steps[1]), steps[2], t, []);
  }

  lemma ReapedOnce(s: State, steps: seq<Step>)
    requires s == State(Zombie, Ended, true, false, true, None, Awaiting(Exited), false, [KillAll], None)
    requires steps == [SeeExited, Collect, WaitReturnsToReap(false), Finish]
    ensures var t := RunAll(s, steps);
      t.watched && t.trace == [KillAll, WaitCalled] && t.supervisor == Done(RunCompleted) && t.child == Reaped
  {
    var a := s.(supervisor := Collecting(Exited));
    var b := s.(trace := [KillAll, WaitCalled], supervisor := InWait(Exited));
    var c := b.(child := Reaped, result := Some(false), supervisor := Finishing(Exited, false));
    var d := c.(supervisor := Done(RunCompleted));
    assert Next(s, SeeExited) == a && Next(a, Collect) == b;
    assert Next(b, WaitReturnsToReap(false)) == c && Next(c, Finish) == d;
    hide Next, RunAll;
    OneStep(c, Finish, d, []);
    OneStep(b, WaitReturnsToReap(false), c, [Finish] + []);
    OneStep(a, Collect, b, [WaitReturnsToReap(false)] + ([Finish] + []));
    OneStep(s, SeeExited, a, [Collect] + ([WaitReturnsToReap(false)] + ([Finish] + [])));
    assert steps == [SeeExited] + ([Collect] + ([WaitReturnsToReap(false)] + ([Finish] + [])));
    NoSteps(d);
  }

  lemma NoSteps(s: State)
    ensures RunAll(s, []) == s
  {
  }

  // ---- Nobody is stranded ----

  function WaiterRank(w: Waiter): nat {
    match w
    case Watching => 6
    case Failed => 5
    case Marked => 4
    case Reaping => 3
    case Sending => 2
    case Closing => 1
    case Ended => 0
  }

  function WaiterMove(w: Waiter): Step {
    match w
    case Watching => WaitExitReturns(true)
    case Failed => Mark
    case Marked => CallWait
    case Reaping => WaitReturns(false)
    case Sending => Send
    case _ => Close
  }

  lemma WaiterFalls(s: State, step: Step)
    ensures var t := WaiterStep(s, step);
      && t.supervisor == s.supervisor && (t.child == Alive ==> s.child == Alive)
      && (t != s ==> WaiterRank(t.waiter) < WaiterRank(s.waiter))
  {
  }

  /** Once the child is dead the waiter closes exited on its own. */
  lemma {:induction false} WaiterEnds(s: State) returns (steps: seq<Step>)
    requires Good(s) && s.child != Alive
    ensures RunAll(s, steps).exited && RunAll(s, steps).supervisor == s.supervisor
    ensures |steps| <= WaiterRank(s.waiter) && RunAll(s, steps).child != Alive
    decreases WaiterRank(s.waiter)
  {
    if s.waiter.Ended? {
      steps := [];
    } else {
      var step := WaiterMove(s.waiter);
      var t := Next(s, step);
      WaiterMoves(s);
      var rest := WaiterEnds(t);
      steps := [step] + rest;
      assert steps[1..] == rest;
    }
  }

  lemma WaiterCanMove(s: State)
    requires GoodWaiter(s) && s.child != Alive && !s.waiter.Ended?
    ensures var step := WaiterMove(s.waiter); Next(s, step) == WaiterStep(s, step) != s
  {
  }

  lemma WaiterMoves(s: State)
    requires Good(s) && s.child != Alive && !s.waiter.Ended?
    ensures var t := Next(s, WaiterMove(s.waiter));
      Good(t) && t.child != Alive && t.supervisor == s.supervisor && WaiterRank(t.waiter) < WaiterRank(s.waiter)
  {
    WaiterCanMove(s);
    hide WaiterMove, WaiterStep, SupervisorStep, WaiterRank;
    WaiterKeeps(s, WaiterMove(s.waiter));
    WaiterFalls(s, WaiterMove(s.waiter));
  }

  function SupervisorRank(p: Supervisor): nat {
    match p
    case Selecting => 11
    case Killing(_) => 10
    case Grace(_, stage, _) => if stage <= 1 then 9 else if stage == 2 then 7 else 6
    case GraceKilling(_, _) => 8
    case LateKilling(_) => 5
    case Awaiting(_) => 4
    case Collecting(_) => 3
    case InWait(_) => 2
    case Finishing(_, _) => 1
    case Done(_) => 0
  }

  function SupervisorMove(p: Supervisor): Step {
    match p
    case Selecting => Wake(Exited)
    case Killing(_) => Kill
    case Grace(_, _, _) => GraceEnds(true)
    case GraceKilling(_, _) => Kill
    case LateKilling(_) => Kill
    case Awaiting(_) => SeeExited
    case Collecting(_) => Collect
    case InWait(_) => WaitReturnsToReap(false)
    case _ => Finish
  }

  lemma SupervisorLeaves(s: State, step: Step)
    ensures var t := SupervisorStep(s, step);
      t.waiter == s.waiter && t.exited == s.exited && (t.child == Alive ==> s.child == Alive)
  {
  }

  lemma SupervisorFalls(s: State, step: Step)
    ensures var t := SupervisorStep(s, step); t != s ==> SupervisorRank(t.supervisor) < SupervisorRank(s.supervisor)
  {
    if step.GraceEnds? {
      GraceFalls(s, step.finished);
    } else {
      hide Drained;
    }
  }

  lemma GraceFalls(s: State, finished: bool)
    ensures var t := SupervisorStep(s, GraceEnds(finished));
      t != s ==> SupervisorRank(t.supervisor) < SupervisorRank(s.supervisor)
  {
  }

  lemma SupervisorCanMove(s: State)
    requires Good(s) && s.exited && s.child != Alive && !s.supervisor.Done?
    ensures var step := SupervisorMove(s.supervisor); Next(s, step) == SupervisorStep(s, step) != s
  {
    hide Waits;
  }

  lemma SupervisorMoves(s: State)
    requires Good(s) && s.exited && s.child != Alive && !s.supervisor.Done?
    ensures var t := Next(s, SupervisorMove(s.supervisor));
      Good(t) && t.exited && t.child != Alive && SupervisorRank(t.supervisor) < SupervisorRank(s.supervisor)
  {
    SupervisorCanMove(s);
    hide SupervisorMove, WaiterStep, SupervisorStep, SupervisorRank;
    SupervisorKeeps(s, SupervisorMove(s.supervisor));
    SupervisorLeaves(s, SupervisorMove(s.supervisor));
    SupervisorFalls(s, SupervisorMove(s.supervisor));
  }

  /** With exited closed the supervisor finishes without waiting for anyone. */
  lemma {:induction false} SupervisorEnds(s: State) returns (steps: seq<Step>)
    requires Good(s) && s.exited && s.child != Alive
    ensures RunAll(s, steps).supervisor.Done?
    decreases SupervisorRank(s.supervisor)
  {
    if s.supervisor.Done? {
      steps := [];
    } else {
      var step := SupervisorMove(s.supervisor);
      SupervisorMoves(s);
      var rest := SupervisorEnds(Next(s, step));
      steps := [step] + rest;
      assert steps[1..] == rest;
    }
  }

  lemma {:induction false} RunInParts(s: State, a: seq<Step>, b: seq<Step>)
    ensures RunAll(s, a + b) == RunAll(RunAll(s, a), b)
    decreases |a|
  {
    if a == [] {
      assert a + b == b;
    } else {
      assert (a + b)[0] == a[0] && (a + b)[1..] == a[1..] + b;
      RunInParts(Next(s, a[0]), a[1..], b);
    }
  }

  /** From wherever it has come, the child's death alone lets the run be finished: no
      interleaving leads to a state in which reap waits for something nobody will send. */
  lemma NobodyStranded(hasExitWaiter: bool, steps: seq<Step>) returns (more: seq<Step>)
    ensures RunAll(Start(hasExitWaiter), steps + more).supervisor.Done?
  {
    var s := RunAll(Start(hasExitWaiter), steps);
    Reached(hasExitWaiter, steps);
    RunKeeps(s, [ChildExits]);
    var t := RunAll(s, [ChildExits]);
    assert t == Next(s, ChildExits) by { assert [ChildExits][1..] == []; }
    var a := WaiterEnds(t);
    RunKeeps(t, a);
    var b := SupervisorEnds(RunAll(t, a));
    more := [ChildExits] + (a + b);
    RunInParts(Start(hasExitWaiter), steps, more);
    RunInParts(s, [ChildExits], a + b);
    RunInParts(t, a, b);
  }

  // ---- However it is scheduled ----

  /** What is still to happen, counted in steps. */
  function Rank(s: State): (r: nat)
    ensures r <= 18
  {
    (if s.child == Alive then 1 else 0) + WaiterRank(s.waiter) + SupervisorRank(s.supervisor)
  }

  /** No step can be taken. */
  ghost predicate Stuck(s: State) { forall step :: Next(s, step) == s }

  /** Every step that is taken brings the end nearer, whoever takes it. */
  lemma EveryStepCounts(s: State, step: Step)
    ensures Next(s, step) != s ==> Rank(Next(s, step)) < Rank(s)
  {
    if !step.ChildExits? {
      WaiterFalls(s, step);
      SupervisorLeaves(WaiterStep(s, step), step);
      SupervisorFalls(WaiterStep(s, step), step);
      hide WaiterStep, SupervisorStep, WaiterRank, SupervisorRank;
    }
  }

  /** How many of the steps are taken rather than skipped. */
  function Taken(s: State, steps: seq<Step>): nat
    decreases |steps|
  {
    if steps == [] then 0 else (if Next(s, steps[0]) != s then 1 else 0) + Taken(Next(s, steps[0]), steps[1..])
  }

  lemma {:induction false} TakenAtMost(s: State, steps: seq<Step>)
    ensures Taken(s, steps) + Rank(RunAll(s, steps)) <= Rank(s)
    decreases |steps|
  {
    if steps != [] {
      EveryStepCounts(s, steps[0]);
      TakenAtMost(Next(s, steps[0]), steps[1..]);
    }
  }

  lemma StuckIsDone(s: State)
    requires Good(s)
    ensures Stuck(s) <==> s.supervisor.Done? && s.waiter.Ended?
  {
    if s.supervisor.Done? && s.waiter.Ended? {
      forall step ensures Next(s, step) == s {}
    } else if s.child == Alive {
      assert Next(s, ChildExits) != s;
    } else if !s.waiter.Ended? {
      WaiterCanMove(s);
      assert Next(s, WaiterMove(s.waiter)) != s;
    } else {
      SupervisorCanMove(s);
      assert Next(s, SupervisorMove(s.supervisor)) != s;
    }
  }

  /** Under every schedule: at most eighteen steps are ever taken, and until the run is
      done and the waiter gone some step can be taken. So whatever goes on taking steps
      that can be taken finishes the run, through every stage of the grace periods. */
  lemma EveryScheduleFinishes(hasExitWaiter: bool, steps: seq<Step>)
    ensures var s := RunAll(Start(hasExitWaiter), steps);
      && Taken(Start(hasExitWaiter), steps) <= 18
      && (Stuck(s) <==> s.supervisor.Done? && s.waiter.Ended?)
      && (s.child != Alive && !s.waiter.Ended? ==> Next(s, WaiterMove(s.waiter)) != s)
      && (s.child != Alive && s.exited && !s.supervisor.Done? ==> Next(s, SupervisorMove(s.supervisor)) != s)
  {
    var s := RunAll(Start(hasExitWaiter), steps);
    Reached(hasExitWaiter, steps);
    TakenAtMost(Start(hasExitWaiter), steps);
    StuckIsDone(s);
    if s.child != Alive && !s.waiter.Ended? { WaiterCanMove(s); }
    if s.child != Alive && s.exited && !s.supervisor.Done? { SupervisorCanMove(s); }
  }
}
