/** The run object itself: fields under one lock, a capacity-one verdict channel,
    and sends made after the fields are cleared. Each method is one call with no
    other goroutine inside it; module VerdictProtocol interleaves the same steps. */
module RunObject {
  import opened Wrappers
  import opened RunLifecycle
  import Utf8

  const MAX_STEER_BYTES := 64 * 1024

  datatype AnswerError = SteerTooLarge | Unresolved(why: ResolveError)

  /** Bytes of one character in UTF-8 (RFC 3629 section 3). */
  function RuneBytes(c: char): (n: nat)
    ensures 1 <= n <= 4
  {
    if c as int < 0x80 then 1 else if c as int < 0x800 then 2 else if c as int < 0x10000 then 3 else 4
  }

  function ByteLength(s: string): nat {
    if s == "" then 0 else RuneBytes(s[0]) + ByteLength(s[1..])
  }

  function RunesOf(s: string): seq<Utf8.Rune> { if s == "" then [] else [s[0] as int] + RunesOf(s[1..]) }

  /** The length that is limited is that of the text's encoding. */
  lemma {:induction false} ByteLengthIsEncoded(s: string)
    ensures ByteLength(s) == |Utf8.EncodeAll(RunesOf(s))|
  {
    if s != "" {
      ByteLengthIsEncoded(s[1..]);
      assert RunesOf(s)[1..] == RunesOf(s[1..]);
    }
  }

  predicate IsControl(c: char) {
    c != '\t' && c != '\n' && (c as int < 0x20 || 0x7f <= c as int <= 0x9f)
  }

  /** Removes C0 and C1 controls, keeping tab and newline. */
  function StripControl(s: string): string {
    if s == "" then "" else if IsControl(s[0]) then StripControl(s[1..]) else [s[0]] + StripControl(s[1..])
  }

  /** No control character survives, and a text without any is delivered as typed. */
  lemma {:induction false} StripControlExact(s: string)
    ensures forall c :: c in StripControl(s) <==> c in s && !IsControl(c)
    ensures StripControl(s) == s <==> forall c :: c in s ==> !IsControl(c)
    ensures |StripControl(s)| <= |s|
  {
    if s != "" {
      StripControlExact(s[1..]);
      assert s == [s[0]] + s[1..];
      assert forall c :: c in s <==> c == s[0] || c in s[1..];
    }
  }

  /** Character by character, in order. */
  lemma {:induction false} StripControlInOrder(a: string, b: string)
    ensures StripControl(a + b) == StripControl(a) + StripControl(b)
    ensures forall c: char :: StripControl([c]) == if IsControl(c) then "" else [c]
    decreases |a|
  {
    hide IsControl;
    if a == "" {
      assert a + b == b && "" + StripControl(b) == StripControl(b);
    } else {
      StripControlInOrder(a[1..], b);
      assert (a + b)[1..] == a[1..] + b;
    }
    forall c: char ensures StripControl([c]) == if IsControl(c) then "" else [c] { StripControlOfOne(c); }
  }

  lemma StripControlOfOne(c: char)
    ensures StripControl([c]) == if IsControl(c) then "" else [c]
  {
    hide IsControl;
    assert [c][1..] == "" && StripControl("") == "";
    assert [c] + "" == [c];
  }

  /** A Go channel of capacity one. A second send would block and a send after
      close would panic, so both are preconditions here. */
  class VerdictChannel {
    const id: ChanId
    var buffered: seq<Verdict>
    var closed: bool

    constructor (id: ChanId)
      ensures this.id == id && Untouched()
    {
      this.id := id;
      buffered := [];
      closed := false;
    }

    predicate Untouched()
      reads this
    {
      buffered == [] && !closed
    }

    predicate Delivered(v: Verdict)
      reads this
    {
      buffered == [v] && closed
    }

    method Send(v: Verdict)
      requires Untouched()
      modifies this
      ensures buffered == [v] && !closed
    {
      buffered := [v];
    }

    method Close()
      requires !closed
      modifies this
      ensures closed && buffered == old(buffered)
    {
      closed := true;
    }
  }

  class Run {
    const id: RunId
    const confined: bool
    const resumedFrom: Option<RunId>
    var state: State
    var retiring: bool
    var output: string
    var failure: string
    var diag: string
    var exitCode: Option<int>
    var truncated: bool
    var finished: Option<int>
    var doneClosed: bool
    var awaited: bool
    var cancelRequested: bool
    var pending: Option<Question>
    var verdict: Option<VerdictChannel>
    var lastQuestion: Option<Question>
    var deadline: Option<int>
    var worktree: Option<Worktree>
    var continuation: Option<ContinuationRecord>
    var resumedBy: Option<RunId>

    function View(): RunView
      reads this
    {
      RunView(id, confined, resumedFrom, state, retiring, Report(output, failure, diag, exitCode, truncated), finished,
              doneClosed, awaited, pending, if verdict.Some? then Some(verdict.value.id) else None, lastQuestion,
              deadline, worktree, continuation, resumedBy)
    }

    function Channels(): set<object>
      reads this
    {
      if verdict.Some? then {verdict.value} else {}
    }

    ghost predicate Valid()
      reads this, Channels()
    {
      Inv(View()) && (verdict.Some? ==> verdict.value.Untouched())
    }

    constructor (id: RunId, confined: bool, worktree: Option<Worktree>, continuation: Option<ContinuationRecord>,
                 resumedFrom: Option<RunId>)
      ensures Valid() && !cancelRequested
      ensures View() == Fresh(id, confined, worktree, continuation, resumedFrom)
    {
      this.id := id;
      this.confined := confined;
      this.resumedFrom := resumedFrom;
      state, retiring, output, failure, diag := Running, false, "", "", "";
      exitCode, truncated, finished, doneClosed, awaited, cancelRequested := None, false, None, false, false, false;
      pending, verdict, lastQuestion, deadline := None, None, None, None;
      this.worktree := worktree;
      this.continuation := continuation;
      resumedBy := None;
    }

    method Ask(q: Question, chan: ChanId, now: int) returns (r: Result<VerdictChannel, AskError>)
      requires Valid()
      modifies this
      ensures Valid() && cancelRequested == old(cancelRequested)
      ensures match r
              case Ok(ch) => 
                fresh(ch) && verdict == Some(ch) && ch.id == chan && AskRefusal(old(View())).None?
                && View() == RunLifecycle.Ask(old(View()), q, chan, now)
              case Err(e) => AskRefusal(old(View())) == Some(e) && View() == old(View())
    {
      if state.IsTerminal() || state == NeedsInput {
        return Err(RunNotLive);
      }
      if pending.Some? {
        return Err(QuestionPending);
      }
      var asked := if q.asked.None? then q.(asked := Some(now)) else q;
      var ch := new VerdictChannel(chan);
      pending := Some(asked);
      lastQuestion := Some(asked);
      verdict := Some(ch);
      return Ok(ch);
    }

    /** Delivers while still holding the lock. */
    method ResolvePending(wantId: string, v: Verdict) returns (e: Option<ResolveError>)
      requires Valid()
      modifies this, Channels()
      ensures Valid() && cancelRequested == old(cancelRequested)
      ensures e == ResolveRefusal(old(View()), wantId)
      ensures View() == Resolve(old(View()), wantId, v).view
      ensures e.None? ==> old(verdict).Some? && old(verdict).value.Delivered(v)
      ensures e.Some? ==> verdict == old(verdict) && forall ch <- old(Channels()) :: unchanged(ch)
    {
      if pending.None? {
        return Some(NoQuestion);
      }
      if wantId != "" && pending.value.id != wantId {
        return Some(QuestionChanged);
      }
      pending := None;
      var ch := verdict.value;
      verdict := None;
      ch.Send(v);
      ch.Close();
      return None;
    }

    method AnswerQuestion(questionId: string, text: string) returns (e: Option<AnswerError>)
      requires Valid()
      modifies this, Channels()
      ensures Valid() && cancelRequested == old(cancelRequested)
      ensures e == if ByteLength(text) > MAX_STEER_BYTES then Some(SteerTooLarge)
                   else if ResolveRefusal(old(View()), questionId).Some? then
                     Some(Unresolved(ResolveRefusal(old(View()), questionId).value))
                   else None
      ensures e.Some? ==> View() == old(View()) && forall ch <- old(Channels()) :: unchanged(ch)
      ensures e.None? ==>
                && old(verdict).Some? && View() == Released(old(View()))
                && old(verdict).value.Delivered(Verdict(true, StripControl(text)))
    {
      if ByteLength(text) > MAX_STEER_BYTES {
        return Some(SteerTooLarge);
      }
      var why := ResolvePending(questionId, Verdict(true, StripControl(text)));
      e := if why.Some? then Some(Unresolved(why.value)) else None;
    }

    method DenyQuestion(message: string) returns (e: Option<ResolveError>)
      requires Valid()
      modifies this, Channels()
      ensures Valid() && cancelRequested == old(cancelRequested)
      ensures e == ResolveRefusal(old(View()), "")
      ensures e.Some? ==> View() == old(View())
      ensures e.None? ==> old(verdict).Some? && View() == Released(old(View()))
                          && old(verdict).value.Delivered(Verdict(true, message))
    {
      e := ResolvePending("", Verdict(true, message));
    }

    /** The question and its channel are cleared together; the caller owes the channel a send. */
    method Release() returns (owed: Option<VerdictChannel>)
      requires pending.Some? <==> verdict.Some?
      modifies `pending, `verdict
      ensures owed == old(verdict) && verdict == None
      ensures View() == Released(old(View()))
    {
      owed := if pending.Some? then verdict else None;
      pending, verdict := None, None;
    }

    /** The part of needs_input under the lock; the caller owes the returned channel a send. */
    method ClearForInput(reason: string, now: int) returns (owed: Option<VerdictChannel>)
      requires Valid()
      modifies this
      ensures Valid() && owed == old(verdict)
      ensures View() == EnterNeedsInput(old(View()), reason, now).view && verdict == None
      ensures cancelRequested == old(cancelRequested)
    {
      if state.IsTerminal() || state == NeedsInput {
        return None;
      }
      StepKeepsInv(View(), OpNeedsInput(reason, now));
      Rest(reason, now);
      owed := Release();
    }

    /** done is open until here, since the run was still running. */
    method Rest(reason: string, now: int)
      modifies `state, `failure, `deadline, `doneClosed
      ensures View() == old(View()).(state := NeedsInput, report := old(View()).report.(failure := reason),
                                     deadline := RestDeadline(old(View()), now), doneClosed := true)
    {
      deadline := RestDeadline(View(), now);
      state, failure, doneClosed := NeedsInput, reason, true;
    }

    /** Clears the question with the state, sends after unlocking, then cancels the child. */
    method StopForInput(reason: string, now: int)
      requires Valid()
      modifies this, Channels()
      ensures Valid()
      ensures View() == EnterNeedsInput(old(View()), reason, now).view
      ensures old(verdict).Some? ==> old(verdict).value.Delivered(Verdict(true, reason))
      ensures cancelRequested == (old(cancelRequested) || old(state) == Running)
    {
      var settled := state.IsTerminal() || state == NeedsInput;
      var owed := ClearForInput(reason, now);
      if owed.Some? {
        owed.value.Send(Verdict(true, reason));
        owed.value.Close();
      }
      if !settled {
        cancelRequested := true;
      }
    }

    /** What the child left behind; an earlier diagnostic stays in front. */
    method TakeReport(report: Report)
      modifies `output, `failure, `diag, `exitCode, `truncated
      ensures View() == old(View()).(report := Report(report.output, report.failure, MergeDiag(old(diag), report.diag),
                                                      report.exitCode, report.truncated))
    {
      hide MergeDiag;
      diag := MergeDiag(diag, report.diag);
      output, failure, exitCode, truncated := report.output, report.failure, report.exitCode, report.truncated;
    }

    /** The exit is what the run holds; its diagnostic may have an earlier one in front. */
    predicate Settled(x: Exit, now: int)
      reads this
    {
      && state == x.state && finished == Some(now) && pending == None
      && output == x.report.output && failure == x.report.failure
      && exitCode == x.report.exitCode && truncated == x.report.truncated
    }

    method Settle(s: State, now: int)
      modifies `state, `finished, `doneClosed
      ensures View() == old(View()).(state := s, finished := Some(now), doneClosed := true)
    {
      state, finished, doneClosed := s, Some(now), true;
    }

    /** The part of finish under the lock. */
    method ClearForExit(x: Exit, now: int) returns (owed: Option<VerdictChannel>)
      requires Valid() && ExitState(x.state)
      modifies this
      ensures Valid() && owed == old(verdict)
      ensures View() == RunLifecycle.Finish(old(View()), x, now).view && verdict == None
      ensures old(state) == Running ==> Settled(x, now)
      ensures old(state) != Running ==> View() == old(View())
      ensures cancelRequested == old(cancelRequested)
    {
      if state.IsTerminal() || state == NeedsInput {
        return None;
      }
      StepKeepsInv(View(), OpFinish(x, now));
      TakeReport(x.report);
      Settle(x.state, now); // done is open until here, since the run was still running
      owed := Release();
    }

    method Finish(x: Exit, now: int)
      requires Valid() && ExitState(x.state)
      modifies this, Channels()
      ensures Valid() && cancelRequested == old(cancelRequested)
      ensures View() == RunLifecycle.Finish(old(View()), x, now).view
      ensures old(state) == Running ==> Settled(x, now)
      ensures old(state) != Running ==> View() == old(View())
      ensures old(verdict).Some? ==> old(verdict).value.Delivered(Verdict(true, x.report.failure))
    {
      var owed := ClearForExit(x, now);
      if owed.Some? {
        owed.value.Send(Verdict(true, x.report.failure));
        owed.value.Close();
      }
    }

    /** Returns the transition to audit, dispatched with no lock held. */
    method ExpireIfDue(now: int) returns (event: Option<Event>)
      requires Valid()
      modifies this
      ensures Valid() && cancelRequested == old(cancelRequested)
      ensures View() == Expire(old(View()), now).view
      ensures event == Expire(old(View()), now).event
      ensures event.Some? <==> Due(old(View()), now)
      ensures Expire(old(View()), now).send.None?
    {
      if state != NeedsInput || deadline.None? || now <= deadline.value {
        return None;
      }
      StepKeepsInv(View(), OpExpire(now));
      failure, diag := EXPIRY_REASON, EXPIRY_REASON;
      Settle(Failed, now); // done is closed already: needs_input closes it
      return Some(Expired(id));
    }

    method SetDiagnostic(msg: string)
      requires Valid()
      modifies this
      ensures Valid() && cancelRequested == old(cancelRequested)
      ensures View() == RunLifecycle.SetDiagnostic(old(View()), msg)
    {
      if diag == "" {
        diag := msg;
      }
    }

    method SetContinuation(rec: ContinuationRecord)
      requires Valid()
      modifies this
      ensures Valid() && cancelRequested == old(cancelRequested)
      ensures View() == old(View()).(continuation := Some(rec))
    {
      continuation := Some(rec);
    }

    method TakeContinuation() returns (r: Result<ContinuationRecord, ContinuationError>)
      requires Valid()
      modifies this
      ensures Valid() && cancelRequested == old(cancelRequested)
      ensures View() == RunLifecycle.TakeContinuation(old(View()))
      ensures match r
              case Ok(rec) => TakeRefusal(old(View())).None? && old(continuation) == Some(rec) && continuation == None
              case Err(e) => TakeRefusal(old(View())) == Some(e)
    {
      if state != NeedsInput {
        return Err(NotAwaitingInput);
      }
      if continuation.None? {
        return Err(ContinuationUnavailable);
      }
      var rec := continuation.value;
      continuation := None;
      return Ok(rec);
    }

    method Supersede(successor: RunId, now: int) returns (r: Result<Event, ContinuationError>)
      requires Valid()
      modifies this
      ensures Valid() && cancelRequested == old(cancelRequested)
      ensures View() == RunLifecycle.Supersede(old(View()), successor, now).view
      ensures r == if old(state) != NeedsInput then Err(NotAwaitingInput) else Ok(SupersededBy(id, successor))
      ensures r.Ok? <==> RunLifecycle.Supersede(old(View()), successor, now).event == Some(SupersededBy(id, successor))
    {
      if state != NeedsInput {
        return Err(NotAwaitingInput);
      }
      StepKeepsInv(View(), OpSupersede(successor, now));
      resumedBy, continuation := Some(successor), None;
      Settle(Superseded, now); // done is closed already: needs_input closes it
      return Ok(SupersededBy(id, successor));
    }

    method TakeWorktree() returns (wt: Option<Worktree>)
      requires Valid()
      modifies this
      ensures Valid() && cancelRequested == old(cancelRequested)
      ensures wt == old(worktree) && View() == old(View()).(worktree := None)
    {
      wt := worktree;
      worktree := None;
    }

    method Retire()
      requires Valid()
      modifies this
      ensures Valid() && cancelRequested == old(cancelRequested)
      ensures View() == old(View()).(retiring := true) && !View().CountsAsLive()
    {
      retiring := true;
    }
  }
}
