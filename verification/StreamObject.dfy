/** The loop of streamEvents over its objects (internal/run/stream.go). */
module StreamObject {
  import opened Wrappers
  import opened Utf8
  import opened LineReading
  import opened EventStream
  import C = Capped

  const DEFAULT_MAX_EVENT_BYTES := 0x100000

  function LineLimit(maxEventBytes: int): nat {
    if maxEventBytes <= 0 then DEFAULT_MAX_EVENT_BYTES else maxEventBytes
  }

  /** One attempt to append to the transcript, which goes no further once a write failed. */
  method Append(v: Vendor, t: Tape, e: Event, notes: RunNotes) returns (u: Tape)
    requires notes.Valid()
    modifies notes
    ensures u == Attempted(t, e, v.outcome)
    ensures notes.View() == Remark(old(notes.View()), t, v.outcome) && notes.Valid()
  {
    if t.failed { return t; }
    u := t.(attempted := t.attempted + [e]);
    match v.outcome(|t.attempted|) {
      case Recorded =>
      case WriteFailed(err) =>
        notes.SetDiagnostic(WriteFault(err));
        u := u.(failed := true);
      case OverLimit =>
        notes.Overflow();
        u := u.(stopped := true);
    }
  }

  /** The switch on an event's kind. */
  method Hear(e: Event, v: Vendor, out: C.Capped, notes: RunNotes, sawMessage: bool, truncated: bool)
    returns (saw: bool, cut: bool)
    requires out.Valid() && out.limit == v.limit && notes.Valid()
    modifies out, notes
    ensures out.Valid() && notes.Valid()
    ensures Said(out.offered, cut, saw) == Speak(Said(old(out.offered), truncated, sawMessage), e, v.limit)
    ensures notes.View() == Note(old(notes.View()), e, v.closesStdin)
  {
    hide C.Over, C.Kept, SetSession, NoteError, NoteFailure;
    saw, cut := sawMessage, truncated;
    if e.session != [] { notes.SetVendorSession(e.session); }
    match e.kind {
      case Message =>
        if e.text != [] {
          saw := true;
          var over := out.Append(e.text + [NL]);
          if over { cut := true; }
        }
      case VendorError => notes.NoteVendorError(e.text);
      case RunFailed => notes.NoteVendorFailure(e.text);
      case RunFinished =>
        if e.text != [] && !saw {
          var over := out.Append(e.text + [NL]);
          if over { cut := true; }
        }
      case _ =>
    }
    if e.kind == RunFinished && v.closesStdin { notes.CloseSteer(); }
  }

  /** What the reader has got through: the items so far, and where they led. */
  ghost predicate Reached(p: Progress, items: seq<Item>, begin: Progress, v: Vendor) {
    p == Consume(begin, items, v)
  }

  lemma OneStep(p: Progress, item: Item, items: seq<Item>, begin: Progress, v: Vendor)
    requires Reached(p, items, begin, v) && !p.tape.stopped
    ensures Reached(Step(p, item, v), items + [item], begin, v)
  {
    ConsumeAppend(begin, items, [item], v);
    assert Consume(p, [item], v) == Consume(Step(p, item, v), [], v);
  }

  /** Where the transcript stops the run, the lines not read make no difference. */
  lemma StoppedShort(p: Progress, items: seq<Item>, rest: Bytes, s: Bytes, max: nat, begin: Progress, v: Vendor,
                     fault: bool)
    requires Reached(p, items, begin, v) && p.tape.stopped && Halfway(items, rest, s, max)
    ensures Reached(p, Items(s, max), begin, v) && AsRead(Items(s, max), s, max, fault)
  {
    ConsumeAppend(begin, items, Items(rest, max), v);
  }

  lemma NothingYet(begin: Progress, v: Vendor)
    ensures Reached(begin, [], begin, v)
  {
  }

  function Ended(n: Notes, stopped: bool, fault: Option<string>): Notes {
    if !stopped && fault.Some? then SetDiag(n, ReadFault(fault.value)) else n
  }

  /** The loop does what consuming the lines one by one does; a read that fails leaves a
      diagnostic. */
  method StreamEvents(br: BufReader, maxEventBytes: int, v: Vendor, out: C.Capped, notes: RunNotes)
    returns (truncated: bool, ghost items: seq<Item>)
    requires br.size >= 2 && out.Valid() && out.limit == v.limit && out.offered == [] && notes.Valid()
    modifies br, out, notes
    ensures AsRead(items, old(br.rest), LineLimit(maxEventBytes), br.fault.Some?)
    ensures var q := Consume(Begin(old(notes.View())), items, v);
      && out.Valid() && out.offered == q.said.offered
      && notes.View() == Ended(q.notes, q.tape.stopped, br.fault) && notes.Valid()
      && truncated == q.said.truncated
  {
    hide Items, Consume, AsRead, Halfway, FirstLine, AfterLine, LineEnd, Unended;
    hide C.Over, C.Kept, C.Capped.Valid, Note, Speak, Remark, Attempted, RunNotes.Valid, RunNotes.View;
    var max := LineLimit(maxEventBytes);
    var lr := new LineReader(br, max);
    truncated, items := false, [];
    var sawMessage := false;
    var tape := Tape([], false, false);
    ghost var input, begin := br.rest, Begin(notes.View());
    ghost var p := begin;
    AtTheStart(br.rest, max);
    NothingYet(begin, v);
    while true
      invariant Reached(p, items, begin, v) && Halfway(items, br.rest, input, max)
      invariant out.Valid() && notes.Valid() && !tape.stopped
      invariant p.said == Said(out.offered, truncated, sawMessage) && p.notes == notes.View() && p.tape == tape
      decreases |br.rest|
    {
      ghost var before, was, had := br.rest, p, items;
      var line, tooLong, ended := lr.Next();
      ghost var item := Limited(FirstLine(before), max);
      if before != [] {
        OneItem(items, before, input, max);
        OneStep(p, item, items, begin, v);
        items := items + [item];
        p := Step(p, item, v);
      }
      if tooLong {
        truncated := true;
        tape := Append(v, tape, OVERSIZED, notes);
        if tape.stopped {
          StoppedShort(p, items, br.rest, input, max, begin, v, br.fault.Some?);
          items := Items(input, max);
          return;
        }
      }
      if ended {
        if !tooLong { items, p := had, was; }
        AtTheEnd(had, before, tooLong, input, max, br.fault.Some?);
        assert items == if tooLong then had + [TooLong] else had;
        if br.fault.Some? { notes.SetDiagnostic(ReadFault(br.fault.value)); }
        return;
      }
      if tooLong || |line| == 0 { continue; }
      var parsed := v.parse(line);
      if parsed.None? { continue; }
      sawMessage, truncated := Hear(parsed.value, v, out, notes, sawMessage, truncated);
      tape := Append(v, tape, parsed.value, notes);
      if tape.stopped {
        StoppedShort(p, items, br.rest, input, max, begin, v, br.fault.Some?);
        items := Items(input, max);
        return;
      }
    }
  }
}
