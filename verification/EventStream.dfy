/** Turning a vendor's line-delimited output into a run's answer
    (internal/run/stream.go). The parser and the transcript are foreign: the parser is
    any function of a line, and what happened to each attempted append is given. */
module EventStream {
  import opened Wrappers
  import opened Utf8
  import opened LineReading
  import C = Capped

  datatype Kind = Message | VendorError | RunFailed | RunFinished | Oversized | Other

  datatype Event = Event(kind: Kind, text: Bytes, session: Bytes)

  datatype Appended = Recorded | WriteFailed(err: string) | OverLimit

  datatype Vendor = Vendor(parse: Bytes -> Option<Event>, outcome: nat -> Appended, limit: int, closesStdin: bool)

  const MAX_VENDOR_ERRORS := 10

  /** What the transcript gets in the place of a line over the limit, its fixed text aside. */
  const OVERSIZED := Event(Oversized, [], [])

  // ---- What the stream says ----

  /** The events a whole stream amounts to: every non-empty line within the limit that
      the parser accepts, in order. */
  function Parsed(items: seq<Item>, parse: Bytes -> Option<Event>): seq<Event> {
    if items == [] then []
    else ParsedOne(items[0], parse) + Parsed(items[1..], parse)
  }

  function ParsedOne(item: Item, parse: Bytes -> Option<Event>): seq<Event> {
    if item.TooLong? || item.bytes == [] || parse(item.bytes).None? then [] else [parse(item.bytes).value]
  }

  predicate Says(e: Event) { e.kind == Message && e.text != [] }

  predicate SomeSays(es: seq<Event>) { exists i :: 0 <= i < |es| && Says(es[i]) }

  /** What an event adds to the answer: a message its text; a result record its text only
      when no message preceded it. */
  function Contribution(earlier: seq<Event>, e: Event): Bytes {
    if Says(e) || (e.kind == RunFinished && e.text != [] && !SomeSays(earlier)) then e.text + [NL] else []
  }

  function Answer(es: seq<Event>): Bytes {
    if es == [] then [] else Answer(es[..|es| - 1]) + Contribution(es[..|es| - 1], es[|es| - 1])
  }

  /** The first non-empty one wins. */
  function First(texts: seq<Bytes>): Bytes {
    if texts == [] then [] else if texts[0] != [] then texts[0] else First(texts[1..])
  }

  function Sessions(es: seq<Event>): seq<Bytes> {
    if es == [] then [] else Sessions(es[..|es| - 1]) + [es[|es| - 1].session]
  }

  function TextsOf(es: seq<Event>, kind: Kind): seq<Bytes> {
    if es == [] then []
    else TextsOf(es[..|es| - 1], kind) + (if es[|es| - 1].kind == kind then [es[|es| - 1].text] else [])
  }

  function NonEmpty(texts: seq<Bytes>): seq<Bytes> {
    if texts == [] then []
    else NonEmpty(texts[..|texts| - 1]) + (if texts[|texts| - 1] != [] then [texts[|texts| - 1]] else [])
  }

  function AtMost(texts: seq<Bytes>, n: nat): seq<Bytes> { if |texts| > n then texts[..n] else texts }

  // ---- What the run notes ----

  datatype Notes = Notes(session: Bytes, errorCount: nat, errors: seq<Bytes>, failure: Bytes, stdinClosed: bool,
                         diag: string, overflow: bool)

  const NoNotes := Notes([], 0, [], [], false, "", false)

  function SetSession(n: Notes, id: Bytes): Notes { if n.session == [] then n.(session := id) else n }

  function NoteError(n: Notes, text: Bytes): Notes {
    if n.errorCount >= MAX_VENDOR_ERRORS then n
    else n.(errorCount := n.errorCount + 1, errors := n.errors + (if text != [] then [text] else []))
  }

  function NoteFailure(n: Notes, text: Bytes): Notes {
    if text == [] || n.failure != [] then n else n.(failure := text)
  }

  function SetDiag(n: Notes, msg: string): Notes { if n.diag == "" then n.(diag := msg) else n }

  function WriteFault(err: string): string { "transcript write failed: " + err }

  function ReadFault(err: string): string { "vendor stream read failed: " + err }

  class RunNotes {
    var session: Bytes
    var errorCount: nat
    var errors: seq<Bytes>
    var failure: Bytes
    var stdinClosed: bool
    var diag: string
    var overflow: bool
    var cancelled: bool

    ghost predicate Valid()
      reads this
    {
      overflow ==> cancelled
    }

    ghost function View(): Notes
      reads this
    {
      Notes(session, errorCount, errors, failure, stdinClosed, diag, overflow)
    }

    constructor ()
      ensures View() == NoNotes && Valid()
    {
      session, errorCount, errors, failure, stdinClosed := [], 0, [], [], false;
      diag, overflow, cancelled := "", false, false;
    }

    method SetVendorSession(id: Bytes)
      requires Valid()
      modifies this
      ensures View() == SetSession(old(View()), id) && Valid()
    {
      if session == [] { session := id; }
    }

    method NoteVendorError(text: Bytes)
      requires Valid()
      modifies this
      ensures View() == NoteError(old(View()), text) && Valid()
    {
      if errorCount >= MAX_VENDOR_ERRORS { return; }
      errorCount := errorCount + 1;
      if text != [] { errors := errors + [text]; }
    }

    method NoteVendorFailure(text: Bytes)
      requires Valid()
      modifies this
      ensures View() == NoteFailure(old(View()), text) && Valid()
    {
      if text == [] { return; }
      if failure == [] { failure := text; }
    }

    method CloseSteer()
      requires Valid()
      modifies this
      ensures View() == old(View()).(stdinClosed := true) && Valid()
    {
      stdinClosed := true;
    }

    method SetDiagnostic(msg: string)
      requires Valid()
      modifies this
      ensures View() == SetDiag(old(View()), msg) && Valid()
    {
      if diag == "" { diag := msg; }
    }

    /** A transcript at its limit ends the run. */
    method Overflow()
      requires Valid()
      modifies this
      ensures View() == old(View()).(overflow := true) && Valid()
    {
      overflow := true;
      cancelled := true;
    }
  }

  // ---- One result of the reader ----

  /** The answer so far: what was offered to the capped output. */
  datatype Said = Said(offered: Bytes, truncated: bool, sawMessage: bool)

  /** The transcript, with every event it was to take: a failed write ends writing, an
      overfull one the run. */
  datatype Tape = Tape(attempted: seq<Event>, failed: bool, stopped: bool)

  /** Where streamEvents stands, with what it has read so far: the events parsed and the
      number of lines that were too long. */
  datatype Progress = Progress(said: Said, notes: Notes, tape: Tape, events: seq<Event>, skipped: nat)

  function Begin(notes: Notes): Progress { Progress(Said([], false, false), notes, Tape([], false, false), [], 0) }

  function Attempted(t: Tape, e: Event, outcome: nat -> Appended): Tape {
    if t.failed then t
    else
      var u := t.(attempted := t.attempted + [e]);
      match outcome(|t.attempted|)
      case Recorded => u
      case WriteFailed(_) => u.(failed := true)
      case OverLimit => u.(stopped := true)
  }

  /** What one attempt to append leaves among the notes. */
  function Remark(n: Notes, t: Tape, outcome: nat -> Appended): Notes {
    if t.failed then n
    else match outcome(|t.attempted|)
      case Recorded => n
      case WriteFailed(err) => SetDiag(n, WriteFault(err))
      case OverLimit => n.(overflow := true)
  }

  function Record(p: Progress, e: Event, outcome: nat -> Appended): Progress {
    p.(notes := Remark(p.notes, p.tape, outcome), tape := Attempted(p.tape, e, outcome))
  }

  function Offer(s: Said, text: Bytes, limit: int): Said {
    var offered := s.offered + (text + [NL]);
    s.(offered := offered, truncated := s.truncated || C.Over(limit, offered))
  }

  function Speak(s: Said, e: Event, limit: int): Said {
    if Says(e) then Offer(s.(sawMessage := true), e.text, limit)
    else if e.kind == RunFinished && e.text != [] && !s.sawMessage then Offer(s, e.text, limit)
    else s
  }

  function Note(n: Notes, e: Event, closesStdin: bool): Notes {
    var m := if e.session != [] then SetSession(n, e.session) else n;
    match e.kind
      case VendorError => NoteError(m, e.text)
      case RunFailed => NoteFailure(m, e.text)
      case RunFinished => if closesStdin then m.(stdinClosed := true) else m
      case _ => m
  }

  function Handle(p: Progress, e: Event, v: Vendor): Progress {
    var said, notes := Speak(p.said, e, v.limit), Note(p.notes, e, v.closesStdin);
    Record(p.(said := said, notes := notes, events := p.events + [e]), e, v.outcome)
  }

  function Skip(p: Progress, v: Vendor): Progress {
    Record(p.(said := p.said.(truncated := true), skipped := p.skipped + 1), OVERSIZED, v.outcome)
  }

  function Step(p: Progress, item: Item, v: Vendor): Progress {
    if item.TooLong? then Skip(p, v)
    else if item.bytes == [] || v.parse(item.bytes).None? then p
    else Handle(p, v.parse(item.bytes).value, v)
  }

  function Consume(p: Progress, items: seq<Item>, v: Vendor): Progress
    decreases |items|
  {
    if items == [] || p.tape.stopped then p else Consume(Step(p, items[0], v), items[1..], v)
  }

  // ---- The answer ----

  predicate SaidFaithful(s: Said, es: seq<Event>, skipped: nat, limit: int) {
    && s.offered == Answer(es)
    && (s.sawMessage <==> SomeSays(es))
    && (s.truncated <==> skipped > 0 || C.Over(limit, s.offered))
  }

  lemma SaysGrows(es: seq<Event>, e: Event)
    ensures SomeSays(es + [e]) <==> SomeSays(es) || Says(e)
    ensures Answer(es + [e]) == Answer(es) + Contribution(es, e)
  {
    var all := es + [e];
    assert all[..|all| - 1] == es && all[|all| - 1] == e;
    if SomeSays(es) {
      var i :| 0 <= i < |es| && Says(es[i]);
      assert all[i] == es[i];
    }
    if SomeSays(all) && !Says(e) {
      var i :| 0 <= i < |all| && Says(all[i]);
      assert all[i] == es[i];
    }
  }

  lemma SpeakKeeps(s: Said, es: seq<Event>, e: Event, skipped: nat, limit: int)
    requires SaidFaithful(s, es, skipped, limit)
    ensures SaidFaithful(Speak(s, e, limit), es + [e], skipped, limit)
  {
    SaysGrows(es, e);
    assert Speak(s, e, limit).offered == s.offered + Contribution(es, e);
  }

  // ---- The notes ----

  predicate NotesFaithful(n: Notes, es: seq<Event>, closesStdin: bool) {
    && n.session == First(Sessions(es))
    && n.failure == First(TextsOf(es, RunFailed))
    && ErrorsFaithful(n, TextsOf(es, VendorError))
    && (n.stdinClosed <==> closesStdin && TextsOf(es, RunFinished) != [])
  }

  /** The first ten are counted, and of those the ones with a text kept. */
  predicate ErrorsFaithful(n: Notes, texts: seq<Bytes>) {
    var counted := AtMost(texts, MAX_VENDOR_ERRORS);
    n.errorCount == |counted| && n.errors == NonEmpty(counted)
  }

  /** The transcript's remarks are none of the events' business. */
  lemma RemarkKeeps(n: Notes, t: Tape, outcome: nat -> Appended, es: seq<Event>, closesStdin: bool)
    requires NotesFaithful(n, es, closesStdin)
    ensures NotesFaithful(Remark(n, t, outcome), es, closesStdin)
  {
    hide First, TextsOf, Sessions;
  }

  lemma {:induction false} FirstAppend(texts: seq<Bytes>, t: Bytes)
    ensures First(texts + [t]) == (if First(texts) != [] then First(texts) else t)
  {
    if texts != [] {
      FirstAppend(texts[1..], t);
      assert (texts + [t])[1..] == texts[1..] + [t];
    }
  }

  lemma OneMore(es: seq<Event>, e: Event, k: Kind)
    ensures Sessions(es + [e]) == Sessions(es) + [e.session]
    ensures TextsOf(es + [e], k) == (if e.kind == k then TextsOf(es, k) + [e.text] else TextsOf(es, k))
  {
    assert (es + [e])[..|es|] == es;
  }

  lemma NonEmptyAppend(texts: seq<Bytes>, t: Bytes)
    ensures NonEmpty(texts + [t]) == NonEmpty(texts) + (if t != [] then [t] else [])
  {
    assert (texts + [t])[..|texts|] == texts;
  }

  lemma AtMostAppend(texts: seq<Bytes>, t: Bytes, n: nat)
    ensures AtMost(texts + [t], n) == (if |texts| >= n then AtMost(texts, n) else AtMost(texts, n) + [t])
  {
    if |texts| >= n { assert (texts + [t])[..n] == texts[..n]; }
  }

  lemma ErrorKeeps(n: Notes, texts: seq<Bytes>, t: Bytes)
    requires ErrorsFaithful(n, texts)
    ensures ErrorsFaithful(NoteError(n, t), texts + [t])
  {
    AtMostAppend(texts, t, MAX_VENDOR_ERRORS);
    NonEmptyAppend(AtMost(texts, MAX_VENDOR_ERRORS), t);
    hide NonEmpty;
  }

  /** The session first, whatever the kind. */
  lemma SessionKeeps(n: Notes, es: seq<Event>, e: Event, closesStdin: bool)
    requires NotesFaithful(n, es, closesStdin)
    ensures Note(n, e, closesStdin).session == First(Sessions(es + [e]))
  {
    hide First, Sessions, TextsOf, ErrorsFaithful;
    OneMore(es, e, Other);
    FirstAppend(Sessions(es), e.session);
  }

  lemma FailureKeeps(n: Notes, es: seq<Event>, e: Event, closesStdin: bool)
    requires NotesFaithful(n, es, closesStdin)
    ensures Note(n, e, closesStdin).failure == First(TextsOf(es + [e], RunFailed))
  {
    hide First, Sessions, TextsOf, ErrorsFaithful;
    OneMore(es, e, RunFailed);
    FirstAppend(TextsOf(es, RunFailed), e.text);
  }

  lemma InputKeeps(n: Notes, es: seq<Event>, e: Event, closesStdin: bool)
    requires NotesFaithful(n, es, closesStdin)
    ensures Note(n, e, closesStdin).stdinClosed <==> closesStdin && TextsOf(es + [e], RunFinished) != []
  {
    hide First, Sessions, TextsOf, ErrorsFaithful;
    OneMore(es, e, RunFinished);
  }

  lemma ErrorsKeep(n: Notes, es: seq<Event>, e: Event, closesStdin: bool)
    requires NotesFaithful(n, es, closesStdin)
    ensures ErrorsFaithful(Note(n, e, closesStdin), TextsOf(es + [e], VendorError))
  {
    hide First, Sessions;
    OneMore(es, e, VendorError);
    if e.kind == VendorError {
      var m := if e.session != [] then SetSession(n, e.session) else n;
      ErrorKeeps(m, TextsOf(es, VendorError), e.text);
    }
  }

  lemma NoteKeeps(n: Notes, es: seq<Event>, e: Event, closesStdin: bool)
    requires NotesFaithful(n, es, closesStdin)
    ensures NotesFaithful(Note(n, e, closesStdin), es + [e], closesStdin)
  {
    SessionKeeps(n, es, e, closesStdin);
    FailureKeeps(n, es, e, closesStdin);
    InputKeeps(n, es, e, closesStdin);
    ErrorsKeep(n, es, e, closesStdin);
    hide Note, First, Sessions, TextsOf, ErrorsFaithful;
  }

  // ---- The transcript ----

  /** What the lines give the transcript to take, in order: the events parsed, and a mark for
      every line over the limit. */
  function Records(items: seq<Item>, parse: Bytes -> Option<Event>): seq<Event> {
    if items == [] then []
    else (if items[0].TooLong? then [OVERSIZED] else ParsedOne(items[0], parse)) + Records(items[1..], parse)
  }

  /** Of what it was given the transcript took all up to the first write that failed, which
      alone left a diagnostic, and to the first that was over the limit, after which it was
      given nothing. */
  predicate TapeTells(t: Tape, diag: string, was: string, given: seq<Event>, outcome: nat -> Appended) {
    var n := |t.attempted|;
    && t.attempted <= given && (forall i :: 0 <= i < n - 1 ==> outcome(i) == Recorded)
    && (t.failed || t.attempted == given) && !(t.failed && t.stopped)
    && (n > 0 ==>
          && (t.failed <==> outcome(n - 1).WriteFailed?) && (t.stopped <==> outcome(n - 1) == OverLimit)
          && (t.failed && was == "" ==> diag == WriteFault(outcome(n - 1).err)))
    && (n == 0 ==> !t.failed && !t.stopped)
    && (was != "" || !t.failed ==> diag == was)
  }

  lemma RecordTells(p: Progress, e: Event, was: string, given: seq<Event>, v: Vendor)
    requires TapeTells(p.tape, p.notes.diag, was, given, v.outcome) && !p.tape.stopped
    ensures var q := Record(p, e, v.outcome); TapeTells(q.tape, q.notes.diag, was, given + [e], v.outcome)
  {
  }

  lemma StepTells(p: Progress, item: Item, was: string, given: seq<Event>, v: Vendor)
    requires TapeTells(p.tape, p.notes.diag, was, given, v.outcome) && !p.tape.stopped
    ensures var q := Step(p, item, v);
      TapeTells(q.tape, q.notes.diag, was, given + Records([item], v.parse), v.outcome)
  {
    assert Records([item], v.parse) == (if item.TooLong? then [OVERSIZED] else ParsedOne(item, v.parse)) + [];
    hide TapeTells, Record, Note, Speak;
    if item.TooLong? {
      RecordTells(p.(said := p.said.(truncated := true), skipped := p.skipped + 1), OVERSIZED, was, given, v);
    } else if item.bytes != [] && v.parse(item.bytes).Some? {
      var e := v.parse(item.bytes).value;
      NoteLeaves(p.notes, e, v.closesStdin);
      var said, notes := Speak(p.said, e, v.limit), Note(p.notes, e, v.closesStdin);
      RecordTells(p.(said := said, notes := notes, events := p.events + [e]), e, was, given, v);
    } else {
      assert given + [] == given;
    }
  }

  lemma {:induction false} ConsumeTells(p: Progress, items: seq<Item>, was: string, given: seq<Event>, v: Vendor)
    returns (k: nat)
    requires TapeTells(p.tape, p.notes.diag, was, given, v.outcome)
    ensures var q := Consume(p, items, v);
      && k <= |items| && (!q.tape.stopped ==> k == |items|)
      && TapeTells(q.tape, q.notes.diag, was, given + Records(items[..k], v.parse), v.outcome)
    decreases |items|
  {
    hide TapeTells, Step;
    if items == [] || p.tape.stopped {
      k := 0;
      assert given + [] == given;
    } else {
      StepTells(p, items[0], was, given, v);
      var more := given + Records([items[0]], v.parse);
      var j := ConsumeTells(Step(p, items[0], v), items[1..], was, more, v);
      k := j + 1;
      RecordsFrom(items, k, v.parse);
      Regroup(given, Records([items[0]], v.parse), Records(items[1..][..j], v.parse));
    }
  }

  lemma RecordsFrom(items: seq<Item>, k: nat, parse: Bytes -> Option<Event>)
    requires 0 < k <= |items|
    ensures Records(items[..k], parse) == Records([items[0]], parse) + Records(items[1..][..k - 1], parse)
  {
    assert items[..k][1..] == items[1..][..k - 1];
    var one := if items[0].TooLong? then [OVERSIZED] else ParsedOne(items[0], parse);
    assert Records([items[0]], parse) == one + [];
  }

  /** What the transcript of a stream holds: the events and the marks, in order, of all lines
      read, or of those up to the one that overfilled it; of these all up to the first that
      could not be written. */
  lemma TranscriptTells(notes: Notes, items: seq<Item>, v: Vendor) returns (k: nat)
    ensures var q := Consume(Begin(notes), items, v);
      && k <= |items| && (!q.tape.stopped ==> k == |items|)
      && TapeTells(q.tape, q.notes.diag, notes.diag, Records(items[..k], v.parse), v.outcome)
  {
    k := ConsumeTells(Begin(notes), items, notes.diag, [], v);
    assert [] + Records(items[..k], v.parse) == Records(items[..k], v.parse);
  }

  // ---- Whole streams ----

  /** An overfull transcript is what stopped the run, and a failed write is on record. */
  predicate TapeFaithful(p: Progress) {
    && (p.notes.overflow <==> p.tape.stopped)
    && (p.tape.failed ==> p.notes.diag != "")
  }

  /** The state is what the events so far amount to. */
  predicate Faithful(p: Progress, v: Vendor) {
    && SaidFaithful(p.said, p.events, p.skipped, v.limit)
    && NotesFaithful(p.notes, p.events, v.closesStdin)
    && TapeFaithful(p)
  }

  lemma BeginFaithful(v: Vendor)
    ensures Faithful(Begin(NoNotes), v)
  {
  }

  lemma RecordKeeps(p: Progress, e: Event, v: Vendor)
    requires Faithful(p, v) && !p.tape.stopped
    ensures Faithful(Record(p, e, v.outcome), v)
  {
    RemarkKeeps(p.notes, p.tape, v.outcome, p.events, v.closesStdin);
    hide SaidFaithful, NotesFaithful;
  }

  lemma NoteLeaves(n: Notes, e: Event, closesStdin: bool)
    ensures Note(n, e, closesStdin).diag == n.diag && Note(n, e, closesStdin).overflow == n.overflow
  {
  }

  lemma HandleKeeps(p: Progress, e: Event, v: Vendor)
    requires Faithful(p, v) && !p.tape.stopped
    ensures Faithful(Handle(p, e, v), v)
  {
    SpeakKeeps(p.said, p.events, e, p.skipped, v.limit);
    NoteKeeps(p.notes, p.events, e, v.closesStdin);
    NoteLeaves(p.notes, e, v.closesStdin);
    hide SaidFaithful, NotesFaithful, Note, Speak;
    var said, notes := Speak(p.said, e, v.limit), Note(p.notes, e, v.closesStdin);
    RecordKeeps(p.(said := said, notes := notes, events := p.events + [e]), e, v);
  }

  lemma SkipKeeps(p: Progress, v: Vendor)
    requires Faithful(p, v) && !p.tape.stopped
    ensures Faithful(Skip(p, v), v)
  {
    hide NotesFaithful;
    RecordKeeps(p.(said := p.said.(truncated := true), skipped := p.skipped + 1), OVERSIZED, v);
  }

  /** However far it gets, the state is what the events handled amount to. */
  lemma {:induction false} ConsumeKeeps(p: Progress, items: seq<Item>, v: Vendor)
    requires Faithful(p, v)
    ensures Faithful(Consume(p, items, v), v)
    decreases |items|
  {
    if items != [] && !p.tape.stopped {
      var item := items[0];
      if item.TooLong? {
        SkipKeeps(p, v);
        ConsumeKeeps(Skip(p, v), items[1..], v);
      } else if item.bytes == [] || v.parse(item.bytes).None? {
        ConsumeKeeps(p, items[1..], v);
      } else {
        HandleKeeps(p, v.parse(item.bytes).value, v);
        ConsumeKeeps(Handle(p, v.parse(item.bytes).value, v), items[1..], v);
      }
    }
  }

  ghost predicate NeverFull(outcome: nat -> Appended) { forall n :: outcome(n) != OverLimit }

  function TooLongs(items: seq<Item>): nat {
    if items == [] then 0 else (if items[0].TooLong? then 1 else 0) + TooLongs(items[1..])
  }

  lemma StepCounts(p: Progress, item: Item, v: Vendor)
    ensures var q := Step(p, item, v);
      && q.events == p.events + ParsedOne(item, v.parse)
      && q.skipped == p.skipped + (if item.TooLong? then 1 else 0)
      && (NeverFull(v.outcome) ==> q.tape.stopped == p.tape.stopped)
  {
    hide Speak, Note;
  }

  /** Every parsed line is handled, in order, up to where the transcript's limit stops it. */
  lemma {:induction false} ConsumeInOrder(p: Progress, items: seq<Item>, v: Vendor)
    ensures p.events <= Consume(p, items, v).events <= p.events + Parsed(items, v.parse)
    ensures !p.tape.stopped && NeverFull(v.outcome) ==>
      var q := Consume(p, items, v);
      !q.tape.stopped && q.events == p.events + Parsed(items, v.parse) && q.skipped == p.skipped + TooLongs(items)
    decreases |items|
  {
    if items != [] && !p.tape.stopped {
      var q := Step(p, items[0], v);
      StepCounts(p, items[0], v);
      hide Step;
      ConsumeInOrder(q, items[1..], v);
      Regroup(p.events, ParsedOne(items[0], v.parse), Parsed(items[1..], v.parse));
    }
  }

  lemma ConsumeAppend(p: Progress, a: seq<Item>, b: seq<Item>, v: Vendor)
    ensures Consume(p, a + b, v) == Consume(Consume(p, a, v), b, v)
    decreases |a|
  {
    if a == [] {
      assert a + b == b;
    } else if !p.tape.stopped {
      assert (a + b)[1..] == a[1..] + b;
      ConsumeAppend(Step(p, a[0], v), a[1..], b, v);
    }
  }

  /** A whole stream, with no transcript limit in the way, read to its end or to a fault:
      the answer kept is the first bytes of everything the agent said, and it is reported
      truncated exactly when more was said than fits or a line was too long. */
  lemma WholeStream(input: Bytes, items: seq<Item>, max: nat, fault: bool, v: Vendor)
    requires NeverFull(v.outcome) && AsRead(items, input, max, fault)
    ensures var es, q := Parsed(items, v.parse), Consume(Begin(NoNotes), items, v);
      && q.events == es
      && C.Kept(v.limit, q.said.offered) == C.Kept(v.limit, Answer(es))
      && (q.said.truncated <==> C.Over(v.limit, Answer(es)) || TooLongs(Items(input, max)) > 0)
      && NotesFaithful(q.notes, es, v.closesStdin)
    ensures !fault ==> Parsed(items, v.parse) == Parsed(Items(input, max), v.parse)
  {
    hide Consume, Items, NotesFaithful, Answer, SomeSays, C.Kept;
    BeginFaithful(v);
    ConsumeKeeps(Begin(NoNotes), items, v);
    ConsumeInOrder(Begin(NoNotes), items, v);
    assert [] + Parsed(items, v.parse) == Parsed(items, v.parse);
    if items != Items(input, max) { LackedIsShort(items, Items(input, max)); }
  }

  lemma {:induction false} LackedIsShort(items: seq<Item>, all: seq<Item>)
    requires LacksALine(items, all)
    ensures TooLongs(items) == TooLongs(all)
    decreases |all|
  {
    if items != [] { LackedIsShort(items[1..], all[1..]); }
  }
}
