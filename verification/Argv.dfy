/** Expanding an adapter's argv template (internal/adapter/argv.go) against the loader's
    own placeholder scanner (internal/config/semantics.go). */
module Argv {
  import opened Wrappers

  // ---- Go's strings package ----

  predicate At(s: string, t: string, i: int) { 0 <= i && i + |t| <= |s| && s[i..i + |t|] == t }

  /** strings.Index: the first occurrence, or -1. */
  function Index(s: string, t: string): (i: int)
    ensures i == -1 || At(s, t, i)
    ensures forall j :: At(s, t, j) ==> 0 <= i <= j
    decreases |s|
  {
    AtFront(s, t);
    if |t| <= |s| && s[..|t|] == t then 0
    else if s == [] then -1
    else
      AtTail(s, t);
      hide At;
      var i := Index(s[1..], t);
      if i < 0 then -1 else i + 1
  }

  lemma AtFront(s: string, t: string)
    ensures At(s, t, 0) <==> |t| <= |s| && s[..|t|] == t
    ensures forall j :: At(s, t, j) ==> 0 <= j && (s == [] ==> j == 0)
  {
    if |t| <= |s| { assert s[0..0 + |t|] == s[..|t|]; }
  }

  /** Further on, t is where it is without the first character. */
  lemma AtTail(s: string, t: string)
    requires s != []
    ensures forall j :: j > 0 ==> (At(s, t, j) <==> At(s[1..], t, j - 1))
    ensures forall j :: j >= 0 ==> (At(s, t, j + 1) <==> At(s[1..], t, j))
  {
    forall j | j > 0 ensures At(s, t, j) <==> At(s[1..], t, j - 1) {
      if j + |t| <= |s| { assert s[1..][j - 1..j - 1 + |t|] == s[j..j + |t|]; }
    }
    forall j | j >= 0 ensures At(s, t, j + 1) <==> At(s[1..], t, j) {
      if j + 1 + |t| <= |s| { assert s[1..][j..j + |t|] == s[j + 1..j + 1 + |t|]; }
    }
  }

  predicate Contains(s: string, t: string) { Index(s, t) >= 0 }

  /** strings.Count: occurrences without overlap. */
  function Count(s: string, t: string): nat
    requires t != ""
    decreases |s|
  {
    if Index(s, t) < 0 then 0 else 1 + Count(s[Index(s, t) + |t|..], t)
  }

  predicate HasPrefix(s: string, t: string) { |t| <= |s| && s[..|t|] == t }

  predicate HasSuffix(s: string, t: string) { |t| <= |s| && s[|s| - |t|..] == t }

  lemma AtChar(s: string, t: string, j: int, k: nat)
    ensures At(s, t, j) && k < |t| ==> s[j + k] == t[k]
  {
    if At(s, t, j) && k < |t| { assert s[j..j + |t|][k] == s[j + k]; }
  }

  lemma PrefixChar(s: string, t: string)
    ensures HasPrefix(s, t) && t != "" ==> s[0] == t[0]
  {
    if HasPrefix(s, t) && t != "" { assert s[..|t|][0] == s[0]; }
  }

  lemma AtWithin(a: string, b: string, t: string, j: int)
    ensures At(a + b, t, j) && j + |t| <= |a| ==> At(a, t, j)
  {
    if At(a + b, t, j) && j + |t| <= |a| { assert a[j..j + |t|] == (a + b)[j..j + |t|]; }
  }

  lemma AtExtends(a: string, b: string, t: string, j: int)
    ensures At(a, t, j) ==> At(a + b, t, j)
  {
    if At(a, t, j) { assert (a + b)[j..j + |t|] == a[j..j + |t|]; }
  }

  const OPEN := "{{"
  const CLOSE := "}}"
  const EQ := "="

  function Braced(name: string): string { OPEN + name + CLOSE }

  // ---- The builder ----

  datatype Values = Values(
    prompt: string, cwd: string, vendorSessionID: string, message: string, model: string, maxTurns: string,
    sandboxFlags: seq<string>, resumeSandboxFlags: seq<string>, gateFlags: seq<string>, gateConfig: string)

  datatype Refusal = UnknownPlaceholder | ListBound | Interpolated

  datatype Expansion = Single(value: string) | List(values: seq<string>)

  function Expand(ph: string, v: Values): Option<Expansion> {
    if ph == Braced("prompt") then Some(Single(v.prompt))
    else if ph == Braced("cwd") then Some(Single(v.cwd))
    else if ph == Braced("gate_config") then Some(Single(v.gateConfig))
    else if ph == Braced("vendor_session_id") then Some(Single(v.vendorSessionID))
    else if ph == Braced("message") then Some(Single(v.message))
    else if ph == Braced("model") then Some(Single(v.model))
    else if ph == Braced("max_turns") then Some(Single(v.maxTurns))
    else if ph == Braced("sandbox_flags") then Some(List(v.sandboxFlags))
    else if ph == Braced("resume_sandbox_flags") then Some(List(v.resumeSandboxFlags))
    else if ph == Braced("gate_flags") then Some(List(v.gateFlags))
    else None
  }

  predicate OmitWhenEmpty(ph: string) {
    ph == Braced("model") || ph == Braced("max_turns") || ph == Braced("vendor_session_id") || ph == Braced("message")
    || ph == Braced("gate_flags")
  }

  predicate IsWholePlaceholder(s: string) {
    HasPrefix(s, OPEN) && HasSuffix(s, CLOSE) && Count(s, OPEN) == 1 && Count(s, CLOSE) == 1
  }

  predicate IsFlagBinding(s: string) {
    var eq := Index(s, EQ);
    eq > 0 && HasPrefix(s, "-") && IsWholePlaceholder(s[eq + 1..]) && !Contains(s[..eq], OPEN)
  }

  function Flag(s: string): string
    requires Index(s, EQ) >= 0
  {
    s[..Index(s, EQ)]
  }

  function Bound(s: string): string
    requires Index(s, EQ) >= 0
  {
    s[Index(s, EQ) + 1..]
  }

  function WholeElement(tmpl: string, v: Values): Result<seq<string>, Refusal> {
    match Expand(tmpl, v)
    case None => Err(UnknownPlaceholder)
    case Some(List(values)) => Ok(values)
    case Some(Single(value)) => Ok(if value == "" && OmitWhenEmpty(tmpl) then [] else [value])
  }

  function BoundElement(tmpl: string, v: Values): Result<seq<string>, Refusal>
    requires Index(tmpl, EQ) >= 0
  {
    match Expand(Bound(tmpl), v)
    case None => Err(UnknownPlaceholder)
    case Some(List(_)) => Err(ListBound)
    case Some(Single(value)) => Ok([Flag(tmpl) + EQ + value])
  }

  /** What one template element becomes. */
  function Element(tmpl: string, v: Values): Result<seq<string>, Refusal> {
    if !Contains(tmpl, OPEN) then Ok([tmpl])
    else if IsWholePlaceholder(tmpl) then WholeElement(tmpl, v)
    else if IsFlagBinding(tmpl) then BoundElement(tmpl, v)
    else Err(Interpolated)
  }

  datatype BuildError = BuildError(index: nat, why: Refusal)

  type Piece = Result<seq<string>, Refusal>

  function Elements(template: seq<string>, v: Values): (pieces: seq<Piece>)
    ensures |pieces| == |template| && forall k :: 0 <= k < |template| ==> pieces[k] == Element(template[k], v)
  {
    seq(|template|, k requires 0 <= k < |template| => Element(template[k], v))
  }

  /** The pieces from the i-th on, in order; the first refusal is the answer. */
  function Assemble(pieces: seq<Piece>, i: nat): Result<seq<string>, BuildError>
    requires i <= |pieces|
    decreases |pieces| - i
  {
    if i == |pieces| then Ok([])
    else match pieces[i]
      case Err(why) => Err(BuildError(i, why))
      case Ok(piece) => After(piece, Assemble(pieces, i + 1))
  }

  function Build(template: seq<string>, v: Values): Result<seq<string>, BuildError> {
    Assemble(Elements(template, v), 0)
  }

  function After(out: seq<string>, r: Result<seq<string>, BuildError>): Result<seq<string>, BuildError> {
    match r case Err(e) => Err(e) case Ok(rest) => Ok(out + rest)
  }

  lemma AfterAfter(out: seq<string>, piece: seq<string>, r: Result<seq<string>, BuildError>)
    ensures After(out, After(piece, r)) == After(out + piece, r)
    ensures After([], r) == r
  {
    if r.Ok? {
      assert out + (piece + r.value) == (out + piece) + r.value;
      assert [] + r.value == r.value;
    }
  }

  method BuildArgs(template: seq<string>, v: Values) returns (r: Result<seq<string>, BuildError>)
    ensures r == Build(template, v)
  {
    var out: seq<string> := [];
    ghost var pieces := Elements(template, v);
    AfterAfter([], [], Assemble(pieces, 0));
    for i := 0 to |template|
      invariant Build(template, v) == After(out, Assemble(pieces, i))
    {
      var tmpl := template[i];
      ghost var before, rest := out, Assemble(pieces, i + 1);
      if !Contains(tmpl, OPEN) {
        out := out + [tmpl];
      } else if IsWholePlaceholder(tmpl) {
        match Expand(tmpl, v) {
          case None => return Err(BuildError(i, UnknownPlaceholder));
          case Some(List(values)) => out := out + values;
          case Some(Single(value)) =>
            if !(value == "" && OmitWhenEmpty(tmpl)) { out := out + [value]; }
        }
      } else if IsFlagBinding(tmpl) {
        match Expand(Bound(tmpl), v) {
          case None => return Err(BuildError(i, UnknownPlaceholder));
          case Some(List(_)) => return Err(BuildError(i, ListBound));
          case Some(Single(value)) => out := out + [Flag(tmpl) + EQ + value];
        }
      } else {
        return Err(BuildError(i, Interpolated));
      }
      AfterAfter(before, Element(tmpl, v).value, rest);
      assert out == before + Element(tmpl, v).value;
    }
    assert out + [] == out;
    r := Ok(out);
  }

  // ---- The loader ----

  const NAMES: set<string> := {
    "prompt", "cwd", "vendor_session_id", "message", "model", "max_turns",
    "sandbox_flags", "resume_sandbox_flags", "gate_flags", "gate_config"}

  predicate Known(ph: string) { exists name :: name in NAMES && ph == Braced(name) }

  predicate IsListName(ph: string) {
    ph == Braced("sandbox_flags") || ph == Braced("resume_sandbox_flags") || ph == Braced("gate_flags")
  }

  function Extract(arg: string): seq<string>
    decreases |arg|
  {
    var start := Index(arg, OPEN);
    if start < 0 then []
    else
      var end := Index(arg[start..], CLOSE);
      if end < 0 then [] else [arg[start..start + end + 2]] + Extract(arg[start + end + 2..])
  }

  method ExtractPlaceholders(arg0: string) returns (out: seq<string>)
    ensures out == Extract(arg0)
  {
    out := [];
    var arg := arg0;
    assert [] + Extract(arg0) == Extract(arg0);
    while true
      invariant out + Extract(arg) == Extract(arg0)
      decreases |arg|
    {
      var start := Index(arg, OPEN);
      if start < 0 { assert out + [] == out; return; }
      var end := Index(arg[start..], CLOSE);
      if end < 0 { assert out + [] == out; return; }
      ghost var rest := Extract(arg[start + end + 2..]);
      assert out + ([arg[start..start + end + 2]] + rest) == (out + [arg[start..start + end + 2]]) + rest;
      out := out + [arg[start..start + end + 2]];
      arg := arg[start + end + 2..];
    }
  }

  // ---- Shapes of placeholders ----

  /** Neither a brace nor an equals sign. */
  predicate Plain(name: string) { forall i :: 0 <= i < |name| ==> name[i] != '{' && name[i] != '}' && name[i] != '=' }

  lemma NamesArePlain(name: string)
    requires name in NAMES
    ensures Plain(name)
  {
    if |name| < 10 {
      ShortNamesArePlain(name);
    } else if |name| < 17 {
      FlagNamesArePlain(name);
    } else {
      assert name == "vendor_session_id" || name == "resume_sandbox_flags";
    }
  }

  lemma ShortNamesArePlain(name: string)
    requires name in {"prompt", "cwd", "message", "model", "max_turns"}
    ensures Plain(name)
  {
  }

  lemma FlagNamesArePlain(name: string)
    requires name in {"sandbox_flags", "gate_flags", "gate_config"}
    ensures Plain(name)
  {
  }

  lemma KnownShape(ph: string) returns (name: string)
    requires Known(ph)
    ensures Plain(name) && ph == Braced(name)
  {
    name :| name in NAMES && ph == Braced(name);
    NamesArePlain(name);
  }

  lemma NoneBefore(before: string, rest: string, j: nat)
    requires !Contains(before, OPEN) && (before == "" || before[|before| - 1] != '{')
    requires At(before + rest, OPEN, j)
    ensures j >= |before|
  {
    AtChar(before + rest, OPEN, j, 0);
    AtWithin(before, rest, OPEN, j);
  }

  /** Text without an opening pair, and not ending in half of one, moves the first one along. */
  lemma OpensAfter(before: string, rest: string)
    requires !Contains(before, OPEN) && (before == "" || before[|before| - 1] != '{')
    requires HasPrefix(rest, OPEN)
    ensures Index(before + rest, OPEN) == |before|
  {
    var s := before + rest;
    assert s[|before|..|before| + 2] == rest[..2];
    assert At(s, OPEN, |before|);
    NoneBefore(before, rest, Index(s, OPEN));
  }

  /** Both algorithms see exactly one placeholder in a braced name. */
  lemma BracedShape(name: string)
    requires Plain(name)
    ensures IsWholePlaceholder(Braced(name))
    ensures Index(Braced(name), OPEN) == 0 && Index(Braced(name), CLOSE) == |name| + 2
    ensures Index(Braced(name), EQ) == -1
    ensures Extract(Braced(name)) == [Braced(name)]
  {
    var s := Braced(name);
    forall j | At(s, CLOSE, j) ensures j >= |name| + 2 { AtChar(s, CLOSE, j, 0); }
    assert At(s, CLOSE, |name| + 2);
    assert At(s, OPEN, 0);
    var rest := s[2..];
    forall j ensures !At(rest, OPEN, j) { AtChar(rest, OPEN, j, 0); }
    forall j ensures !At(s, EQ, j) { AtChar(s, EQ, j, 0); }
    assert s[|name| + 4..] == "";
    assert s[0..] == s && s[0..|s|] == s;
  }

  lemma ExpandIsKnown(ph: string, v: Values)
    ensures Expand(ph, v).Some? <==> Known(ph)
    ensures Known(ph) ==> (Expand(ph, v).value.List? <==> IsListName(ph))
  {
  }

  // ---- What the builder accepts ----

  /** A flag and a known placeholder, joined. */
  predicate Joins(tmpl: string, flag: string, ph: string) {
    tmpl == flag + EQ + ph && HasPrefix(flag, "-") && !Contains(flag, EQ) && !Contains(flag, OPEN) && Known(ph)
  }

  /** The placeholder has a single value. */
  predicate Binds(tmpl: string, flag: string, ph: string) { Joins(tmpl, flag, ph) && !IsListName(ph) }

  /** No placeholder, or one alone, or one bound to a flag. */
  ghost predicate Acceptable(tmpl: string) {
    !Contains(tmpl, OPEN) || Known(tmpl) || exists flag: string, ph: string :: Binds(tmpl, flag, ph)
  }

  lemma SplitAtEquals(flag: string, value: string)
    requires !Contains(flag, EQ)
    ensures Index(flag + EQ + value, EQ) == |flag|
    ensures Flag(flag + EQ + value) == flag && Bound(flag + EQ + value) == value
  {
    var s := flag + EQ + value;
    assert At(s, EQ, |flag|);
    assert s == flag + (EQ + value);
    forall j | At(s, EQ, j) ensures j >= |flag| { AtWithin(flag, EQ + value, EQ, j); }
  }

  lemma FlagHasNoEquals(tmpl: string)
    requires Index(tmpl, EQ) >= 0
    ensures !Contains(Flag(tmpl), EQ) && tmpl == Flag(tmpl) + EQ + Bound(tmpl)
  {
    var eq, flag := Index(tmpl, EQ), Flag(tmpl);
    assert tmpl == flag + tmpl[eq..];
    forall j ensures !At(flag, EQ, j) { AtExtends(flag, tmpl[eq..], EQ, j); }
    EqualsInTheMiddle(tmpl, eq);
  }

  lemma EqualsInTheMiddle(s: string, i: nat)
    requires At(s, EQ, i)
    ensures s == s[..i] + EQ + s[i + 1..]
  {
    assert s[i] == s[i..i + 1][0] == '=';
  }

  lemma NoOpenInFlag(flag: string)
    requires !Contains(flag, OPEN)
    ensures !Contains(flag + EQ, OPEN)
  {
    var s := flag + EQ;
    forall j ensures !At(s, OPEN, j) {
      AtChar(s, OPEN, j, 1);
      AtWithin(flag, EQ, OPEN, j);
    }
  }

  lemma BindingShape(tmpl: string, flag: string, ph: string)
    requires Joins(tmpl, flag, ph)
    ensures Contains(tmpl, OPEN) && !IsWholePlaceholder(tmpl) && IsFlagBinding(tmpl)
    ensures Flag(tmpl) == flag && Bound(tmpl) == ph
  {
    SplitAtEquals(flag, ph);
    var name := KnownShape(ph);
    BracedShape(name);
    NoOpenInFlag(flag);
    OpensAfter(flag + EQ, ph);
    assert ph[..2] == OPEN;
    PrefixChar(flag, "-");
    PrefixChar(tmpl, OPEN);
  }

  /** Whatever the values: exactly the two forms, and text without placeholders. */
  lemma ElementAccepted(tmpl: string, v: Values)
    ensures Element(tmpl, v).Ok? <==> Acceptable(tmpl)
  {
    hide Index;
    if Known(tmpl) {
      var name := KnownShape(tmpl);
      BracedShape(name);
      hide Count, IsFlagBinding;
      ExpandIsKnown(tmpl, v);
    } else if exists flag: string, ph: string :: Binds(tmpl, flag, ph) {
      var flag: string, ph: string :| Binds(tmpl, flag, ph);
      hide IsWholePlaceholder, IsFlagBinding;
      BindingShape(tmpl, flag, ph);
      ExpandIsKnown(ph, v);
    } else if Contains(tmpl, OPEN) {
      hide Expand, Count;
      ExpandIsKnown(tmpl, v);
      if IsFlagBinding(tmpl) { NotBound(tmpl, v); }
    }
  }

  lemma NotBound(tmpl: string, v: Values)
    requires IsFlagBinding(tmpl) && !exists flag: string, ph: string :: Binds(tmpl, flag, ph)
    ensures BoundElement(tmpl, v).Err?
  {
    FlagHasNoEquals(tmpl);
    ExpandIsKnown(Bound(tmpl), v);
    hide Expand, Count, Index;
    assert Flag(tmpl)[..1] == tmpl[..1];
    assert !Binds(tmpl, Flag(tmpl), Bound(tmpl));
  }

  lemma {:induction false} AssembleAccepted(pieces: seq<Piece>, i: nat)
    requires i <= |pieces|
    ensures Assemble(pieces, i).Ok? <==> forall k :: i <= k < |pieces| ==> pieces[k].Ok?
    decreases |pieces| - i
  {
    if i < |pieces| { AssembleAccepted(pieces, i + 1); }
  }

  lemma BuildAccepted(template: seq<string>, v: Values)
    ensures Build(template, v).Ok? <==> forall k :: 0 <= k < |template| ==> Acceptable(template[k])
  {
    AssembleAccepted(Elements(template, v), 0);
    forall k | 0 <= k < |template| ensures Elements(template, v)[k].Ok? <==> Acceptable(template[k]) {
      ElementAccepted(template[k], v);
    }
  }

  lemma {:induction false} AssembleTells(pieces: seq<Piece>, i: nat)
    requires i <= |pieces|
    ensures Assemble(pieces, i).Err? ==>
      var e := Assemble(pieces, i).error;
      i <= e.index < |pieces| && pieces[e.index] == Err(e.why) && forall k :: i <= k < e.index ==> pieces[k].Ok?
    decreases |pieces| - i
  {
    if i < |pieces| && pieces[i].Ok? { AssembleTells(pieces, i + 1); }
  }

  /** A refusal names the first element that is refused, and why it is. */
  lemma BuildRefusesTheFirst(template: seq<string>, v: Values)
    requires Build(template, v).Err?
    ensures var e := Build(template, v).error;
      && e.index < |template| && Element(template[e.index], v) == Err(e.why)
      && forall k :: 0 <= k < e.index ==> Acceptable(template[k])
  {
    AssembleTells(Elements(template, v), 0);
    var e := Build(template, v).error;
    forall k | 0 <= k < e.index ensures Acceptable(template[k]) {
      assert Elements(template, v)[k].Ok?;
      ElementAccepted(template[k], v);
    }
  }

  lemma {:induction false} AssembleInParts(p: seq<Piece>, i: nat, j: nat)
    requires i <= j <= |p| && (forall k :: 0 <= k < |p| ==> p[k].Ok?)
    ensures Assemble(p[..j], i).Ok? && Assemble(p, j).Ok? && Assemble(p, i).Ok?
    ensures Assemble(p, i).value == Assemble(p[..j], i).value + Assemble(p, j).value
    decreases j - i
  {
    AssembleAccepted(p, j);
    if i < j { AssembleInParts(p, i + 1, j); }
  }

  /** The arguments of a template are those of its elements, in their order. */
  lemma {:induction false} BuildInOrder(template: seq<string>, v: Values)
    requires Build(template, v).Ok? && template != []
    ensures var front, last := template[..|template| - 1], template[|template| - 1];
      && Build(front, v).Ok? && Element(last, v).Ok?
      && Build(template, v).value == Build(front, v).value + Element(last, v).value
  {
    var n, p := |template| - 1, Elements(template, v);
    AssembleAccepted(p, 0);
    AssembleInParts(p, 0, n);
    assert p[..n] == Elements(template[..n], v);
    assert Assemble(p, n + 1) == Ok([]);
    assert Assemble(p, n).value == p[n].value + [];
  }

  // ---- Against the loader ----

  /** A braced name in text without another opening brace pair is all the scanner finds. */
  lemma ScannerSkips(before: string, name: string, after: string)
    requires Plain(name) && !Contains(before, OPEN) && !Contains(after, OPEN)
    requires before == "" || before[|before| - 1] != '{'
    ensures Index(before + (Braced(name) + after), OPEN) == |before|
    ensures Extract(before + (Braced(name) + after)) == [Braced(name)]
  {
    var rest := Braced(name) + after;
    var s, n := before + rest, |before|;
    assert rest[..2] == OPEN;
    OpensAfter(before, rest);
    ClosesAt(name, after);
    assert s[n..] == rest;
    assert rest[|name| + 4..] == after && rest[..|name| + 4] == Braced(name);
    ExtractOne(s, n, |name| + 2, rest);
  }

  lemma ExtractNone(s: string)
    requires !Contains(s, OPEN)
    ensures Extract(s) == []
  {
  }

  lemma ExtractOne(s: string, start: nat, end: nat, rest: string)
    requires Index(s, OPEN) == start && rest == s[start..] && Index(rest, CLOSE) == end
    requires !Contains(rest[end + 2..], OPEN)
    ensures Extract(s) == [rest[..end + 2]]
  {
    hide Index;
    ExtractNone(rest[end + 2..]);
    assert s[start..start + end + 2] == rest[..end + 2];
    assert s[start + end + 2..] == rest[end + 2..];
  }

  lemma ClosesAt(name: string, after: string)
    requires Plain(name)
    ensures Index(Braced(name) + after, CLOSE) == |name| + 2
  {
    var rest := Braced(name) + after;
    assert rest[|name| + 2..|name| + 4] == CLOSE;
    assert At(rest, CLOSE, |name| + 2);
    forall j | At(rest, CLOSE, j) ensures j >= |name| + 2 { AtChar(rest, CLOSE, j, 0); }
  }

  lemma ScannerOfBinding(tmpl: string, flag: string, ph: string)
    requires Joins(tmpl, flag, ph)
    ensures Extract(tmpl) == [ph]
  {
    var name := KnownShape(ph);
    NoOpenInFlag(flag);
    ScannerSkips(flag + EQ, name, "");
    assert ph + "" == ph;
  }

  /** All the scanner finds in an acceptable element is the one placeholder it holds. */
  lemma ScannerAgrees(tmpl: string)
    requires Acceptable(tmpl)
    ensures forall ph :: ph in Extract(tmpl) ==> Known(ph)
    ensures |Extract(tmpl)| == if Contains(tmpl, OPEN) then 1 else 0
  {
    if Known(tmpl) {
      var name := KnownShape(tmpl);
      BracedShape(name);
    } else if Contains(tmpl, OPEN) {
      var flag: string, ph: string :| Binds(tmpl, flag, ph);
      ScannerOfBinding(tmpl, flag, ph);
    }
  }

  const FORBIDDEN: seq<string> := ["--dangerously", "--allow-dangerously", "--yolo", "--allow-all"]

  predicate IsBypass(arg: string) { exists i :: 0 <= i < |FORBIDDEN| && Bypasses(arg, FORBIDDEN[i]) }

  predicate Bypasses(arg: string, bad: string) {
    arg == bad || HasPrefix(arg, bad + "=") || HasPrefix(arg, bad + "-")
  }

  method FindBypass(arg: string) returns (found: bool)
    ensures found <==> IsBypass(arg)
  {
    for i := 0 to |FORBIDDEN|
      invariant forall k :: 0 <= k < i ==> !Bypasses(arg, FORBIDDEN[k])
    {
      if arg == FORBIDDEN[i] || HasPrefix(arg, FORBIDDEN[i] + "=") || HasPrefix(arg, FORBIDDEN[i] + "-") {
        return true;
      }
    }
    return false;
  }

  /** A forbidden flag is caught with anything hyphenated on to it, with a value, and bare. */
  lemma BypassesAreCaught(rest: string)
    ensures IsBypass("--dangerously" + "-" + rest) && IsBypass("--allow-dangerously" + "-" + rest)
    ensures IsBypass("--yolo" + "=" + rest) && IsBypass("--allow-all" + "-" + rest)
    ensures IsBypass("--yolo")
  {
    hide IsBypass;
    CaughtWith(0, "-", rest);
    CaughtWith(1, "-", rest);
    CaughtWith(2, "=", rest);
    CaughtWith(3, "-", rest);
    CaughtBare(2);
  }

  lemma CaughtBare(i: nat)
    requires i < |FORBIDDEN|
    ensures IsBypass(FORBIDDEN[i])
  {
    assert Bypasses(FORBIDDEN[i], FORBIDDEN[i]);
  }

  lemma CaughtWith(i: nat, join: string, rest: string)
    requires i < |FORBIDDEN| && (join == "-" || join == "=")
    ensures IsBypass(FORBIDDEN[i] + join + rest)
  {
    var arg := FORBIDDEN[i] + join + rest;
    assert arg[..|FORBIDDEN[i] + join|] == FORBIDDEN[i] + join;
    assert Bypasses(arg, FORBIDDEN[i]);
  }

  datatype LoadError = BypassFlag(index: nat) | UnknownName(index: nat, ph: string)

  /** The loader has nothing to say about this element. */
  predicate Loads(arg: string) { !IsBypass(arg) && forall ph :: ph in Extract(arg) ==> Known(ph) }

  method FirstUnknown(arg: string) returns (bad: Option<string>)
    ensures bad.None? <==> forall ph :: ph in Extract(arg) ==> Known(ph)
    ensures bad.Some? ==> bad.value in Extract(arg) && !Known(bad.value)
  {
    var found := ExtractPlaceholders(arg);
    for j := 0 to |found|
      invariant forall k :: 0 <= k < j ==> Known(found[k])
    {
      if !Known(found[j]) { return Some(found[j]); }
    }
    return None;
  }

  method ValidateArgs(args: seq<string>) returns (e: Option<LoadError>)
    ensures e.None? ==> forall i :: 0 <= i < |args| ==> Loads(args[i])
    ensures e.Some? ==>
      && e.value.index < |args| && !Loads(args[e.value.index])
      && (forall i :: 0 <= i < e.value.index ==> Loads(args[i]))
      && (e.value.BypassFlag? <==> IsBypass(args[e.value.index]))
      && (e.value.UnknownName? ==> e.value.ph in Extract(args[e.value.index]) && !Known(e.value.ph))
  {
    for i := 0 to |args|
      invariant forall k :: 0 <= k < i ==> Loads(args[k])
    {
      var bypass := FindBypass(args[i]);
      if bypass { return Some(BypassFlag(i)); }
      var bad := FirstUnknown(args[i]);
      if bad.Some? { return Some(UnknownName(i, bad.value)); }
    }
    return None;
  }

  /** If the builder accepts a template under any values, the scanner finds nothing
      unknown in it: all the loader can still object to is a bypass flag. */
  lemma BuilderImpliesLoader(template: seq<string>, v: Values)
    requires Build(template, v).Ok?
    ensures forall i :: 0 <= i < |template| ==> (Loads(template[i]) <==> !IsBypass(template[i]))
  {
    BuildAccepted(template, v);
    forall i | 0 <= i < |template| ensures Loads(template[i]) <==> !IsBypass(template[i]) {
      ScannerAgrees(template[i]);
    }
  }

  /** A flag and an equals sign. */
  ghost predicate IsBinding(before: string) {
    exists flag: string :: before == flag + EQ && HasPrefix(flag, "-") && !Contains(flag, EQ)
  }

  /** The converse fails. A placeholder inside other text, on either side, is all the
      scanner finds and known to it; the builder takes it only when the text is nothing,
      or a flag and an equals sign before a placeholder with a single value. */
  lemma LoaderPassesInterpolation(before: string, name: string, after: string, v: Values)
    requires name in NAMES && !Contains(before, OPEN) && !Contains(after, OPEN)
    requires before == "" || before[|before| - 1] != '{'
    ensures var ph, tmpl := Braced(name), before + (Braced(name) + after);
      && Extract(tmpl) == [ph] && Known(ph)
      && (Element(tmpl, v).Ok? <==> after == "" && (before == "" || (IsBinding(before) && !IsListName(ph))))
  {
    var ph, tmpl := Braced(name), before + (Braced(name) + after);
    NamesArePlain(name);
    ScannerSkips(before, name, after);
    ElementAccepted(tmpl, v);
    hide Index, Contains, Extract, Element;
    assert ph + "" == ph && "" + ph == ph;
    if after == "" && IsBinding(before) && !IsListName(ph) { BindsBefore(before, name); }
    if Known(tmpl) { OnlyAlone(before, ph, after); }
    if exists flag: string, p: string :: Binds(tmpl, flag, p) {
      var flag: string, p: string :| Binds(tmpl, flag, p);
      OnlyBound(before, ph, after, flag, p);
    }
  }

  lemma BindsBefore(before: string, name: string)
    requires name in NAMES && IsBinding(before) && !Contains(before, OPEN) && !IsListName(Braced(name))
    ensures exists flag: string, ph: string :: Binds(before + Braced(name), flag, ph)
  {
    var flag: string :| before == flag + EQ && HasPrefix(flag, "-") && !Contains(flag, EQ);
    forall j ensures !At(flag, OPEN, j) { AtExtends(flag, EQ, OPEN, j); }
    assert Binds(before + Braced(name), flag, Braced(name));
  }

  lemma OnlyAlone(before: string, ph: string, after: string)
    requires Known(before + (ph + after)) && Extract(before + (ph + after)) == [ph]
    ensures before == after == ""
  {
    var other := KnownShape(before + (ph + after));
    BracedShape(other);
    assert |before + (ph + after)| == |before| + |ph| + |after|;
  }

  lemma OnlyBound(before: string, ph: string, after: string, flag: string, p: string)
    requires Binds(before + (ph + after), flag, p) && Extract(before + (ph + after)) == [ph]
    requires Index(before + (ph + after), OPEN) == |before|
    ensures after == "" && IsBinding(before) && !IsListName(ph)
  {
    var tmpl := before + (ph + after);
    ScannerOfBinding(tmpl, flag, p);
    BindingOpens(tmpl, flag, p);
    assert |tmpl| == |before| + |ph| + |after|;
    assert before == tmpl[..|before|] == flag + EQ;
  }

  lemma BindingOpens(tmpl: string, flag: string, ph: string)
    requires Joins(tmpl, flag, ph)
    ensures Index(tmpl, OPEN) == |flag| + 1
  {
    NoOpenInFlag(flag);
    var name := KnownShape(ph);
    OpensAfter(flag + EQ, ph);
  }

  /** Of the elements whose every placeholder is known to the loader, the builder takes
      exactly those without an opening pair, and those that hold one placeholder and are
      it, or bind it to a flag and it has a single value. Refused are, besides the text
      around a placeholder: two placeholders, and an opening pair nothing closes. */
  lemma BuilderTakesExactly(tmpl: string, v: Values)
    requires forall ph :: ph in Extract(tmpl) ==> Known(ph)
    ensures Element(tmpl, v).Ok? <==>
      || !Contains(tmpl, OPEN)
      || (|Extract(tmpl)| == 1
          && (tmpl == Extract(tmpl)[0] || exists flag: string :: Binds(tmpl, flag, Extract(tmpl)[0])))
  {
    ElementAccepted(tmpl, v);
    if Acceptable(tmpl) && Contains(tmpl, OPEN) {
      if Known(tmpl) {
        var name := KnownShape(tmpl);
        BracedShape(name);
      } else {
        var flag: string, ph: string :| Binds(tmpl, flag, ph);
        ScannerOfBinding(tmpl, flag, ph);
      }
    }
  }

  /** So a list bound to a flag passes the loader alone, */
  lemma LoaderPassesBoundList(tmpl: string, flag: string, ph: string, v: Values)
    requires Joins(tmpl, flag, ph) && IsListName(ph)
    ensures Extract(tmpl) == [ph] && Known(ph)
    ensures Element(tmpl, v) == Err(ListBound)
  {
    BindingShape(tmpl, flag, ph);
    ScannerOfBinding(tmpl, flag, ph);
    ExpandIsKnown(ph, v);
  }

  /** and so does a stray brace after the placeholder, which only the builder counts in. */
  lemma LoaderPassesStrayBrace(name: string, v: Values)
    requires name in NAMES
    ensures Extract(Braced(name) + "}") == [Braced(name)] && Known(Braced(name))
    ensures Element(Braced(name) + "}", v) == Err(UnknownPlaceholder)
  {
    var s := Braced(name) + "}";
    NamesArePlain(name);
    ScannerSkips("", name, "}");
    assert "" + s == s;
    StrayBraceIsWhole(name);
    StrayBraceIsUnknown(name);
    ExpandIsKnown(s, v);
  }

  lemma StrayBraceIsUnknown(name: string)
    ensures !Known(Braced(name) + "}")
  {
    var s := Braced(name) + "}";
    forall other | other in NAMES ensures s != Braced(other) {
      NamesArePlain(other);
      if |other| == |name| + 1 { assert Braced(other)[|name| + 2] == other[|name|]; }
      assert s[|name| + 2] == '}';
    }
  }

  lemma StrayBraceIsWhole(name: string)
    requires Plain(name)
    ensures IsWholePlaceholder(Braced(name) + "}")
  {
    var s := Braced(name) + "}";
    ClosesAt(name, "}");
    assert At(s, OPEN, 0);
    var rest := s[2..];
    forall j ensures !At(rest, OPEN, j) { AtChar(rest, OPEN, j, 0); }
    assert s[|name| + 4..] == "}";
  }

  // ---- The prompt ----

  /** An element the prompt goes into. */
  predicate TakesPrompt(tmpl: string) {
    tmpl == Braced("prompt") || (IsFlagBinding(tmpl) && Bound(tmpl) == Braced("prompt"))
  }

  lemma OtherPlaceholders(ph: string, v: Values, w: Values)
    requires w == v.(prompt := w.prompt)
    ensures ph != Braced("prompt") ==> Expand(ph, v) == Expand(ph, w)
    ensures Expand(Braced("prompt"), v) == Some(Single(v.prompt)) && !OmitWhenEmpty(Braced("prompt"))
  {
  }

  /** The prompt becomes one whole element, or the value of one flag. */
  lemma PromptLandsWhole(tmpl: string, v: Values)
    requires TakesPrompt(tmpl)
    ensures Element(tmpl, v) == Ok([if tmpl == Braced("prompt") then v.prompt else Flag(tmpl) + EQ + v.prompt])
  {
    OtherPlaceholders("", v, v);
    if tmpl == Braced("prompt") {
      BracedShape("prompt");
    } else {
      PromptBinds(tmpl);
    }
  }

  lemma PromptBinds(tmpl: string)
    requires TakesPrompt(tmpl) && tmpl != Braced("prompt")
    ensures Contains(tmpl, OPEN) && !IsWholePlaceholder(tmpl) && IsFlagBinding(tmpl) && Bound(tmpl) == Braced("prompt")
  {
    assert "prompt" in NAMES;
    FlagHasNoEquals(tmpl);
    assert Flag(tmpl)[..1] == tmpl[..1];
    BindingShape(tmpl, Flag(tmpl), Braced("prompt"));
  }

  /** An optional value contributes no argument when it is absent. */
  function Optional(value: string): Result<seq<string>, Refusal> { Ok(if value == "" then [] else [value]) }

  /** Every placeholder gives its own value: the prompt, the directory and the gate's file as
      they are, */
  lemma PlainValues(v: Values)
    ensures Element(Braced("prompt"), v) == Ok([v.prompt]) && Element(Braced("cwd"), v) == Ok([v.cwd])
    ensures Element(Braced("gate_config"), v) == Ok([v.gateConfig])
  {
    hide Element;
    AloneIsWhole("prompt", v);
    AloneIsWhole("cwd", v);
    AloneIsWhole("gate_config", v);
  }

  /** the optional ones unless they are empty, */
  lemma OptionalValues(v: Values)
    ensures Element(Braced("message"), v) == Optional(v.message) && Element(Braced("model"), v) == Optional(v.model)
    ensures Element(Braced("max_turns"), v) == Optional(v.maxTurns)
    ensures Element(Braced("vendor_session_id"), v) == Optional(v.vendorSessionID)
  {
    hide Element;
    AloneIsWhole("message", v);
    AloneIsWhole("model", v);
    AloneIsWhole("max_turns", v);
    AloneIsWhole("vendor_session_id", v);
  }

  /** the lists element by element. */
  lemma ListValues(v: Values)
    ensures Element(Braced("sandbox_flags"), v) == Ok(v.sandboxFlags)
    ensures Element(Braced("resume_sandbox_flags"), v) == Ok(v.resumeSandboxFlags)
    ensures Element(Braced("gate_flags"), v) == Ok(v.gateFlags)
  {
    hide Element;
    AloneIsWhole("sandbox_flags", v);
    AloneIsWhole("resume_sandbox_flags", v);
    AloneIsWhole("gate_flags", v);
  }

  lemma AloneIsWhole(name: string, v: Values)
    requires name in NAMES
    ensures Element(Braced(name), v) == WholeElement(Braced(name), v)
  {
    NamesArePlain(name);
    BracedShape(name);
  }

  /** Bound to a flag a placeholder gives the same value as alone, kept even when empty. */
  lemma BoundGivesTheSame(tmpl: string, flag: string, ph: string, v: Values)
    requires Binds(tmpl, flag, ph)
    ensures Element(ph, v).Ok? && |Element(ph, v).value| <= 1
    ensures Element(tmpl, v) == Ok([flag + EQ + if Element(ph, v).value == [] then "" else Element(ph, v).value[0]])
  {
    BindingShape(tmpl, flag, ph);
    ExpandIsKnown(ph, v);
    var name: string :| name in NAMES && ph == Braced(name);
    AloneIsWhole(name, v);
  }

  /** Whatever the value, splitting a bound argument at its first '=' gives back exactly
      the flag and the value. */
  lemma BoundArgumentSplits(tmpl: string, v: Values)
    requires IsFlagBinding(tmpl) && Element(tmpl, v).Ok? && Contains(tmpl, OPEN) && !IsWholePlaceholder(tmpl)
    ensures Expand(Bound(tmpl), v).Some? && Expand(Bound(tmpl), v).value.Single?
    ensures |Element(tmpl, v).value| == 1
    ensures var arg := Element(tmpl, v).value[0];
      Contains(arg, EQ) && Flag(arg) == Flag(tmpl) && Bound(arg) == Expand(Bound(tmpl), v).value.value
  {
    FlagHasNoEquals(tmpl);
    SplitAtEquals(Flag(tmpl), Expand(Bound(tmpl), v).value.value);
  }

  lemma OtherElements(tmpl: string, v: Values, w: Values)
    requires w == v.(prompt := w.prompt) && !TakesPrompt(tmpl)
    ensures Element(tmpl, v) == Element(tmpl, w)
  {
    OtherPlaceholders(tmpl, v, w);
    if IsFlagBinding(tmpl) { OtherPlaceholders(Bound(tmpl), v, w); }
  }

  function Repeat(i: nat, n: nat): (r: seq<nat>)
    ensures |r| == n && forall j :: 0 <= j < n ==> r[j] == i
  {
    seq(n, _ => i)
  }

  /** For each argument, the template element it came from. */
  function Origins(pieces: seq<Piece>, i: nat): seq<nat>
    requires i <= |pieces|
    decreases |pieces| - i
  {
    if i == |pieces| || pieces[i].Err? then [] else Repeat(i, |pieces[i].value|) + Origins(pieces, i + 1)
  }

  /** Two argument lists of one length, from the same elements, differing only in those
      elements the prompt goes into. */
  ghost predicate DifferAtPrompt(template: seq<string>, origins: seq<nat>, a: seq<string>, b: seq<string>) {
    && |a| == |b| == |origins|
    && forall j :: 0 <= j < |a| ==> origins[j] < |template| && (a[j] == b[j] || TakesPrompt(template[origins[j]]))
  }

  ghost predicate PieceDiffers(template: seq<string>, i: nat, p: Piece, q: Piece) {
    match p
    case Err(_) => q == p
    case Ok(value) => q.Ok? && DifferAtPrompt(template, Repeat(i, |value|), value, q.value)
  }

  lemma ElementDiffers(template: seq<string>, i: nat, v: Values, w: Values)
    requires i < |template| && w == v.(prompt := w.prompt)
    ensures PieceDiffers(template, i, Element(template[i], v), Element(template[i], w))
  {
    if TakesPrompt(template[i]) {
      PromptLandsWhole(template[i], v);
      PromptLandsWhole(template[i], w);
    } else {
      OtherElements(template[i], v, w);
    }
  }

  lemma DiffersConcat(template: seq<string>, o1: seq<nat>, a1: seq<string>, b1: seq<string>,
                      o2: seq<nat>, a2: seq<string>, b2: seq<string>)
    requires DifferAtPrompt(template, o1, a1, b1) && DifferAtPrompt(template, o2, a2, b2)
    ensures DifferAtPrompt(template, o1 + o2, a1 + a2, b1 + b2)
  {
  }

  lemma {:induction false} AssembledDiffer(template: seq<string>, p: seq<Piece>, q: seq<Piece>, i: nat)
    requires i <= |p| == |q| && forall k :: 0 <= k < |p| ==> PieceDiffers(template, k, p[k], q[k])
    ensures Assemble(p, i).Err? ==> Assemble(q, i) == Assemble(p, i)
    ensures Assemble(p, i).Ok? ==>
      && Assemble(q, i).Ok? && Origins(q, i) == Origins(p, i)
      && DifferAtPrompt(template, Origins(p, i), Assemble(p, i).value, Assemble(q, i).value)
    decreases |p| - i
  {
    if i < |p| {
      AssembledDiffer(template, p, q, i + 1);
      if p[i].Ok? && Assemble(p, i + 1).Ok? {
        DiffersConcat(template, Repeat(i, |p[i].value|), p[i].value, q[i].value,
                      Origins(p, i + 1), Assemble(p, i + 1).value, Assemble(q, i + 1).value);
      }
    }
  }

  /** The prompt never decides whether a template can be built, how many arguments come
      out, or what any argument but its own is. */
  lemma PromptDoesNotInterfere(template: seq<string>, v: Values, w: Values)
    requires w == v.(prompt := w.prompt)
    ensures Build(template, v).Err? ==> Build(template, w) == Build(template, v)
    ensures Build(template, v).Ok? ==>
      && Build(template, w).Ok?
      && DifferAtPrompt(template, Origins(Elements(template, v), 0), Build(template, v).value, Build(template, w).value)
  {
    var p, q := Elements(template, v), Elements(template, w);
    forall k | 0 <= k < |p| ensures PieceDiffers(template, k, p[k], q[k]) { ElementDiffers(template, k, v, w); }
    AssembledDiffer(template, p, q, 0);
  }
}
