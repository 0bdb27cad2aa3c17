/** Tool calls in a model's answer: the blocks are cut out and read, the rest is the final text. */
module ToolCalls {
  import opened Common
  import opened Text
  import opened TagSearch
  import JsonRepair

  datatype TagPair = TagPair(open: string, close: string)

  type Tags = t: TagPair | t.open != "" && t.close != "" witness TagPair("<>", "</>")

  const CALL: Tags := TagPair("<tool_call>", "</tool_call>")
  const NAME: Tags := TagPair("<tool_name>", "</tool_name>")
  const ARGS: Tags := TagPair("<arguments>", "</arguments>")

  type Value(==, !new)

  /** What loading a JSON text gives. */
  datatype Loaded = Malformed | Object(value: Value) | NotObject

  datatype Problem = Undecodable | NotAnObject

  /** Without arguments a call carries the empty object. */
  datatype ToolCall = ToolCall(name: string, arguments: Option<Value>, raw: string, problem: Option<Problem>)

  datatype Warning = NoName | EmptyName | UsedFence(name: string) | Repaired(name: string)

  datatype Reading = Reading(calls: seq<ToolCall>, warnings: seq<Warning>)

  datatype ParseResult = ParseResult(calls: seq<ToolCall>, text: string, warnings: seq<Warning>)

  // -------- spans --------

  /** An opening tag at `start`, the first closing tag after it ending at `end`. */
  datatype Span = Span(start: nat, bodyStart: nat, bodyEnd: nat, end: nat)

  function Enclosed(s: string, i: nat, t: Tags): (r: Option<Span>)
    ensures r.Some? ==> i <= r.value.start < r.value.bodyStart <= r.value.bodyEnd < r.value.end <= |s|
  {
    match FirstFrom(s, i, t.open)
    case None => None
    case Some(o) =>
      match FirstFrom(s, o + |t.open|, t.close)
      case None => None
      case Some(c) => Some(Span(o, o + |t.open|, c, c + |t.close|))
  }

  function Inner(s: string, t: Tags): Option<string> {
    match Enclosed(s, 0, t)
    case None => None
    case Some(sp) => Some(Trim(s[sp.bodyStart..sp.bodyEnd]))
  }

  function Spans(s: string, i: nat, t: Tags): seq<Span>
    decreases |s| - i
  {
    match Enclosed(s, i, t)
    case None => []
    case Some(sp) => [sp] + Spans(s, sp.end, t)
  }

  // -------- fences --------

  function LanguageLength(s: string): (n: nat)
    ensures n <= |s|
  {
    if |s| >= 4 && Lower(s[..4]) in {"json", "text"} then 4
    else if |s| >= 3 && Lower(s[..3]) == "xml" then 3
    else 0
  }

  /** Drops a fence that opens the text: backticks, perhaps a language, and a line end. */
  function DropOpeningFence(s: string): string {
    var t := TrimLeft(s);
    if |t| < 3 || t[..3] != "```" then s
    else
      var rest := t[3..][LanguageLength(t[3..])..];
      if '\n' in rest[..|rest| - |TrimLeft(rest)|] then TrimLeft(rest) else s
  }

  function DropClosingFence(s: string): string {
    var t := TrimRight(s);
    if |t| >= 3 && t[|t| - 3..] == "```" then t[..|t| - 3] else s
  }

  function Unfenced(s: string): string {
    Trim(DropClosingFence(DropOpeningFence(s)))
  }

  /** Where a fenced object ends: after the first brace that only white space and backticks follow. */
  function ObjectEnd(s: string, i: nat): (r: Option<nat>)
    ensures r.Some? ==> i < r.value <= |s|
    decreases |s| - i
  {
    if i >= |s| then None
    else if s[i] == '}' && StartsWith(TrimLeft(s[i + 1..]), "```") then Some(i + 1)
    else ObjectEnd(s, i + 1)
  }

  /** The first fenced object: backticks, perhaps `json`, an object, backticks. */
  function FencedObject(s: string): Option<string>
    decreases |s|
  {
    if s == "" then None
    else
      var rest := if StartsWith(s, "```") then s[3..] else "";
      var body := TrimLeft(if |rest| >= 4 && Lower(rest[..4]) == "json" then rest[4..] else rest);
      if StartsWith(body, "{") && ObjectEnd(body, 0).Some?
      then Some(body[..ObjectEnd(body, 0).value])
      else FencedObject(s[1..])
  }

  // -------- one block --------

  /** Loads the arguments, repaired if they do not load as they are. */
  function ReadArguments(loads: string -> Loaded, name: string, args: string, raw: string): Reading {
    var first := loads(args);
    var parsed := if first.Malformed? then loads(JsonRepair.Repair(JsonRepair.Outside, args)) else first;
    var call :=
      match parsed
      case Malformed => ToolCall(name, None, raw, Some(Undecodable))
      case NotObject => ToolCall(name, None, raw, Some(NotAnObject))
      case Object(v) => ToolCall(name, Some(v), raw, None);
    Reading([call], if first.Malformed? && !parsed.Malformed? then [Repaired(name)] else [])
  }

  function ReadBlock(loads: string -> Loaded, body: string, raw: string): Reading {
    match Inner(body, NAME)
    case None => Reading([], [NoName])
    case Some(name) =>
      if name == "" then Reading([], [EmptyName]) else ReadNamed(loads, body, raw, name)
  }

  function ReadNamed(loads: string -> Loaded, body: string, raw: string, name: string): Reading {
    match Inner(body, ARGS)
    case Some(args) => ReadArguments(loads, name, Unfenced(args), raw)
    case None =>
      match FencedObject(body)
      case None => Reading([ToolCall(name, None, raw, None)], [])
      case Some(args) =>
        var r := ReadArguments(loads, name, Unfenced(Trim(args)), raw);
        r.(warnings := [UsedFence(name)] + r.warnings)
  }

  /** Reads one block and adds what it gives to the result. */
  method ParseOneBlock(loads: string -> Loaded, body: string, raw: string, before: ParseResult)
    returns (result: ParseResult)
    ensures var r := ReadBlock(loads, body, raw);
            result == before.(calls := before.calls + r.calls, warnings := before.warnings + r.warnings)
  {
    result := before;
    var name := Inner(body, NAME);
    if name.None? {
      result := result.(warnings := result.warnings + [NoName]);
      return;
    }
    if name.value == "" {
      result := result.(warnings := result.warnings + [EmptyName]);
      return;
    }
    result := ReadCall(loads, body, raw, name.value, result);
  }

  /** The arguments of a named call: tagged, or fenced, or none at all. */
  method ReadCall(loads: string -> Loaded, body: string, raw: string, name: string, before: ParseResult)
    returns (result: ParseResult)
    ensures var r := ReadNamed(loads, body, raw, name);
            result == before.(calls := before.calls + r.calls, warnings := before.warnings + r.warnings)
  {
    result := before;
    var args := Inner(body, ARGS);
    if args.None? {
      var fenced := FencedObject(body);
      if fenced.Some? {
        args := Some(Trim(fenced.value));
        result := result.(warnings := result.warnings + [UsedFence(name)]);
      }
    }
    if args.None? {
      result := result.(calls := result.calls + [ToolCall(name, None, raw, None)]);
      return;
    }
    result := AddCall(loads, name, Unfenced(args.value), raw, result);
  }

  /** Loads the arguments, after a repair if need be, and adds the call. */
  method AddCall(loads: string -> Loaded, name: string, args: string, raw: string, before: ParseResult)
    returns (result: ParseResult)
    ensures var r := ReadArguments(loads, name, args, raw);
            result == before.(calls := before.calls + r.calls, warnings := before.warnings + r.warnings)
  {
    result := before;
    var parsed := loads(args);
    if parsed.Malformed? {
      var repaired := JsonRepair.AttemptJsonRepair(args);
      parsed := loads(repaired);
      if parsed.Malformed? {
        result := result.(calls := result.calls + [ToolCall(name, None, raw, Some(Undecodable))]);
        return;
      }
      result := result.(warnings := result.warnings + [Repaired(name)]);
    }
    if parsed.NotObject? {
      result := result.(calls := result.calls + [ToolCall(name, None, raw, Some(NotAnObject))]);
      return;
    }
    result := result.(calls := result.calls + [ToolCall(name, Some(parsed.value), raw, None)]);
  }

  // -------- the whole answer --------

  /** The pieces between the spans, from the cursor to the end. */
  function Kept(s: string, spans: seq<Span>, cursor: nat): seq<string>
    requires cursor <= |s| && InOrder(s, spans, cursor)
    decreases |spans|
  {
    if spans == [] then [s[cursor..]]
    else [s[cursor..spans[0].start]] + Kept(s, spans[1..], spans[0].end)
  }

  predicate InOrder(s: string, spans: seq<Span>, cursor: nat)
    decreases |spans|
  {
    spans == [] ||
    (cursor <= spans[0].start < spans[0].bodyStart <= spans[0].bodyEnd < spans[0].end <= |s| &&
     InOrder(s, spans[1..], spans[0].end))
  }

  lemma {:induction false} SpansInOrder(s: string, i: nat, t: Tags)
    ensures InOrder(s, Spans(s, i, t), i)
    decreases |s| - i
  {
    var e := Enclosed(s, i, t);
    if e.Some? {
      SpansInOrder(s, e.value.end, t);
      assert Spans(s, i, t)[1..] == Spans(s, e.value.end, t);
    }
  }

  function ReadAll(loads: string -> Loaded, s: string, spans: seq<Span>, cursor: nat): Reading
    requires InOrder(s, spans, cursor)
    decreases |spans|
  {
    if spans == [] then Reading([], [])
    else
      var sp := spans[0];
      var r := ReadBlock(loads, Trim(s[sp.bodyStart..sp.bodyEnd]), s[sp.start..sp.end]);
      var rest := ReadAll(loads, s, spans[1..], sp.end);
      Reading(r.calls + rest.calls, r.warnings + rest.warnings)
  }

  function NonEmptyTrimmed(pieces: seq<string>): seq<string> {
    if pieces == [] then []
    else (if Trim(pieces[0]) == "" then [] else [Trim(pieces[0])]) + NonEmptyTrimmed(pieces[1..])
  }

  function Join(parts: seq<string>): string {
    if parts == [] then ""
    else if |parts| == 1 then parts[0]
    else parts[0] + "\n" + Join(parts[1..])
  }

  predicate IsTrimmed(s: string) {
    s != "" && !IsSpace(s[0]) && !IsSpace(s[|s| - 1])
  }

  lemma TrimmedStays(s: string)
    requires s == "" || IsTrimmed(s)
    ensures Trim(s) == s
  {
  }

  lemma {:induction false} PartsAreTrimmed(pieces: seq<string>)
    ensures forall i :: 0 <= i < |NonEmptyTrimmed(pieces)| ==> IsTrimmed(NonEmptyTrimmed(pieces)[i])
  {
    if pieces != [] {
      PartsAreTrimmed(pieces[1..]);
      TrimAgain(pieces[0]);
    }
  }

  lemma {:induction false} JoinIsTrimmed(parts: seq<string>)
    requires forall i :: 0 <= i < |parts| ==> IsTrimmed(parts[i])
    ensures parts != [] ==> IsTrimmed(Join(parts))
    ensures Trim(Join(parts)) == Join(parts)
  {
    if |parts| > 1 {
      JoinIsTrimmed(parts[1..]);
      var rest := Join(parts[1..]);
      var all := parts[0] + "\n" + rest;
      assert all[0] == parts[0][0] && all[|all| - 1] == rest[|rest| - 1];
    }
    TrimmedStays(Join(parts));
  }

  /** The calls of all blocks in order, and the text outside the blocks. */
  function Parsed(loads: string -> Loaded, cleaned: string): ParseResult {
    SpansInOrder(cleaned, 0, CALL);
    var spans := Spans(cleaned, 0, CALL);
    var r := ReadAll(loads, cleaned, spans, 0);
    ParseResult(r.calls, Join(NonEmptyTrimmed(Kept(cleaned, spans, 0))), r.warnings)
  }

  lemma EmptyAnswer(loads: string -> Loaded)
    ensures Unfenced("") == "" && Parsed(loads, "") == ParseResult([], "", [])
  {
    assert Enclosed("", 0, CALL) == None;
    assert Kept("", [], 0) == [""];
    assert [""][1..] == [];
  }

  /** Cuts every block out of the cleaned text, reads it, and joins what is left. */
  method ParseToolCalls(loads: string -> Loaded, text: string) returns (result: ParseResult)
    ensures result == Parsed(loads, Unfenced(text))
  {
    if text == "" {
      EmptyAnswer(loads);
      return ParseResult([], "", []);
    }
    var cleaned := Unfenced(text);
    var spans;
    spans, result := ReadBlocks(loads, cleaned);
    SpansInOrder(cleaned, 0, CALL);
    var final := cleaned;
    if spans != [] {
      var kept := CutOut(cleaned, spans);
      final := Join(NonEmptyTrimmed(kept));
    } else {
      OnePiece(cleaned);
    }
    PartsAreTrimmed(Kept(cleaned, spans, 0));
    JoinIsTrimmed(NonEmptyTrimmed(Kept(cleaned, spans, 0)));
    result := result.(text := Trim(final));
  }

  /** Finds the blocks one after the other and reads each. */
  method ReadBlocks(loads: string -> Loaded, cleaned: string) returns (spans: seq<Span>, result: ParseResult)
    ensures spans == Spans(cleaned, 0, CALL)
    ensures var r := ReadAllFrom(loads, cleaned, 0, CALL); result == ParseResult(r.calls, "", r.warnings)
  {
    spans, result := [], ParseResult([], "", []);
    var i := 0;
    var next := Enclosed(cleaned, i, CALL);
    ghost var all := ReadAllFrom(loads, cleaned, 0, CALL);
    ghost var ahead := all;
    while next.Some?
      invariant i <= |cleaned| && next == Enclosed(cleaned, i, CALL)
      invariant Spans(cleaned, 0, CALL) == spans + Spans(cleaned, i, CALL)
      invariant ahead == ReadAllFrom(loads, cleaned, i, CALL) && result.text == ""
      invariant all.calls == result.calls + ahead.calls && all.warnings == result.warnings + ahead.warnings
      decreases |cleaned| - i
    {
      var sp := next.value;
      ReadNext(loads, cleaned, i, CALL);
      ghost var r := ReadBlock(loads, Trim(cleaned[sp.bodyStart..sp.bodyEnd]), cleaned[sp.start..sp.end]);
      ahead := ReadAllFrom(loads, cleaned, sp.end, CALL);
      Assoc(result.calls, r.calls, ahead.calls);
      Assoc(result.warnings, r.warnings, ahead.warnings);
      Assoc(spans, [sp], Spans(cleaned, sp.end, CALL));
      spans := spans + [sp];
      result := ParseOneBlock(loads, Trim(cleaned[sp.bodyStart..sp.bodyEnd]), cleaned[sp.start..sp.end], result);
      i := sp.end;
      next := Enclosed(cleaned, i, CALL);
    }
    ReadNext(loads, cleaned, i, CALL);
  }

  /** The pieces left when the spans are cut out. */
  method CutOut(s: string, spans: seq<Span>) returns (kept: seq<string>)
    requires InOrder(s, spans, 0)
    ensures kept == Kept(s, spans, 0)
  {
    kept := [];
    var cursor: nat, todo := 0, spans;
    while todo != []
      invariant cursor <= |s| && InOrder(s, todo, cursor)
      invariant Kept(s, spans, 0) == kept + Kept(s, todo, cursor)
      decreases |todo|
    {
      kept := kept + [s[cursor..todo[0].start]];
      cursor := todo[0].end;
      todo := todo[1..];
    }
    kept := kept + [s[cursor..]];
  }

  ghost function ReadAllFrom(loads: string -> Loaded, s: string, i: nat, t: Tags): Reading {
    SpansInOrder(s, i, t);
    ReadAll(loads, s, Spans(s, i, t), i)
  }

  lemma CutAt(loads: string -> Loaded, s: string, i: nat, t: Tags, sp: Span, a: string, body: string, raw: string)
    requires i <= |s| && Enclosed(s, i, t) == Some(sp)
    requires s[i..sp.start] == a && s[sp.bodyStart..sp.bodyEnd] == body && s[sp.start..sp.end] == raw
    ensures KeptFrom(s, i, t) == [a] + KeptFrom(s, sp.end, t)
    ensures ReadAllFrom(loads, s, i, t) == Both(ReadBlock(loads, Trim(body), raw), ReadAllFrom(loads, s, sp.end, t))
  {
    KeptNext(s, i, t);
    ReadNext(loads, s, i, t);
  }

  function Both(r: Reading, rest: Reading): Reading {
    Reading(r.calls + rest.calls, r.warnings + rest.warnings)
  }

  ghost function KeptFrom(s: string, i: nat, t: Tags): seq<string>
    requires i <= |s|
  {
    SpansInOrder(s, i, t);
    Kept(s, Spans(s, i, t), i)
  }

  lemma KeptNext(s: string, i: nat, t: Tags)
    requires i <= |s|
    ensures match Enclosed(s, i, t)
            case None => KeptFrom(s, i, t) == [s[i..]]
            case Some(sp) => KeptFrom(s, i, t) == [s[i..sp.start]] + KeptFrom(s, sp.end, t)
  {
    SpansInOrder(s, i, t);
    var e := Enclosed(s, i, t);
    if e.Some? {
      assert Spans(s, i, t)[0] == e.value && Spans(s, i, t)[1..] == Spans(s, e.value.end, t);
    }
  }

  lemma ReadNext(loads: string -> Loaded, s: string, i: nat, t: Tags)
    ensures match Enclosed(s, i, t)
            case None => ReadAllFrom(loads, s, i, t) == Reading([], [])
            case Some(sp) =>
              var r := ReadBlock(loads, Trim(s[sp.bodyStart..sp.bodyEnd]), s[sp.start..sp.end]);
              var rest := ReadAllFrom(loads, s, sp.end, t);
              ReadAllFrom(loads, s, i, t) == Reading(r.calls + rest.calls, r.warnings + rest.warnings)
  {
    SpansInOrder(s, i, t);
    var e := Enclosed(s, i, t);
    if e.Some? {
      assert Spans(s, i, t)[0] == e.value && Spans(s, i, t)[1..] == Spans(s, e.value.end, t);
    }
  }

  lemma OnePiece(s: string)
    ensures Kept(s, [], 0) == [s]
    ensures Trim(Join(NonEmptyTrimmed([s]))) == Trim(s)
  {
    assert s[0..] == s;
    assert [s][1..] == [];
    TrimAgain(s);
  }

  // -------- nothing is lost --------

  function CutBlocks(s: string, spans: seq<Span>, cursor: nat): seq<string>
    requires InOrder(s, spans, cursor)
    decreases |spans|
  {
    if spans == [] then [] else [s[spans[0].start..spans[0].end]] + CutBlocks(s, spans[1..], spans[0].end)
  }

  /** Pieces and blocks in turn. */
  function Weave(kept: seq<string>, blocks: seq<string>): string
    decreases |kept|
  {
    if kept == [] then ""
    else if blocks == [] then kept[0]
    else kept[0] + blocks[0] + Weave(kept[1..], blocks[1..])
  }

  lemma {:induction false} NothingIsLost(s: string, spans: seq<Span>, cursor: nat)
    requires cursor <= |s| && InOrder(s, spans, cursor)
    ensures |Kept(s, spans, cursor)| == |CutBlocks(s, spans, cursor)| + 1
    ensures Weave(Kept(s, spans, cursor), CutBlocks(s, spans, cursor)) == s[cursor..]
    decreases |spans|
  {
    if spans != [] {
      var sp := spans[0];
      NothingIsLost(s, spans[1..], sp.end);
      var kept, cut := Kept(s, spans[1..], sp.end), CutBlocks(s, spans[1..], sp.end);
      assert ([s[cursor..sp.start]] + kept)[1..] == kept;
      assert ([s[sp.start..sp.end]] + cut)[1..] == cut;
      assert s[cursor..] == s[cursor..sp.start] + s[sp.start..sp.end] + s[sp.end..];
    }
  }

  /** For every text the kept pieces and the cut blocks, put back in turn, are the cleaned text. */
  lemma CutAndKeptAreTheText(cleaned: string)
    ensures InOrder(cleaned, Spans(cleaned, 0, CALL), 0)
    ensures Weave(Kept(cleaned, Spans(cleaned, 0, CALL), 0), CutBlocks(cleaned, Spans(cleaned, 0, CALL), 0)) == cleaned
  {
    SpansInOrder(cleaned, 0, CALL);
    NothingIsLost(cleaned, Spans(cleaned, 0, CALL), 0);
    assert cleaned[0..] == cleaned;
  }
}
