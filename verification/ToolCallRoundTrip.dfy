/** Printed prose and tool calls are parsed back. */
module ToolCallRoundTrip {
  import opened Common
  import opened Text
  import opened TagSearch
  import opened ToolCallFences
  import opened ToolCallPrinting
  import opened ToolCalls
  import JsonRepair

  // -------- what a printed call stands for --------

  /** The arguments as they load, once repaired if they do not load as they are. */
  function Meaning(loads: string -> Loaded, text: string): Loaded {
    if loads(text).Malformed? then loads(JsonRepair.Repair(JsonRepair.Outside, text)) else loads(text)
  }

  /** The call as it was printed: its name, its arguments' value if it has some, and its own block. */
  function PrintedCall(loads: string -> Loaded, t: Turn): ToolCall {
    var name, block := Trim(t.name), PrintBlock(t.name, t.args);
    if t.args.Nothing? then ToolCall(name, None, block, None)
    else
      match Meaning(loads, Trim(t.args.text))
      case Object(v) => ToolCall(name, Some(v), block, None)
      case NotObject => ToolCall(name, None, block, Some(NotAnObject))
      case Malformed => ToolCall(name, None, block, Some(Undecodable))
  }

  /** A fence instead of tags is warned of, and so is a repair that made the arguments load. */
  function PrintedWarnings(loads: string -> Loaded, t: Turn): seq<Warning> {
    (if t.args.InFence? then [UsedFence(Trim(t.name))] else []) +
    if !t.args.Nothing? && loads(Trim(t.args.text)).Malformed? && !Meaning(loads, Trim(t.args.text)).Malformed?
    then [Repaired(Trim(t.name))] else []
  }

  /** Arguments that no fence wraps once more. */
  predicate PlainArguments(args: Arguments) {
    args.Nothing? || !HasOuterFence(Trim(args.text))
  }

  lemma PlainStays(text: string)
    requires !HasOuterFence(Trim(text))
    ensures Unfenced(Trim(text)) == Trim(text)
  {
    NoFenceNothingDropped(Trim(text));
    TrimAgain(text);
  }

  lemma ObjectTextIsPlain(text: string)
    requires IsObjectText(text)
    ensures Trim(text) == text && Unfenced(text) == text
  {
    TrimmedStays(text);
    assert TrimLeft(text) == text && TrimRight(text) == text;
    assert text[|text| - 1] != "```"[2];
    NoFenceNothingDropped(text);
  }

  /** Reading arguments gives the printed call; a fence only adds its warning. */
  lemma ReadsThePrinted(loads: string -> Loaded, t: Turn)
    requires !t.args.Nothing?
    ensures var r := ReadArguments(loads, Trim(t.name), Trim(t.args.text), PrintBlock(t.name, t.args));
            && r.calls == [PrintedCall(loads, t)]
            && PrintedWarnings(loads, t) == (if t.args.InFence? then [UsedFence(Trim(t.name))] else []) + r.warnings
  {
  }

  lemma BareCallReads(loads: string -> Loaded, t: Turn)
    requires PrintableCall(t.name, t.args) && t.args.Nothing? && Trim(t.name) != ""
    ensures ReadBlock(loads, Inside(t.name, t.args), PrintBlock(t.name, t.args)) == TurnReading(loads, t)
  {
    NameIsFound(t.name, t.args);
    NoArgumentsAreFound(t.name);
  }

  lemma TaggedCallReads(loads: string -> Loaded, t: Turn)
    requires PrintableCall(t.name, t.args) && t.args.Tagged? && PlainArguments(t.args) && Trim(t.name) != ""
    ensures ReadBlock(loads, Inside(t.name, t.args), PrintBlock(t.name, t.args)) == TurnReading(loads, t)
  {
    NameIsFound(t.name, t.args);
    ArgsAreFound(t.name, t.args.text);
    PlainStays(t.args.text);
    ReadsThePrinted(loads, t);
    var r := ReadArguments(loads, Trim(t.name), Trim(t.args.text), PrintBlock(t.name, t.args));
    assert [] + r.warnings == r.warnings;
  }

  lemma FencedCallReads(loads: string -> Loaded, t: Turn)
    requires PrintableCall(t.name, t.args) && t.args.InFence? && Trim(t.name) != ""
    ensures ReadBlock(loads, Inside(t.name, t.args), PrintBlock(t.name, t.args)) == TurnReading(loads, t)
  {
    NameIsFound(t.name, t.args);
    FenceIsFound(t.name, t.args.text);
    ObjectTextIsPlain(t.args.text);
    ReadsThePrinted(loads, t);
  }

  /** A printed block is read as the call that was printed. */
  lemma PrintedBlockReads(loads: string -> Loaded, t: Turn)
    requires PrintableCall(t.name, t.args) && PlainArguments(t.args)
    ensures ReadBlock(loads, Trim("\n  " + Inside(t.name, t.args) + "\n"), PrintBlock(t.name, t.args)) ==
              TurnReading(loads, t)
  {
    TrimmedBody(t.name, t.args);
    if Trim(t.name) == "" {
      NameIsFound(t.name, t.args);
    } else {
      match t.args
      case Nothing => BareCallReads(loads, t);
      case Tagged(_) => TaggedCallReads(loads, t);
      case InFence(_) => FencedCallReads(loads, t);
    }
  }

  /** A block without a name is skipped with a warning. */
  lemma NamelessBlockIsSkipped(loads: string -> Loaded, body: string, raw: string)
    requires NoTag(body, NAME.open)
    ensures ReadBlock(loads, body, raw) == Reading([], [NoName])
  {
    NoTagNothingInside(body, NAME);
  }

  function Proses(turns: seq<Turn>, last: string): seq<string> {
    if turns == [] then [last] else [turns[0].prose] + Proses(turns[1..], last)
  }

  /** A call printed with an empty name is skipped with a warning. */
  function TurnReading(loads: string -> Loaded, t: Turn): Reading {
    if Trim(t.name) == "" then Reading([], [EmptyName])
    else Reading([PrintedCall(loads, t)], PrintedWarnings(loads, t))
  }

  function Readings(loads: string -> Loaded, turns: seq<Turn>): Reading {
    if turns == [] then Reading([], [])
    else
      Both(TurnReading(loads, turns[0]), Readings(loads, turns[1..]))
  }

  lemma BlockIsCut(loads: string -> Loaded, pre: string, a: string, t: Tags, body: string, rest: string)
    requires ProperTags(t) && NoTag(a, t.open) && NoTag(body, t.close)
    ensures var block := t.open + body + t.close;
            var front := pre + a + block;
            && KeptFrom(front + rest, |pre|, t) == [a] + KeptFrom(front + rest, |front|, t)
            && ReadAllFrom(loads, front + rest, |pre|, t)
            == Both(ReadBlock(loads, Trim(body), block), ReadAllFrom(loads, front + rest, |front|, t))
  {
    var o, block := |pre| + |a|, t.open + body + t.close;
    var sp := Span(o, o + |t.open|, o + |t.open| + |body|, o + |block|);
    EnclosedIs(pre, a, t, body, rest);
    CutAround(loads, pre, a, t, body, rest, sp);
    AroundFront(pre, a, t, body, rest);
  }

  lemma CutAround(loads: string -> Loaded, pre: string, a: string, t: Tags, body: string, rest: string, sp: Span)
    requires Enclosed(Around(pre, a, t, body, rest), |pre|, t) == Some(sp)
    requires var o := |pre| + |a|; sp == Span(o, o + |t.open|, o + |t.open| + |body|, o + |t.open| + |body| + |t.close|)
    ensures var s := Around(pre, a, t, body, rest);
            && KeptFrom(s, |pre|, t) == [a] + KeptFrom(s, sp.end, t)
            && ReadAllFrom(loads, s, |pre|, t)
            == Both(ReadBlock(loads, Trim(body), t.open + body + t.close), ReadAllFrom(loads, s, sp.end, t))
  {
    FrontPiece(pre, a, t, body, rest);
    BodyPiece(pre, a, t, body, rest);
    BlockPiece(pre, a, t, body, rest);
    CutAt(loads, Around(pre, a, t, body, rest), |pre|, t, sp, a, body, t.open + body + t.close);
  }

  /** The block of the first turn is cut out and read, and parsing goes on behind it. */
  lemma TurnIsCut(loads: string -> Loaded, pre: string, t: Turn, rest: string)
    requires NoTag(t.prose, CALL.open) && PrintableCall(t.name, t.args) && PlainArguments(t.args)
    ensures var front := pre + t.prose + PrintBlock(t.name, t.args);
            && KeptFrom(front + rest, |pre|, CALL) == [t.prose] + KeptFrom(front + rest, |front|, CALL)
            && ReadAllFrom(loads, front + rest, |pre|, CALL) ==
                 Both(TurnReading(loads, t), ReadAllFrom(loads, front + rest, |front|, CALL))
  {
    BodyHasNoCallClose(t.name, t.args);
    PrintedBlockReads(loads, t);
    TheTags();
    BlockIsCut(loads, pre, t.prose, CALL, "\n  " + Inside(t.name, t.args) + "\n", rest);
  }

  predicate AllPlain(turns: seq<Turn>) {
    forall i :: 0 <= i < |turns| ==> PlainArguments(turns[i].args)
  }

  /** Printed turns are cut at exactly the printed blocks. */
  lemma {:induction false} PrintedIsCut(loads: string -> Loaded, pre: string, turns: seq<Turn>, last: string)
    requires Printable(turns, last) && AllPlain(turns)
    ensures var s := pre + Print(turns, last);
            KeptFrom(s, |pre|, CALL) == Proses(turns, last) &&
            ReadAllFrom(loads, s, |pre|, CALL) == Readings(loads, turns)
    decreases |turns|
  {
    if turns == [] {
      NothingBehind(pre, last);
      KeptNext(pre + last, |pre|, CALL);
      ReadNext(loads, pre + last, |pre|, CALL);
    } else {
      var t, rest := turns[0], Print(turns[1..], last);
      FirstTurn(pre, t, rest);
      TurnIsCut(loads, pre, t, rest);
      PrintedIsCut(loads, pre + t.prose + PrintBlock(t.name, t.args), turns[1..], last);
    }
  }

  lemma FirstTurn(pre: string, t: Turn, rest: string)
    ensures pre + (t.prose + (PrintBlock(t.name, t.args) + rest)) == pre + t.prose + PrintBlock(t.name, t.args) + rest
  {
    Assoc(pre, t.prose, PrintBlock(t.name, t.args) + rest);
    Assoc(pre + t.prose, PrintBlock(t.name, t.args), rest);
  }

  lemma NothingBehind(pre: string, last: string)
    requires NoTag(last, CALL.open)
    ensures Enclosed(pre + last, |pre|, CALL) == None && (pre + last)[|pre|..] == last
  {
    TheTags();
    FirstFromShift(pre + last, pre, last, |pre|, 0, CALL.open);
    FirstIsFirst(last, 0, CALL.open);
  }

  // -------- the outer edges --------

  predicate HasOuterFence(s: string) {
    StartsWith(TrimLeft(s), "```") || EndsWith(TrimRight(s), "```")
  }

  lemma NoFenceNothingDropped(s: string)
    requires !HasOuterFence(s)
    ensures Unfenced(s) == Trim(s)
  {
  }

  lemma {:induction false} PrintTrimRight(turns: seq<Turn>, last: string)
    requires turns != []
    ensures TrimRight(Print(turns, last)) == Print(turns, TrimRight(last))
    decreases |turns|
  {
    var t := turns[0];
    var front, rest := t.prose + PrintBlock(t.name, t.args), Print(turns[1..], last);
    Assoc(t.prose, PrintBlock(t.name, t.args), rest);
    Assoc(t.prose, PrintBlock(t.name, t.args), TrimRight(rest));
    BlockEdges(t);
    assert front[|front| - 1] == '>';
    TrimRightSuffix(front, rest);
    if |turns| > 1 { PrintTrimRight(turns[1..], last); }
  }

  lemma BlockEdges(t: Turn)
    ensures var b := PrintBlock(t.name, t.args); b != "" && b[0] == '<' && b[|b| - 1] == '>'
  {
    var b := PrintBlock(t.name, t.args);
    assert b[0] == CALL.open[0] && b[|b| - 1] == CALL.close[|CALL.close| - 1];
  }

  function LeftTrimmed(turns: seq<Turn>): seq<Turn>
    requires turns != []
  {
    [turns[0].(prose := TrimLeft(turns[0].prose))] + turns[1..]
  }

  lemma PrintTrimmed(turns: seq<Turn>, last: string)
    requires turns != []
    ensures Trim(Print(turns, last)) == Print(LeftTrimmed(turns), TrimRight(last))
  {
    var t := turns[0];
    BlockEdges(t);
    var block := PrintBlock(t.name, t.args) + Print(turns[1..], last);
    assert block[0] == '<';
    TrimLeftPrefix(t.prose, block);
    var trimmed := LeftTrimmed(turns);
    assert trimmed[1..] == turns[1..];
    assert TrimLeft(Print(turns, last)) == Print(trimmed, last);
    PrintTrimRight(trimmed, last);
  }

  lemma {:induction false} LastTrimmed(turns: seq<Turn>, last: string)
    ensures NonEmptyTrimmed(Proses(turns, TrimRight(last))) == NonEmptyTrimmed(Proses(turns, last))
    ensures NonEmptyTrimmed(Proses(turns, Trim(last))) == NonEmptyTrimmed(Proses(turns, last))
    decreases |turns|
  {
    if turns == [] {
      TrimAgain(last);
    } else {
      LastTrimmed(turns[1..], last);
    }
  }

  lemma EdgesTrimmed(turns: seq<Turn>, last: string)
    requires turns != []
    ensures NonEmptyTrimmed(Proses(LeftTrimmed(turns), TrimRight(last))) == NonEmptyTrimmed(Proses(turns, last))
  {
    TrimAgain(turns[0].prose);
    assert LeftTrimmed(turns)[1..] == turns[1..];
    LastTrimmed(turns[1..], last);
  }

  lemma TrimmedPrintable(turns: seq<Turn>, last: string)
    requires Printable(turns, last)
    ensures Printable(turns, TrimRight(last)) && NoTag(Trim(last), CALL.open)
    ensures turns != [] ==> Printable(LeftTrimmed(turns), TrimRight(last))
  {
    TrimKeepsNoTag(last, CALL.open);
    TrimKeepsNoTag(TrimLeft(last), CALL.open);
    if turns != [] { TrimKeepsNoTag(turns[0].prose, CALL.open); }
  }

  lemma {:induction false} SameReadings(loads: string -> Loaded, turns: seq<Turn>)
    requires turns != []
    ensures Readings(loads, LeftTrimmed(turns)) == Readings(loads, turns)
  {
    assert LeftTrimmed(turns)[1..] == turns[1..];
  }

  /** The text around the calls. */
  function PrintedProse(turns: seq<Turn>, last: string): string {
    Join(NonEmptyTrimmed(Proses(turns, last)))
  }

  lemma ParsedPrint(loads: string -> Loaded, turns: seq<Turn>, last: string)
    requires Printable(turns, last) && AllPlain(turns)
    ensures var r := Readings(loads, turns);
            Parsed(loads, Print(turns, last)) == ParseResult(r.calls, PrintedProse(turns, last), r.warnings)
  {
    var s := Print(turns, last);
    assert "" + s == s;
    PrintedIsCut(loads, "", turns, last);
    SpansInOrder(s, 0, CALL);
  }

  lemma TrimmedEdges(turns: seq<Turn>, last: string)
    requires turns != []
    ensures PrintedProse(LeftTrimmed(turns), TrimRight(last)) == PrintedProse(turns, last)
  {
    EdgesTrimmed(turns, last);
  }

  lemma TrimmedLast(last: string)
    ensures PrintedProse([], Trim(last)) == PrintedProse([], last)
  {
    LastTrimmed([], last);
  }

  lemma TrimmedRoundTrip(loads: string -> Loaded, turns: seq<Turn>, last: string)
    requires Printable(turns, last) && AllPlain(turns)
    ensures var r := Readings(loads, turns);
            Parsed(loads, Trim(Print(turns, last))) == ParseResult(r.calls, PrintedProse(turns, last), r.warnings)
  {
    TrimmedPrintable(turns, last);
    if turns == [] {
      ParsedPrint(loads, [], Trim(last));
      TrimmedLast(last);
    } else {
      PrintTrimmed(turns, last);
      ParsedPrint(loads, LeftTrimmed(turns), TrimRight(last));
      SameReadings(loads, turns);
      TrimmedEdges(turns, last);
    }
  }

  /** Printed prose and calls parse back: the same calls in order, each as it was printed, the trimmed non-empty
      prose joined by line ends, and no warnings but those that the calls ask for. */
  lemma RoundTrip(loads: string -> Loaded, turns: seq<Turn>, last: string)
    requires Printable(turns, last) && AllPlain(turns) && !HasOuterFence(Print(turns, last))
    ensures var r := Readings(loads, turns);
            Parsed(loads, Unfenced(Print(turns, last))) == ParseResult(r.calls, PrintedProse(turns, last), r.warnings)
  {
    NoFenceNothingDropped(Print(turns, last));
    TrimmedRoundTrip(loads, turns, last);
  }

  /** Wrapped in a fence as a whole, whatever is printed parses back to the same. */
  lemma WrappedRoundTrip(loads: string -> Loaded, lang: string, turns: seq<Turn>, last: string)
    requires Printable(turns, last) && AllPlain(turns) && IsLanguage(lang)
    ensures var r := Readings(loads, turns);
            Parsed(loads, Unfenced("```" + (lang + "\n" + (Print(turns, last) + "\n```")))) ==
              ParseResult(r.calls, PrintedProse(turns, last), r.warnings)
  {
    OuterFenceIsDropped(lang, Print(turns, last));
    TrimmedRoundTrip(loads, turns, last);
  }

  // -------- turns whose arguments load --------

  /** Each turn has no arguments and no value, or tagged arguments that load as an object with the value. */
  ghost predicate Loads(loads: string -> Loaded, turns: seq<Turn>, values: seq<Option<Value>>) {
    && |values| == |turns|
    && (forall i :: 0 <= i < |turns| ==> Trim(turns[i].name) != "")
    && forall i :: 0 <= i < |turns| ==>
         match turns[i].args
         case Nothing => values[i] == None
         case Tagged(text) => values[i].Some? && loads(Trim(text)) == Object(values[i].value)
         case InFence(_) => false
  }

  function CallsWith(turns: seq<Turn>, values: seq<Option<Value>>): seq<ToolCall>
    requires |values| == |turns|
  {
    if turns == [] then []
    else
      [ToolCall(Trim(turns[0].name), values[0], PrintBlock(turns[0].name, turns[0].args), None)]
      + CallsWith(turns[1..], values[1..])
  }

  lemma {:induction false} ReadingsAreThePrinted(loads: string -> Loaded, turns: seq<Turn>,
                                                 values: seq<Option<Value>>)
    requires Loads(loads, turns, values)
    ensures Readings(loads, turns) == Reading(CallsWith(turns, values), [])
    decreases |turns|
  {
    if turns != [] {
      ReadingsAreThePrinted(loads, turns[1..], values[1..]);
      assert TurnReading(loads, turns[0]) ==
          Reading([ToolCall(Trim(turns[0].name), values[0], PrintBlock(turns[0].name, turns[0].args), None)], []);
    }
  }

  /** So calls whose arguments are left out or load as objects come back in their places with their values, and
      there is no warning. */
  lemma LoadingCallsComeBack(loads: string -> Loaded, turns: seq<Turn>, values: seq<Option<Value>>, last: string)
    requires Printable(turns, last) && AllPlain(turns) && !HasOuterFence(Print(turns, last))
    requires Loads(loads, turns, values)
    ensures Parsed(loads, Unfenced(Print(turns, last))) ==
              ParseResult(CallsWith(turns, values), PrintedProse(turns, last), [])
  {
    RoundTrip(loads, turns, last);
    ReadingsAreThePrinted(loads, turns, values);
  }
}
