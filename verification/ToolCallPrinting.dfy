/** Printing prose and tool calls: calls without arguments, with arguments between tags as documented, or with a
    fenced object instead. Name and arguments are found again in a printed block. */
module ToolCallPrinting {
  import opened Common
  import opened Text
  import opened TagSearch
  import opened ToolCallFences
  import opened ToolCalls

  datatype Arguments = Nothing | Tagged(text: string) | InFence(text: string)

  /** Some prose followed by a call. */
  datatype Turn = Turn(prose: string, name: string, args: Arguments)

  function Named(name: string): string {
    NAME.open + name + NAME.close
  }

  function PrintArguments(args: Arguments): string {
    match args
    case Nothing => ""
    case Tagged(text) => "\n  " + ARGS.open + text + ARGS.close
    case InFence(text) => "\n  " + Fenced(text)
  }

  function Inside(name: string, args: Arguments): string {
    Named(name) + PrintArguments(args)
  }

  function PrintBlock(name: string, args: Arguments): string {
    CALL.open + ("\n  " + Inside(name, args) + "\n") + CALL.close
  }

  function Print(turns: seq<Turn>, last: string): string {
    if turns == [] then last
    else turns[0].prose + (PrintBlock(turns[0].name, turns[0].args) + Print(turns[1..], last))
  }

  predicate NoTags(s: string) {
    && NoTag(s, CALL.open) && NoTag(s, CALL.close) && NoTag(s, NAME.open)
    && NoTag(s, NAME.close) && NoTag(s, ARGS.open) && NoTag(s, ARGS.close)
  }

  /** Without tags between the arguments' own; a name that is not followed by tagged arguments holds no fence. */
  predicate PrintableCall(name: string, args: Arguments) {
    && NoTags(name)
    && (args.Nothing? ==> NoFence(name))
    && (args.Tagged? ==> NoTags(args.text))
    && (args.InFence? ==> NoFence(name) && NoTags(args.text) && IsObjectText(args.text))
  }

  predicate Printable(turns: seq<Turn>, last: string) {
    && NoTag(last, CALL.open)
    && forall i :: 0 <= i < |turns| ==>
         NoTag(turns[i].prose, CALL.open) && PrintableCall(turns[i].name, turns[i].args)
  }

  lemma TheTags()
    ensures ProperTags(CALL) && ProperTags(NAME) && ProperTags(ARGS)
  {
    CallTags();
    NameTags();
    ArgsTags();
  }

  lemma CallTags()
    ensures ProperTags(CALL)
  {
  }

  lemma NameTags()
    ensures ProperTags(NAME)
  {
  }

  lemma ArgsTags()
    ensures ProperTags(ARGS)
  {
  }

  lemma NoCallClose()
    ensures NoTag(NAME.open, CALL.close) && NoTag(NAME.close, CALL.close) && NoTag(ARGS.open, CALL.close)
    ensures NoTag(ARGS.close, CALL.close)
  {
    TheTags();
    assert CALL.close[2] == 't' && ARGS.close[2] == 'a' && NAME.close[7] == 'n' && CALL.close[7] == 'c';
    OtherTag(NAME.open, CALL.close);
    OtherTag(NAME.close, CALL.close);
    OtherTag(ARGS.open, CALL.close);
    OtherTag(ARGS.close, CALL.close);
  }

  lemma NameHasNoArgsOpen(name: string)
    requires NoTag(name, ARGS.open)
    ensures NoTag(Named(name), ARGS.open)
  {
    TheTags();
    assert NAME.open[1] == 't' && ARGS.open[1] == 'a' && NAME.close[1] == '/';
    OtherTag(NAME.open, ARGS.open);
    OtherTag(NAME.close, ARGS.open);
    NoTagConcat(NAME.open, name, ARGS.open);
    NoTagConcat(NAME.open + name, NAME.close, ARGS.open);
  }

  lemma NoArgsOpen(name: string)
    requires NoTag(name, ARGS.open)
    ensures NoTag(Named(name) + "\n  ", ARGS.open)
  {
    TheTags();
    NameHasNoArgsOpen(name);
    NoTagBefore(Named(name), "\n  ", ARGS.open);
  }

  lemma NameHasNoCallClose(name: string)
    requires NoTag(name, CALL.close)
    ensures NoTag(Named(name), CALL.close)
  {
    TheTags();
    NoCallClose();
    NoTagConcat(NAME.open, name, CALL.close);
    NoTagConcat(NAME.open + name, NAME.close, CALL.close);
  }

  /** A tag that the arguments do not hold does not come with the fence around them. */
  lemma FenceHasNoTag(text: string, tag: string)
    requires IsTag(tag) && NoTag(text, tag)
    ensures NoTag("\n  " + Fenced(text), tag)
  {
    NoTagBehind("```json\n", text, tag);
    NoTagBefore("```json\n" + text, "\n```", tag);
    NoTagBehind("\n  ", Fenced(text), tag);
  }

  lemma ArgumentsHaveNoCallClose(args: Arguments)
    requires args.Nothing? || NoTag(args.text, CALL.close)
    ensures NoTag(PrintArguments(args), CALL.close)
  {
    TheTags();
    NoCallClose();
    match args
    case Nothing =>
    case Tagged(text) =>
      NoTagBehind("\n  ", ARGS.open, CALL.close);
      NoTagConcat("\n  " + ARGS.open, text, CALL.close);
      NoTagConcat("\n  " + ARGS.open + text, ARGS.close, CALL.close);
    case InFence(text) => FenceHasNoTag(text, CALL.close);
  }

  lemma BodyHasNoCallClose(name: string, args: Arguments)
    requires NoTag(name, CALL.close) && (args.Nothing? || NoTag(args.text, CALL.close))
    ensures NoTag("\n  " + Inside(name, args) + "\n", CALL.close)
  {
    TheTags();
    NameHasNoCallClose(name);
    ArgumentsHaveNoCallClose(args);
    NoTagConcat(Named(name), PrintArguments(args), CALL.close);
    NoTagBehind("\n  ", Inside(name, args), CALL.close);
    NoTagBefore("\n  " + Inside(name, args), "\n", CALL.close);
  }

  lemma Middle(x: string, y: string, z: string)
    ensures (x + (y + z))[|x|..|x| + |y|] == y && (x + (y + z))[|x| + |y|..] == z
  {
  }

  predicate ProperTags(t: Tags) {
    IsTag(t.open) && IsTag(t.close) && Lowered(t.open) && Lowered(t.close)
  }

  /** The text `pre`, then `a`, then `body` between tags, then `rest`. */
  function Around(pre: string, a: string, t: Tags, body: string, rest: string): string {
    pre + (a + (t.open + (body + (t.close + rest))))
  }

  lemma AroundBody(pre: string, a: string, t: Tags, body: string, rest: string)
    ensures Around(pre, a, t, body, rest) == (pre + a + t.open) + (body + (t.close + rest))
  {
    Assoc(pre, a, t.open + (body + (t.close + rest)));
    Assoc(pre + a, t.open, body + (t.close + rest));
  }

  lemma AroundBlock(pre: string, a: string, t: Tags, body: string, rest: string)
    ensures Around(pre, a, t, body, rest) == (pre + a) + ((t.open + body + t.close) + rest)
  {
    Assoc(pre, a, t.open + (body + (t.close + rest)));
    Assoc(t.open, body, t.close + rest);
    Assoc(t.open + body, t.close, rest);
  }

  lemma AroundFront(pre: string, a: string, t: Tags, body: string, rest: string)
    ensures Around(pre, a, t, body, rest) == (pre + a + (t.open + body + t.close)) + rest
  {
    AroundBlock(pre, a, t, body, rest);
    Assoc(pre + a, t.open + body + t.close, rest);
  }

  /** What lies between the first opening tag and the first closing tag after it. */
  lemma EnclosedIs(pre: string, a: string, t: Tags, body: string, rest: string)
    requires ProperTags(t) && NoTag(a, t.open) && NoTag(body, t.close)
    ensures var o := |pre| + |a|;
            Enclosed(Around(pre, a, t, body, rest), |pre|, t)
            == Some(Span(o, o + |t.open|, o + |t.open| + |body|, o + |t.open| + |body| + |t.close|))
  {
    OpenIsFound(pre, a, t, body, rest);
    CloseIsFound(pre, a, t, body, rest);
  }

  lemma OpenIsFound(pre: string, a: string, t: Tags, body: string, rest: string)
    requires ProperTags(t) && NoTag(a, t.open)
    ensures FirstFrom(Around(pre, a, t, body, rest), |pre|, t.open) == Some(|pre| + |a|)
  {
    FirstBehind(pre, a, t.open, body + (t.close + rest));
  }

  lemma CloseIsFound(pre: string, a: string, t: Tags, body: string, rest: string)
    requires ProperTags(t) && NoTag(body, t.close)
    ensures var n := |pre| + |a| + |t.open|; FirstFrom(Around(pre, a, t, body, rest), n, t.close) == Some(n + |body|)
  {
    AroundBody(pre, a, t, body, rest);
    var n := |pre| + |a| + |t.open|;
    CloseIsBehind(Around(pre, a, t, body, rest), pre, a, t, n, body, rest);
    assert n + |body| == |pre| + |a| + |t.open| + |body|;
  }

  lemma CloseIsBehind(all: string, pre: string, a: string, t: Tags, n: nat, body: string, rest: string)
    requires ProperTags(t) && NoTag(body, t.close) && n == |pre| + |a| + |t.open|
    requires all == pre + a + t.open + (body + (t.close + rest))
    ensures FirstFrom(all, n, t.close) == Some(n + |body|)
  {
    FirstBehindIn(all, pre + a + t.open, n, body, t.close, rest);
  }

  lemma BodyPiece(pre: string, a: string, t: Tags, body: string, rest: string)
    ensures var s, n := Around(pre, a, t, body, rest), |pre| + |a| + |t.open|;
            |s| == n + |body| + |t.close| + |rest| && s[n..n + |body|] == body
  {
    AroundBody(pre, a, t, body, rest);
    Middle(pre + a + t.open, body, t.close + rest);
  }

  lemma BlockPiece(pre: string, a: string, t: Tags, body: string, rest: string)
    ensures var s, o := Around(pre, a, t, body, rest), |pre| + |a|;
            var n := o + |t.open| + |body| + |t.close|;
            n <= |s| && s[o..n] == t.open + body + t.close && s[n..] == rest
  {
    AroundBlock(pre, a, t, body, rest);
    Middle(pre + a, t.open + body + t.close, rest);
  }

  lemma FrontPiece(pre: string, a: string, t: Tags, body: string, rest: string)
    ensures var s, o := Around(pre, a, t, body, rest), |pre| + |a|; o <= |s| && s[|pre|..o] == a
  {
    Middle(pre, a, t.open + (body + (t.close + rest)));
  }

  /** What stands between the first pair of tags. */
  lemma InnerIs(a: string, t: Tags, body: string, rest: string)
    requires ProperTags(t) && NoTag(a, t.open) && NoTag(body, t.close)
    ensures Inner(Around("", a, t, body, rest), t) == Some(Trim(body))
  {
    EnclosedIs("", a, t, body, rest);
    BodyPiece("", a, t, body, rest);
  }

  lemma InsideEdges(name: string, args: Arguments)
    ensures IsTrimmed(Inside(name, args))
  {
    var front, s := Named(name), Inside(name, args);
    assert s[0] == NAME.open[0];
    match args
    case Nothing => assert s == front && s[|s| - 1] == NAME.close[|NAME.close| - 1];
    case Tagged(text) => assert s[|s| - 1] == ARGS.close[|ARGS.close| - 1];
    case InFence(text) => assert s[|s| - 1] == "\n```"[3];
  }

  lemma TrimmedBetween(s: string)
    requires IsTrimmed(s)
    ensures Trim("\n  " + s + "\n") == s
  {
    assert "\n  " + s + "\n" == "\n  " + (s + "\n");
    TrimLeftPrefix("\n  ", s + "\n");
    assert TrimLeft("\n  ") == "";
    assert "" + (s + "\n") == s + "\n";
    TrimRightSuffix(s, "\n");
    assert TrimRight("\n") == "";
    assert s + "" == s;
  }

  lemma TrimmedBody(name: string, args: Arguments)
    ensures Trim("\n  " + Inside(name, args) + "\n") == Inside(name, args)
  {
    InsideEdges(name, args);
    TrimmedBetween(Inside(name, args));
  }

  lemma NameIsFound(name: string, args: Arguments)
    requires NoTags(name)
    ensures Inner(Inside(name, args), NAME) == Some(Trim(name))
  {
    TheTags();
    var tail := PrintArguments(args);
    NameFirst(name, tail);
    NoBracketNoTag("", NAME.open);
    InnerIs("", NAME, name, tail);
  }

  lemma NameFirst(name: string, tail: string)
    ensures Named(name) + tail == Around("", "", NAME, name, tail)
  {
    AroundFront("", "", NAME, name, tail);
  }

  lemma ArgsLast(name: string, text: string)
    ensures Inside(name, Tagged(text)) == Around("", Named(name) + "\n  ", ARGS, text, "")
  {
    AroundFront("", Named(name) + "\n  ", ARGS, text, "");
    Assoc(Named(name), "\n  ", ARGS.open + text + ARGS.close);
    Assoc("\n  ", ARGS.open, text);
    Assoc("\n  ", ARGS.open + text, ARGS.close);
    assert "" + (Named(name) + "\n  ") == Named(name) + "\n  ";
    assert Inside(name, Tagged(text)) + "" == Inside(name, Tagged(text));
  }

  lemma ArgsAreFound(name: string, text: string)
    requires NoTags(name) && NoTags(text)
    ensures Inner(Inside(name, Tagged(text)), ARGS) == Some(Trim(text))
  {
    TheTags();
    NoArgsOpen(name);
    ArgsLast(name, text);
    InnerIs(Named(name) + "\n  ", ARGS, text, "");
  }

  lemma NoTagNothingInside(s: string, t: Tags)
    requires NoTag(s, t.open)
    ensures Inner(s, t) == None
  {
    FirstIsFirst(s, 0, t.open);
  }

  lemma NamedHasNoFence(name: string)
    requires NoFence(name)
    ensures NoFence(Named(name)) && Named(name)[|Named(name)| - 1] != '`'
  {
    NoTickNoFence(NAME.open);
    NoTickNoFence(NAME.close);
    assert NAME.open[|NAME.open| - 1] == '>' && NAME.close[0] == '<';
    NoFenceConcat(NAME.open, name);
    NoFenceConcat(NAME.open + name, NAME.close);
    assert Named(name)[|Named(name)| - 1] == NAME.close[|NAME.close| - 1];
  }

  lemma NoArgumentsAreFound(name: string)
    requires NoTags(name) && NoFence(name)
    ensures Inner(Inside(name, Nothing), ARGS) == None && FencedObject(Inside(name, Nothing)) == None
  {
    assert Inside(name, Nothing) == Named(name);
    NameHasNoArgsOpen(name);
    NoTagNothingInside(Named(name), ARGS);
    NamedHasNoFence(name);
    NoFenceNoObject(Named(name));
  }

  lemma FenceIsFound(name: string, text: string)
    requires NoTags(name) && NoFence(name) && NoTags(text) && IsObjectText(text)
    ensures Inner(Inside(name, InFence(text)), ARGS) == None
    ensures FencedObject(Inside(name, InFence(text))) == Some(text)
  {
    TheTags();
    NameHasNoArgsOpen(name);
    FenceHasNoTag(text, ARGS.open);
    NoTagConcat(Named(name), "\n  " + Fenced(text), ARGS.open);
    NoTagNothingInside(Inside(name, InFence(text)), ARGS);
    NamedHasNoFence(name);
    NoTickNoFence("\n  ");
    NoFenceConcat(Named(name), "\n  ");
    FencedObjectIsFound(Named(name) + "\n  ", text);
    Assoc(Named(name), "\n  ", Fenced(text));
  }
}
