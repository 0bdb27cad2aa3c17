/** Scaffolding a project from a template: files that are there are kept, the others are written, and a
    run may stop at any file. */
module Scaffold {
  import opened Common

  type Path = string

  /** A template file: text, in which tokens are substituted, or bytes, copied as they are. */
  datatype Raw = RawText(text: string) | RawBytes(bytes: seq<bv8>)

  datatype Content = TextFile(text: string) | BytesFile(bytes: seq<bv8>)

  datatype Template = Template(path: Path, raw: Raw)

  datatype Token = Token(key: string, value: string)

  type Root = map<Path, Content>

  /** What happens to a file that has to be written. A failed or killed write may leave something. */
  datatype Fate = Written | Unreadable | WriteFailed(left: Option<Content>) | Killed(left: Option<Content>)

  datatype Stop = UnknownKind | NoTemplate | NoRoot | ReadError | WriteError | WasKilled

  datatype Outcome = Outcome(written: seq<Path>, skipped: seq<Path>, stop: Option<Stop>)

  // -------- rendering --------

  /** Every occurrence from the left, without overlap, replaced. */
  function Replace(text: string, what: string, value: string): string
    requires what != ""
    decreases |text|
  {
    if |text| < |what| then text
    else if text[..|what|] == what then value + Replace(text[|what|..], what, value)
    else [text[0]] + Replace(text[1..], what, value)
  }

  function Substitute(text: string, tokens: seq<Token>): string
    decreases |tokens|
  {
    if tokens == [] then text
    else Substitute(Replace(text, "{{" + tokens[0].key + "}}", tokens[0].value), tokens[1..])
  }

  function Render(raw: Raw, tokens: seq<Token>): Content {
    match raw
    case RawText(text) => TextFile(Substitute(text, tokens))
    case RawBytes(bytes) => BytesFile(bytes)
  }

  method ReadAndSubstitute(raw: Raw, tokens: seq<Token>) returns (c: Content)
    ensures raw.RawBytes? ==> c == BytesFile(raw.bytes)
    ensures raw.RawText? ==> c == TextFile(Substitute(raw.text, tokens))
    ensures c == Render(raw, tokens)
  {
    match raw {
      case RawBytes(bytes) => return BytesFile(bytes);
      case RawText(original) =>
        var text, todo := original, tokens;
        while todo != []
          invariant Substitute(text, todo) == Substitute(original, tokens)
          decreases |todo|
        {
          text := Replace(text, "{{" + todo[0].key + "}}", todo[0].value);
          todo := todo[1..];
        }
        return TextFile(text);
    }
  }

  function Rendered(files: seq<Template>, tokens: seq<Token>): Root {
    if files == [] then map[]
    else map[files[0].path := Render(files[0].raw, tokens)] + Rendered(files[1..], tokens)
  }

  function Paths(files: seq<Template>): (r: set<Path>) {
    set f | f in files :: f.path
  }

  predicate DistinctPaths(files: seq<Template>) {
    forall i, j :: 0 <= i < j < |files| ==> files[i].path != files[j].path
  }

  // -------- one run --------

  /** The root after a run, what it reports, and what a failed write left behind. */
  datatype After = After(root: Root, outcome: Outcome, junk: Root)

  function Leave(root: Root, p: Path, left: Option<Content>, stop: Stop): After {
    match left
    case None => After(root, Outcome([], [], Some(stop)), map[])
    case Some(c) => After(root[p := c], Outcome([], [], Some(stop)), map[p := c])
  }

  function Run(root: Root, files: seq<Template>, tokens: seq<Token>, fate: Path -> Fate): After
    decreases |files|
  {
    if files == [] then After(root, Outcome([], [], None), map[])
    else
      var p := files[0].path;
      if p in root then
        var a := Run(root, files[1..], tokens, fate);
        a.(outcome := a.outcome.(skipped := [p] + a.outcome.skipped))
      else
        match fate(p)
        case Unreadable => After(root, Outcome([], [], Some(ReadError)), map[])
        case WriteFailed(left) => Leave(root, p, left, WriteError)
        case Killed(left) => Leave(root, p, left, WasKilled)
        case Written =>
          var a := Run(root[p := Render(files[0].raw, tokens)], files[1..], tokens, fate);
          a.(outcome := a.outcome.(written := [p] + a.outcome.written))
  }

  class Scaffolder {
    var root: Root

    constructor (root: Root)
      ensures this.root == root
    {
      this.root := root;
    }

    /** `templates` holds the template directories that exist; `rooted` says whether the root is there or
        can be made. */
    method Scaffold(kinds: set<string>, kind: string, templates: map<string, seq<Template>>, rooted: bool,
                    tokens: seq<Token>, fate: Path -> Fate)
      returns (o: Outcome)
      modifies this
      ensures kind !in kinds ==> o == Outcome([], [], Some(UnknownKind)) && root == old(root)
      ensures kind in kinds && kind !in templates ==> o == Outcome([], [], Some(NoTemplate)) && root == old(root)
      ensures kind in kinds && kind in templates && !rooted ==> o == Outcome([], [], Some(NoRoot)) && root == old(root)
      ensures kind in kinds && kind in templates && rooted ==>
                var a := Run(old(root), templates[kind], tokens, fate); root == a.root && o == a.outcome
    {
      if kind !in kinds { return Outcome([], [], Some(UnknownKind)); }
      if kind !in templates { return Outcome([], [], Some(NoTemplate)); }
      if !rooted { return Outcome([], [], Some(NoRoot)); }
      o := Fill(templates[kind], tokens, fate);
    }

    /** Goes through the template until something stops it. */
    method Fill(files: seq<Template>, tokens: seq<Token>, fate: Path -> Fate) returns (o: Outcome)
      modifies this
      ensures var a := Run(old(root), files, tokens, fate); root == a.root && o == a.outcome
    {
      var todo, written, skipped := files, [], [];
      ghost var all := Run(root, todo, tokens, fate);
      while todo != []
        invariant var a := Run(root, todo, tokens, fate);
                  && all.root == a.root && all.outcome.stop == a.outcome.stop
                  && all.outcome.written == written + a.outcome.written
                  && all.outcome.skipped == skipped + a.outcome.skipped
        decreases |todo|
      {
        var f := todo[0];
        todo := todo[1..];
        if f.path in root {
          Assoc(skipped, [f.path], Run(root, todo, tokens, fate).outcome.skipped);
          skipped := skipped + [f.path];
          continue;
        }
        var content := ReadAndSubstitute(f.raw, tokens);
        match fate(f.path) {
          case Unreadable => return Outcome(written, skipped, Some(ReadError));
          case WriteFailed(left) =>
            if left.Some? { root := root[f.path := left.value]; }
            return Outcome(written, skipped, Some(WriteError));
          case Killed(left) =>
            if left.Some? { root := root[f.path := left.value]; }
            return Outcome(written, skipped, Some(WasKilled));
          case Written =>
            root := root[f.path := content];
            Assoc(written, [f.path], Run(root, todo, tokens, fate).outcome.written);
            written := written + [f.path];
        }
      }
      return Outcome(written, skipped, None);
    }
  }

  predicate AllReadable(files: seq<Template>, unreadable: set<Path>) {
    forall i :: 0 <= i < |files| ==> files[i].path !in unreadable
  }

  /** The template in memory, nothing for an unknown kind; without a result, reading a file raised. */
  method RenderTemplateFiles(kinds: set<string>, kind: string, templates: map<string, seq<Template>>,
                             tokens: seq<Token>, unreadable: set<Path>)
    returns (out: Option<Root>)
    ensures kind !in kinds || kind !in templates ==> out == Some(map[])
    ensures kind in kinds && kind in templates ==>
              out == if AllReadable(templates[kind], unreadable) then Some(Rendered(templates[kind], tokens)) else None
  {
    if kind !in kinds || kind !in templates { return Some(map[]); }
    var files: Root := map[];
    ghost var k := 0;
    var todo := templates[kind];
    while todo != []
      invariant k <= |templates[kind]| && todo == templates[kind][k..]
      invariant forall i :: 0 <= i < k ==> templates[kind][i].path !in unreadable
      invariant files + Rendered(todo, tokens) == Rendered(templates[kind], tokens)
      decreases |todo|
    {
      if todo[0].path in unreadable { return None; }
      var content := ReadAndSubstitute(todo[0].raw, tokens);
      ghost var rest := Rendered(todo[1..], tokens);
      assert files + (map[todo[0].path := content] + rest) == files[todo[0].path := content] + rest;
      files := files[todo[0].path := content];
      todo := todo[1..];
      k := k + 1;
    }
    NothingAdded(files);
    return Some(files);
  }

  // -------- convergence --------

  /** `root` is `start` with some of the template added, except that `junk` holds what failed writes left. */
  ghost predicate Between(start: Root, junk: Root, root: Root, full: Root) {
    && (forall p :: p in start ==> p in root && root[p] == start[p])
    && (forall p :: p in junk ==> p in root && p in full && p !in start && root[p] == junk[p])
    && (forall p :: p in root && p !in start && p !in junk ==> p in full && root[p] == full[p])
  }

  predicate Part(files: seq<Template>, tokens: seq<Token>, full: Root) {
    forall i :: 0 <= i < |files| ==> files[i].path in full && full[files[i].path] == Render(files[i].raw, tokens)
  }

  lemma {:induction false} RunStaysBetween(start: Root, junk: Root, root: Root, full: Root, files: seq<Template>,
                                           tokens: seq<Token>, fate: Path -> Fate)
    requires Between(start, junk, root, full) && Part(files, tokens, full)
    ensures var a := Run(root, files, tokens, fate);
            && Between(start, junk + a.junk, a.root, full)
            && (a.outcome.stop.None? ==> a.junk == map[] && forall i :: 0 <= i < |files| ==> files[i].path in a.root)
            && (forall p :: p in root ==> p in a.root && a.root[p] == root[p])
    decreases |files|
  {
    NothingAdded(junk);
    if files != [] {
      var p, rest := files[0].path, files[1..];
      PartTail(files, tokens, full);
      if p in root {
        RunStaysBetween(start, junk, root, full, rest, tokens, fate);
        FirstAndRest(files, Run(root, rest, tokens, fate).root);
      } else {
        match fate(p)
        case Unreadable =>
        case WriteFailed(left) => LeftIsBetween(start, junk, root, full, p, left, WriteError);
        case Killed(left) => LeftIsBetween(start, junk, root, full, p, left, WasKilled);
        case Written =>
          var next := root[p := full[p]];
          RunStaysBetween(start, junk, next, full, rest, tokens, fate);
          FirstAndRest(files, Run(next, rest, tokens, fate).root);
      }
    }
  }

  lemma PartTail(files: seq<Template>, tokens: seq<Token>, full: Root)
    requires files != [] && Part(files, tokens, full)
    ensures Part(files[1..], tokens, full) && files[0].path in full
    ensures full[files[0].path] == Render(files[0].raw, tokens)
  {
    assert forall i :: 0 <= i < |files[1..]| ==> files[1..][i] == files[i + 1];
  }

  lemma FirstAndRest(files: seq<Template>, root: Root)
    requires files != [] && files[0].path in root
    ensures (forall i :: 0 <= i < |files| ==> files[i].path in root) <==>
              forall i :: 0 <= i < |files[1..]| ==> files[1..][i].path in root
  {
    assert forall i :: 0 < i < |files| ==> files[i] == files[1..][i - 1];
  }

  /** What a write leaves behind when it fails or is cut off. */
  lemma LeftIsBetween(start: Root, junk: Root, root: Root, full: Root, p: Path, left: Option<Content>, stop: Stop)
    requires Between(start, junk, root, full) && p in full && p !in root
    ensures var a := Leave(root, p, left, stop);
            Between(start, junk + a.junk, a.root, full) && forall q :: q in root ==> q in a.root && a.root[q] == root[q]
  {
    NothingAdded(junk);
  }

  lemma {:induction false} RenderedIsPart(files: seq<Template>, tokens: seq<Token>)
    requires DistinctPaths(files)
    ensures Part(files, tokens, Rendered(files, tokens))
    ensures forall p :: p in Rendered(files, tokens) ==> exists i :: 0 <= i < |files| && files[i].path == p
  {
    if files != [] {
      RenderedIsPart(files[1..], tokens);
      assert forall i :: 0 < i < |files| ==> files[i] == files[1..][i - 1];
    }
  }

  /** Any number of runs, one after the other, and all that their failed writes left. */
  function RunAll(root: Root, files: seq<Template>, tokens: seq<Token>, fates: seq<Path -> Fate>): (Root, Root)
    decreases |fates|
  {
    if fates == [] then (root, map[])
    else
      var a := Run(root, files, tokens, fates[0]);
      var (final, junk) := RunAll(a.root, files, tokens, fates[1..]);
      (final, a.junk + junk)
  }

  lemma OverlayAssoc(a: Root, b: Root, c: Root)
    ensures a + b + c == a + (b + c)
  {
  }

  lemma {:induction false} RunsStayBetween(start: Root, junk: Root, root: Root, full: Root, files: seq<Template>,
                                           tokens: seq<Token>, fates: seq<Path -> Fate>)
    requires Between(start, junk, root, full) && Part(files, tokens, full)
    ensures var (final, more) := RunAll(root, files, tokens, fates); Between(start, junk + more, final, full)
    decreases |fates|
  {
    if fates == [] {
      assert junk + map[] == junk;
    } else {
      var a := Run(root, files, tokens, fates[0]);
      RunStaysBetween(start, junk, root, full, files, tokens, fates[0]);
      RunsStayBetween(start, junk + a.junk, a.root, full, files, tokens, fates[1..]);
      var more := RunAll(a.root, files, tokens, fates[1..]).1;
      OverlayAssoc(junk, a.junk, more);
    }
  }

  lemma BetweenIsOverlay(start: Root, junk: Root, root: Root, full: Root)
    requires Between(start, junk, root, full) && forall p :: p in full ==> p in root
    ensures root == full + junk + start
  {
  }

  lemma OverlayIffSame(full: Root, junk: Root, start: Root)
    requires forall p :: p in junk ==> p in full && p !in start
    ensures full + junk + start == full + start <==> forall p :: p in junk ==> junk[p] == full[p]
  {
    if full + junk + start == full + start {
      forall p | p in junk ensures junk[p] == full[p] {
        assert (full + junk + start)[p] == (full + start)[p];
      }
    }
  }

  /** However many runs stopped wherever they did, a run that succeeds leaves the rendered template under
      what failed writes left, under what was there first. */
  lemma SuccessConverges(root: Root, files: seq<Template>, tokens: seq<Token>, fates: seq<Path -> Fate>,
                         last: Path -> Fate)
    requires DistinctPaths(files)
    requires Run(RunAll(root, files, tokens, fates).0, files, tokens, last).outcome.stop.None?
    ensures var (before, junk) := RunAll(root, files, tokens, fates);
            Run(before, files, tokens, last).root == Rendered(files, tokens) + junk + root
  {
    var full := Rendered(files, tokens);
    var (before, junk) := RunAll(root, files, tokens, fates);
    JunkIsBetween(root, files, tokens, fates);
    LastRunCompletes(root, junk, before, full, files, tokens, last);
  }

  lemma LastRunCompletes(start: Root, junk: Root, before: Root, full: Root, files: seq<Template>, tokens: seq<Token>,
                         last: Path -> Fate)
    requires DistinctPaths(files) && full == Rendered(files, tokens) && Between(start, junk, before, full)
    requires Run(before, files, tokens, last).outcome.stop.None?
    ensures Run(before, files, tokens, last).root == full + junk + start
  {
    var final := Run(before, files, tokens, last).root;
    SuccessIsBetween(start, junk, before, full, files, tokens, last);
    AllThere(files, tokens, final);
    BetweenIsOverlay(start, junk, final, full);
  }

  lemma SuccessIsBetween(start: Root, junk: Root, before: Root, full: Root, files: seq<Template>, tokens: seq<Token>,
                         last: Path -> Fate)
    requires DistinctPaths(files) && full == Rendered(files, tokens) && Between(start, junk, before, full)
    requires Run(before, files, tokens, last).outcome.stop.None?
    ensures var final := Run(before, files, tokens, last).root;
            Between(start, junk, final, full) && forall i :: 0 <= i < |files| ==> files[i].path in final
  {
    RenderedIsPart(files, tokens);
    RunStaysBetween(start, junk, before, full, files, tokens, last);
    NothingAdded(junk);
  }

  lemma NothingAdded(junk: Root)
    ensures junk + map[] == junk
  {
  }

  lemma AllThere(files: seq<Template>, tokens: seq<Token>, root: Root)
    requires DistinctPaths(files) && forall i :: 0 <= i < |files| ==> files[i].path in root
    ensures forall p :: p in Rendered(files, tokens) ==> p in root
  {
    RenderedIsPart(files, tokens);
  }

  lemma JunkIsBetween(root: Root, files: seq<Template>, tokens: seq<Token>, fates: seq<Path -> Fate>)
    requires DistinctPaths(files)
    ensures var (before, junk) := RunAll(root, files, tokens, fates);
            Between(root, junk, before, Rendered(files, tokens))
  {
    RenderedIsPart(files, tokens);
    RunsStayBetween(root, map[], root, Rendered(files, tokens), files, tokens, fates);
    var junk := RunAll(root, files, tokens, fates).1;
    assert map[] + junk == junk;
  }

  /** So the runs converge to the template overlaid by what was there first exactly when no failed write
      left anything but the rendered content. */
  lemma ConvergesIffNoJunk(root: Root, files: seq<Template>, tokens: seq<Token>, fates: seq<Path -> Fate>,
                           last: Path -> Fate)
    requires DistinctPaths(files)
    requires Run(RunAll(root, files, tokens, fates).0, files, tokens, last).outcome.stop.None?
    ensures var (before, junk) := RunAll(root, files, tokens, fates);
            var full := Rendered(files, tokens);
            Run(before, files, tokens, last).root == full + root <==>
              forall p :: p in junk ==> p in full && junk[p] == full[p]
  {
    var (before, junk) := RunAll(root, files, tokens, fates);
    SuccessConverges(root, files, tokens, fates, last);
    JunkIsBetween(root, files, tokens, fates);
    OverlayIffSame(Rendered(files, tokens), junk, root);
  }

  lemma PathsOfRest(files: seq<Template>)
    requires files != [] && DistinctPaths(files)
    ensures forall q :: q in Paths(files) <==> q == files[0].path || q in Paths(files[1..])
    ensures files[0].path !in Paths(files[1..]) && DistinctPaths(files[1..])
  {
    assert files == [files[0]] + files[1..];
  }

  /** A successful run writes exactly the files that were missing and skips exactly the others, in
      order; another run then writes nothing and changes nothing. */
  lemma {:induction false} WrittenAndSkipped(root: Root, files: seq<Template>, tokens: seq<Token>, fate: Path -> Fate)
    requires DistinctPaths(files) && Run(root, files, tokens, fate).outcome.stop.None?
    ensures var o := Run(root, files, tokens, fate).outcome;
            && (forall p :: p in o.written <==> p in Paths(files) && p !in root)
            && (forall p :: p in o.skipped <==> p in Paths(files) && p in root)
            && |o.written| + |o.skipped| == |files|
    decreases |files|
  {
    if files != [] {
      var p, rest := files[0].path, files[1..];
      PathsOfRest(files);
      if p in root {
        WrittenAndSkipped(root, rest, tokens, fate);
      } else {
        WrittenAndSkipped(root[p := Render(files[0].raw, tokens)], rest, tokens, fate);
      }
    }
  }

  lemma {:induction false} RunningAgainChangesNothing(root: Root, files: seq<Template>, tokens: seq<Token>,
        fate: Path -> Fate)
    requires forall i :: 0 <= i < |files| ==> files[i].path in root
    ensures var a := Run(root, files, tokens, fate);
            a.root == root && a.outcome.written == [] && a.outcome.stop.None? && |a.outcome.skipped| == |files|
    decreases |files|
  {
    if files != [] { RunningAgainChangesNothing(root, files[1..], tokens, fate); }
  }

  /** A run that succeeds on an empty root ends equal to the template in memory. */
  lemma EmptyRootIsRendered(files: seq<Template>, tokens: seq<Token>, fate: Path -> Fate)
    requires DistinctPaths(files) && Run(map[], files, tokens, fate).outcome.stop.None?
    ensures Run(map[], files, tokens, fate).root == Rendered(files, tokens)
  {
    SuccessConverges(map[], files, tokens, [], fate);
    var full := Rendered(files, tokens);
    assert full + map[] + map[] == full;
  }
}
