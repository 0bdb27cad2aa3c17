/** Which agent output may reach the disk: the overwrite guard, its memory of rejections, and what a
    whole materialisation leaves on disk. */
module CodeWriterModel {
  import opened Common
  import opened Text

  type Path = string
  type Digest(==, !new)

  /** A file on disk; some cannot be read back as text. */
  datatype Content = Readable(text: string) | Unreadable

  datatype Block = Block(path: Path, content: string)

  /** One agent's output: the emitted file blocks and the bullets of its list of modified files. */
  datatype AgentOutput = AgentOutput(blocks: seq<Block>, listed: seq<string>)

  datatype Verdict = Accepted | PatchMarker | LineDrop | DropLoop

  datatype Error =
    | Refused(path: Path, verdict: Verdict)
    | ReadFailed(path: Path)
    | NothingProduced
    | AllGuarded
    | LintFailed
    | BuildFailed
    | TestsFailed

  datatype Result<+T> = Ok(value: T) | Err(error: Error)

  // -------- the overwrite guard --------

  const MIN_LINES_FOR_DROP_CHECK: nat := 20
  const MAX_LINE_DROP_PCT: real := 50.0

  /** The lists that tune the guard: fragment markers, exempt basenames and guarded prefixes. */
  datatype Rules = Rules(markers: seq<string>, exempt: seq<string>, guarded: seq<string>)

  const SHIPPED := Rules(
    [ "patch scope", "patch fragment", "splice these in-place", "splice in-place", "the patcher must",
      "rest of file unchanged", "rest of the file unchanged", "... existing code ...", "... unchanged ...",
      "// ... existing", "/* ... existing", "# ... existing" ],
    [ "tsconfig.json", "vite.config.ts", "vite.config.js", "tailwind.config.ts", "tailwind.config.js",
      "postcss.config.js", "postcss.config.cjs", "eslint.config.js", ".prettierrc", "index.css", "main.css",
      ".gitignore", ".dockerignore", ".env.example", "pyproject.toml", "ruff.toml" ],
    [ "config/agents/", "config/tools.yaml", "config/workflows.yaml", "config/teams.yaml", "supervisor/", ".github/",
      "Dockerfile", "docker-compose" ])

  function Lines(s: string): nat {
    CountChar(s, '\n')
  }

  predicate HasMarker(rules: Rules, s: string) {
    exists i :: 0 <= i < |rules.markers| && Contains(Lower(s), rules.markers[i])
  }

  /** The percentage rule: at least half the lines of a file of twenty or more are gone. */
  predicate PercentDropped(before: nat, after: nat) {
    && before >= MIN_LINES_FOR_DROP_CHECK
    && after < before
    && (before - after) as real / before as real * 100.0 >= MAX_LINE_DROP_PCT
  }

  /** The same rule on integers. */
  predicate Shrinks(before: nat, after: nat) {
    before >= MIN_LINES_FOR_DROP_CHECK && 2 * (before - after) >= before
  }

  function Basename(p: Path): string {
    AfterLast(AfterLast(p, '/'), '\\')
  }

  predicate Dropped(rules: Rules, path: Path, before: string, after: string) {
    !HasMarker(rules, after) && Shrinks(Lines(before), Lines(after)) && Basename(path) !in rules.exempt
  }

  predicate Acceptable(rules: Rules, path: Path, before: string, after: string) {
    !HasMarker(rules, after) && !Dropped(rules, path, before, after)
  }

  /** The percentage rule is the integer rule. */
  lemma PercentRuleIsExact(before: nat, after: nat)
    ensures PercentDropped(before, after) <==> Shrinks(before, after)
  {
    if before > 0 && after < before { PercentIsHalf(before - after, before); }
  }

  lemma PercentIsHalf(lost: nat, all: nat)
    requires all > 0
    ensures lost as real / all as real * 100.0 >= 50.0 <==> 2 * lost >= all
  {
    var q := lost as real / all as real;
    assert q * 100.0 >= 50.0 <==> q >= 0.5;
    Quotient(lost as real, all as real);
    HalfOf(q, all as real);
    assert lost as real >= 0.5 * all as real <==> (2 * lost) as real >= all as real;
  }

  lemma Quotient(d: real, b: real)
    requires b > 0.0
    ensures (d / b) * b == d
  {
  }

  lemma HalfOf(q: real, b: real)
    requires b > 0.0
    ensures q >= 0.5 <==> q * b >= 0.5 * b
  {
    if q < 0.5 {
      assert (0.5 - q) * b > 0.0;
    } else {
      assert (q - 0.5) * b >= 0.0;
    }
  }

  function Pow2(k: nat): (p: nat)
    ensures p >= 1
  {
    if k == 0 then 1 else 2 * Pow2(k - 1)
  }

  /** Each text may overwrite the one before it, which has at least twenty lines. */
  ghost predicate AcceptedRun(rules: Rules, path: Path, texts: seq<string>) {
    forall i :: 0 <= i < |texts| - 1 ==> AcceptedStep(rules, path, texts, i)
  }

  predicate AcceptedStep(rules: Rules, path: Path, texts: seq<string>, i: nat)
    requires i + 1 < |texts|
  {
    Lines(texts[i]) >= 20 && Acceptable(rules, path, texts[i], texts[i + 1])
  }

  predicate MoreThanPow2th(last: nat, k: nat, first: nat) {
    last * Pow2(k) > first
  }

  lemma HalvedOnceMore(last: nat, before: nat, power: nat, first: nat)
    requires 2 * last > before && power >= 1 && before * power >= first
    ensures last * (2 * power) > first
  {
    Regroup(last, power);
    TimesSum(before, 2 * last - before, power);
    AtLeastOne(2 * last - before, power);
  }

  lemma Regroup(a: nat, b: nat)
    ensures a * (2 * b) == (2 * a) * b
  {
  }

  lemma TimesSum(a: nat, b: nat, c: nat)
    ensures (a + b) * c == a * c + b * c
  {
  }

  lemma AtLeastOne(a: nat, b: nat)
    requires a >= 1 && b >= 1
    ensures a * b >= 1
  {
  }

  lemma KeepsMoreThanHalf(rules: Rules, path: Path, before: string, after: string)
    requires Lines(before) >= 20 && Acceptable(rules, path, before, after) && Basename(path) !in rules.exempt
    ensures 2 * Lines(after) > Lines(before)
  {
  }

  predicate HalvingAtMost(counts: seq<nat>) {
    forall i :: 0 <= i < |counts| - 1 ==> HalvedAt(counts, i)
  }

  predicate HalvedAt(counts: seq<nat>, i: nat)
    requires i + 1 < |counts|
  {
    counts[i] < 2 * counts[i + 1]
  }

  lemma {:induction false} HalvingBound(counts: seq<nat>)
    requires |counts| >= 2 && HalvingAtMost(counts)
    ensures MoreThanPow2th(counts[|counts| - 1], |counts| - 1, counts[0])
    decreases |counts|
  {
    var k := |counts| - 1;
    assert HalvedAt(counts, k - 1);
    if k >= 2 {
      forall i | 0 <= i < k - 1 ensures HalvedAt(counts[..k], i) { assert HalvedAt(counts, i); }
      HalvingBound(counts[..k]);
    }
    HalvedOnceMore(counts[k], counts[k - 1], Pow2(k - 1), counts[0]);
  }

  function LineCounts(texts: seq<string>): (r: seq<nat>)
    ensures |r| == |texts| && forall i :: 0 <= i < |texts| ==> r[i] == Lines(texts[i])
  {
    seq(|texts|, i requires 0 <= i < |texts| => Lines(texts[i]))
  }

  lemma AcceptedRunHalves(rules: Rules, path: Path, texts: seq<string>)
    requires AcceptedRun(rules, path, texts) && Basename(path) !in rules.exempt
    ensures HalvingAtMost(LineCounts(texts))
  {
    forall i | 0 <= i < |texts| - 1 ensures HalvedAt(LineCounts(texts), i) {
      assert AcceptedStep(rules, path, texts, i);
      KeepsMoreThanHalf(rules, path, texts[i], texts[i + 1]);
    }
  }

  /** However many whole-file overwrites are accepted, each halves the lines at most: k of them leave
      more than a 2^k-th, for every k of one or more. */
  lemma ShrinkBound(rules: Rules, path: Path, texts: seq<string>)
    requires |texts| >= 2 && AcceptedRun(rules, path, texts) && Basename(path) !in rules.exempt
    ensures MoreThanPow2th(Lines(texts[|texts| - 1]), |texts| - 1, Lines(texts[0]))
  {
    AcceptedRunHalves(rules, path, texts);
    HalvingBound(LineCounts(texts));
  }

  // -------- the memory of rejections --------

  datatype Event = Drop(request: string, path: Path, text: string) | Success(request: string)

  type Memory = map<(string, Path), Digest>

  function Remember(m: Memory, e: Event, hash: string -> Digest): Memory {
    match e
    case Drop(request, path, text) => if request == "" then m else m[(request, path) := hash(text)]
    case Success(request) => map k | k in m && k.0 != request :: m[k]
  }

  /** The memory that a history of rejections and successes leaves. */
  function MemoryAfter(events: seq<Event>, hash: string -> Digest): Memory
    decreases |events|
  {
    if events == [] then map[]
    else Remember(MemoryAfter(events[..|events| - 1], hash), events[|events| - 1], hash)
  }

  lemma MemoryAppend(events: seq<Event>, e: Event, hash: string -> Digest)
    ensures MemoryAfter(events + [e], hash) == Remember(MemoryAfter(events, hash), e, hash)
  {
    assert (events + [e])[..|events|] == events;
  }

  /** The text of the most recent drop rejection of a path since the request's last success. */
  function LastRejection(events: seq<Event>, request: string, path: Path): Option<string>
    decreases |events|
  {
    if events == [] then None
    else
      var last := events[|events| - 1];
      if last == Success(request) then None
      else if last.Drop? && last.request == request && last.path == path then Some(last.text)
      else LastRejection(events[..|events| - 1], request, path)
  }

  /** The memory is the history: for every named request it holds the digest of the last rejection
      since the last success, and nothing else. Without a request name nothing is remembered. */
  lemma {:induction false} MemoryIsHistory(events: seq<Event>, hash: string -> Digest, request: string, path: Path)
    ensures var m, last := MemoryAfter(events, hash), LastRejection(events, request, path);
            && ((request, path) in m <==> request != "" && last.Some?)
            && ((request, path) in m ==> m[(request, path)] == hash(last.value))
    decreases |events|
  {
    if events != [] { MemoryIsHistory(events[..|events| - 1], hash, request, path); }
  }

  /** One request's success forgets its own rejections and nobody else's. */
  lemma SuccessForgetsOnlyItsOwn(events: seq<Event>, hash: string -> Digest, done: string, request: string, path: Path)
    ensures (request, path) in MemoryAfter(events + [Success(done)], hash) <==>
              request != done && (request, path) in MemoryAfter(events, hash)
    ensures request != done && (request, path) in MemoryAfter(events, hash) ==>
              MemoryAfter(events + [Success(done)], hash)[(request, path)] == MemoryAfter(events, hash)[(request, path)]
  {
    assert (events + [Success(done)])[..|events|] == events;
  }

  ghost predicate Injective(hash: string -> Digest) {
    forall a, b :: hash(a) == hash(b) ==> a == b
  }

  /** The guard's verdict on an overwrite. */
  function Judge(rules: Rules, m: Memory, hash: string -> Digest, request: string, path: Path, before: string,
                 after: string): Verdict
  {
    if HasMarker(rules, after) then PatchMarker
    else if !Dropped(rules, path, before, after) then Accepted
    else if request != "" && (request, path) in m && m[(request, path)] == hash(after) then DropLoop
    else LineDrop
  }

  /** The loop error comes exactly when the guard drops the overwrite and the most recent drop of that
      path, since the request's last success, was of the same content. */
  lemma LoopIffRepeated(rules: Rules, events: seq<Event>, hash: string -> Digest, request: string, path: Path,
                        before: string, after: string)
    requires Injective(hash) && request != ""
    ensures Judge(rules, MemoryAfter(events, hash), hash, request, path, before, after) == DropLoop <==>
              Dropped(rules, path, before, after) && LastRejection(events, request, path) == Some(after)
  {
    MemoryIsHistory(events, hash, request, path);
  }

  // -------- which blocks are kept, and what they leave --------

  predicate Safe(p: Path) {
    !Contains(p, "..") && !StartsWith(p, "/")
  }

  /** A block with text left after trimming and a path inside the project; a newline ends it. */
  function KeptBlock(b: Block): Option<Block> {
    var path, content := Trim(b.path), Trim(b.content);
    if path == "" || content == "" || !Safe(path) then None else Some(Block(path, content + "\n"))
  }

  function AsSeq<T>(o: Option<T>): seq<T> {
    if o.None? then [] else [o.value]
  }

  function Kept(blocks: seq<Block>): seq<Block> {
    if blocks == [] then [] else AsSeq(KeptBlock(blocks[0])) + Kept(blocks[1..])
  }

  /** All the kept blocks of several agents, in order. */
  function KeptAll(outputs: seq<AgentOutput>): seq<Block>
    decreases |outputs|
  {
    if outputs == [] then []
    else KeptAll(outputs[..|outputs| - 1]) + Kept(outputs[|outputs| - 1].blocks)
  }

  /** Path to content, the last block of a path winning. */
  function Overlay(blocks: seq<Block>): map<Path, string>
    decreases |blocks|
  {
    if blocks == [] then map[]
    else
      var last := blocks[|blocks| - 1];
      Overlay(blocks[..|blocks| - 1])[last.path := last.content]
  }

  function AsFiles(m: map<Path, string>): map<Path, Content> {
    map p | p in m :: Readable(m[p])
  }

  lemma OneMoreFile(disk: map<Path, Content>, files: map<Path, string>, b: Block)
    ensures disk + AsFiles(files[b.path := b.content]) == (disk + AsFiles(files))[b.path := Readable(b.content)]
  {
  }

  lemma {:induction false} OverlayConcat(a: seq<Block>, b: seq<Block>)
    ensures Overlay(a + b) == Overlay(a) + Overlay(b)
    decreases |b|
  {
    if b == [] {
      assert a + b == a;
    } else {
      var k := |b| - 1;
      assert (a + b)[..|a + b| - 1] == a + b[..k];
      OverlayConcat(a, b[..k]);
    }
  }

  /** The last writer wins: a path has the content of its last block, and only written paths occur. */
  lemma {:induction false} LastWriterWins(blocks: seq<Block>, p: Path)
    ensures p in Overlay(blocks) <==> exists i :: 0 <= i < |blocks| && blocks[i].path == p
    ensures forall i ::
              0 <= i < |blocks| && blocks[i].path == p && (forall j :: i < j < |blocks| ==> blocks[j].path != p) ==>
              Overlay(blocks)[p] == blocks[i].content
    decreases |blocks|
  {
    if blocks != [] {
      var front := blocks[..|blocks| - 1];
      LastWriterWins(front, p);
      assert forall i :: 0 <= i < |front| ==> front[i] == blocks[i];
    }
  }

  /** A kept block may be written over what is on disk now. */
  predicate BlockOk(rules: Rules, disk: map<Path, Content>, b: Block) {
    b.path in disk ==> disk[b.path].Readable? && Acceptable(rules, b.path, disk[b.path].text, b.content)
  }

  /** Why a kept block may not be written. */
  function Refusal(rules: Rules, disk: map<Path, Content>, m: Memory, hash: string -> Digest, request: string,
                   b: Block): Error
    requires b.path in disk
  {
    match disk[b.path]
    case Unreadable => ReadFailed(b.path)
    case Readable(before) => Refused(b.path, Judge(rules, m, hash, request, b.path, before, b.content))
  }

  /** The rejection that judging a kept block adds to the history. */
  function DropOf(rules: Rules, disk: map<Path, Content>, request: string, b: Block): seq<Event> {
    if CanRead(disk, b.path) && Dropped(rules, b.path, disk[b.path].text, b.content)
    then [Drop(request, b.path, b.content)] else []
  }

  /** The first kept block that may not be written. */
  function FirstBad(rules: Rules, disk: map<Path, Content>, kept: seq<Block>): (r: Option<Block>)
    ensures r.None? <==> forall i :: 0 <= i < |kept| ==> BlockOk(rules, disk, kept[i])
    ensures r.Some? ==> r.value in kept && !BlockOk(rules, disk, r.value) && r.value.path in disk
  {
    if kept == [] then None
    else if !BlockOk(rules, disk, kept[0]) then Some(kept[0])
    else FirstBad(rules, disk, kept[1..])
  }

  lemma OneMoreKept(rules: Rules, disk: map<Path, Content>, done: seq<Block>, todo: seq<Block>)
    requires todo != []
    ensures var rest := Kept(todo[1..]);
            match KeptBlock(todo[0])
            case None =>
              done + Kept(todo) == done + rest && FirstBad(rules, disk, Kept(todo)) == FirstBad(rules, disk, rest)
            case Some(b) =>
              && done + Kept(todo) == done + [b] + rest
              && FirstBad(rules, disk, Kept(todo)) ==
                   if BlockOk(rules, disk, b) then FirstBad(rules, disk, rest) else Some(b)
  {
    var rest := Kept(todo[1..]);
    match KeptBlock(todo[0])
    case None =>
      assert [] + rest == rest;
    case Some(b) =>
      var all := [b] + rest;
      assert Kept(todo) == all && all[0] == b && all[1..] == rest;
      assert done + all == done + [b] + rest;
  }

  /** How many agents get their files onto the disk, one after the other, before one is refused. */
  function Landed(rules: Rules, disk: map<Path, Content>, outputs: seq<AgentOutput>): (n: nat)
    ensures n <= |outputs|
    decreases |outputs|
  {
    if outputs == [] || FirstBad(rules, disk, Kept(outputs[0].blocks)).Some? then 0
    else 1 + Landed(rules, disk + AsFiles(Overlay(Kept(outputs[0].blocks))), outputs[1..])
  }

  lemma LandedFirst(rules: Rules, disk: map<Path, Content>, todo: seq<AgentOutput>)
    requires todo != []
    ensures FirstBad(rules, disk, Kept(todo[0].blocks)).Some? ==> Landed(rules, disk, todo) == 0
    ensures FirstBad(rules, disk, Kept(todo[0].blocks)).None? ==>
              Landed(rules, disk, todo) == 1 + Landed(rules, disk + AsFiles(Overlay(Kept(todo[0].blocks))), todo[1..])
  {
  }

  lemma SplitHere<T>(done: seq<T>, todo: seq<T>)
    requires todo != []
    ensures (done + todo)[..|done|] == done && (done + todo)[|done|] == todo[0]
    ensures done + todo == done + [todo[0]] + todo[1..]
  {
  }

  /** One more agent's files on the disk. */
  lemma OneMoreAgent(before: map<Path, Content>, done: seq<AgentOutput>, o: AgentOutput)
    ensures KeptAll(done + [o]) == KeptAll(done) + Kept(o.blocks)
    ensures Overlay(KeptAll(done + [o])) == Overlay(KeptAll(done)) + Overlay(Kept(o.blocks))
    ensures before + AsFiles(Overlay(KeptAll(done + [o])))
         == before + AsFiles(Overlay(KeptAll(done))) + AsFiles(Overlay(Kept(o.blocks)))
  {
    assert (done + [o])[..|done|] == done;
    OverlayConcat(KeptAll(done), Kept(o.blocks));
    FilesConcat(before, Overlay(KeptAll(done)), Overlay(Kept(o.blocks)));
  }

  lemma FilesConcat(before: map<Path, Content>, a: map<Path, string>, b: map<Path, string>)
    ensures before + AsFiles(a + b) == before + AsFiles(a) + AsFiles(b)
  {
  }

  // -------- what is returned --------

  /** Under a guarded prefix that the description does not name. */
  predicate OffLimits(rules: Rules, p: Path, description: string) {
    exists i :: 0 <= i < |rules.guarded| && StartsWith(p, rules.guarded[i]) && !Contains(description, rules.guarded[i])
  }

  /** With the shipped lists no request may change the supervisor unless its description names it. */
  lemma SupervisorIsGuarded(p: Path, description: string)
    requires StartsWith(p, "supervisor/")
    ensures OffLimits(SHIPPED, p, description) <== !Contains(description, "supervisor/")
  {
    assert SHIPPED.guarded[4] == "supervisor/";
  }

  function StripTicks(s: string): string
    decreases |s|
  {
    if s != "" && s[0] == '`' then StripTicks(s[1..])
    else if s != "" && s[|s| - 1] == '`' then StripTicks(s[..|s| - 1])
    else s
  }

  /** The path that a bullet of the list of modified files names, if it names one. */
  function ListedPath(bullet: string): Option<Path> {
    var p := Trim(StripTicks(Trim(bullet)));
    if p == "" || ' ' in p || StartsWith(p, "(") || !Safe(p) then None else Some(p)
  }

  predicate ListedIn(bullets: seq<string>, p: Path) {
    exists i :: 0 <= i < |bullets| && ListedPath(bullets[i]) == Some(p)
  }

  predicate ListedBy(outputs: seq<AgentOutput>, p: Path) {
    exists i :: 0 <= i < |outputs| && ListedIn(outputs[i].listed, p)
  }

  lemma ListedInAppend(bullets: seq<string>, bullet: string, p: Path)
    ensures ListedIn(bullets + [bullet], p) <==> ListedIn(bullets, p) || ListedPath(bullet) == Some(p)
  {
    var all := bullets + [bullet];
    assert all[|bullets|] == bullet && forall i :: 0 <= i < |bullets| ==> all[i] == bullets[i];
  }

  lemma ListedByAppend(outputs: seq<AgentOutput>, o: AgentOutput, p: Path)
    ensures ListedBy(outputs + [o], p) <==> ListedBy(outputs, p) || ListedIn(o.listed, p)
  {
    var all := outputs + [o];
    assert all[|outputs|] == o && forall i :: 0 <= i < |outputs| ==> all[i] == outputs[i];
  }

  /** `all` holds a path of `files` as it is there, and a named one as it reads on disk. */
  ghost predicate PicksUp(disk: map<Path, Content>, files: map<Path, string>, all: map<Path, string>, p: Path,
                          named: bool)
  {
    && (p in all <==> p in files || (named && CanRead(disk, p)))
    && (p in files && p in all ==> all[p] == files[p])
    && (p in all && p !in files && CanRead(disk, p) ==> all[p] == disk[p].text)
  }

  predicate CanRead(disk: map<Path, Content>, p: Path) {
    p in disk && disk[p].Readable?
  }

  /** Whether lint, build and tests pass when they are run. */
  datatype Checks = Checks(lint: bool, build: bool, tests: bool)

  predicate IsPython(p: Path) {
    EndsWith(p, ".py")
  }

  predicate IsTest(p: Path) {
    IsPython(p) && StartsWith(p, "tests/") && Contains(AfterLast(p, '/'), "test_")
  }

  /** Every emitted or listed file as it reads on disk. */
  function Bundle(disk: map<Path, Content>, emitted: map<Path, string>, outputs: seq<AgentOutput>): map<Path, string> {
    map p | p in disk && disk[p].Readable? && (p in emitted || ListedBy(outputs, p)) :: disk[p].text
  }

  function Allowed(rules: Rules, files: map<Path, string>, description: string): map<Path, string> {
    map p | p in files && !OffLimits(rules, p, description) :: files[p]
  }

  /** The checks run only for the kinds of files that are there. */
  function CheckError(files: map<Path, string>, c: Checks): Option<Error> {
    if (exists p :: p in files && IsPython(p)) && !c.lint then Some(LintFailed)
    else if (exists p :: p in files && StartsWith(p, "frontend/")) && !c.build then Some(BuildFailed)
    else if (exists p :: p in files && IsTest(p)) && !c.tests then Some(TestsFailed)
    else None
  }

  /** What materialisation answers for the files collected once every agent's files are on disk. */
  function Answer(rules: Rules, all: map<Path, string>, description: string, c: Checks): Result<map<Path, string>> {
    if all == map[] then Err(NothingProduced)
    else if Allowed(rules, all, description) == map[] then Err(AllGuarded)
    else
      match CheckError(Allowed(rules, all, description), c)
      case Some(e) => Err(e)
      case None => Ok(Allowed(rules, all, description))
  }

  /** The returned map mirrors the disk: it holds exactly the emitted or listed-and-readable files
      outside unauthorised prefixes, each with what is on disk. */
  lemma ReturnedMapMirrorsDisk(rules: Rules, before: map<Path, Content>, emitted: map<Path, string>,
                               outputs: seq<AgentOutput>, description: string, c: Checks, p: Path)
    ensures var disk := before + AsFiles(emitted);
            var r := Answer(rules, Bundle(disk, emitted, outputs), description, c);
            r.Ok? ==>
              && (p in r.value <==>
                    (p in emitted || (ListedBy(outputs, p) && CanRead(before, p))) &&
                    !OffLimits(rules, p, description))
              && (p in r.value ==> p in disk && disk[p] == Readable(r.value[p]))
              && (p in r.value && p in emitted ==> r.value[p] == emitted[p])
  {
  }

  lemma BundleIsPickUp(disk: map<Path, Content>, before: map<Path, Content>, emitted: map<Path, string>,
                       outputs: seq<AgentOutput>, all: map<Path, string>)
    requires disk == before + AsFiles(emitted)
    requires forall p :: PicksUp(disk, emitted, all, p, ListedBy(outputs, p))
    ensures all == Bundle(disk, emitted, outputs)
  {
    forall p ensures p in all <==> p in Bundle(disk, emitted, outputs) {
      assert PicksUp(disk, emitted, all, p, ListedBy(outputs, p));
    }
    forall p | p in all ensures all[p] == disk[p].text {
      assert PicksUp(disk, emitted, all, p, ListedBy(outputs, p));
    }
  }
}
