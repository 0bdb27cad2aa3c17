/** From the blocks as the agents emitted them to the files: which block a path has its content from. */
module CodeWriterEmission {
  import opened Common
  import opened Text
  import opened TextLaws
  import opened CodeWriterModel

  /** The block is for the path and may be written: there is text in it, and the path stays inside the project. */
  predicate Emits(b: Block, p: Path) {
    Trim(b.path) == p && p != "" && !Contains(p, "..") && !StartsWith(p, "/") && Trim(b.content) != ""
  }

  /** The block is the last one that its agent emits for the path. */
  ghost predicate EmitsLast(blocks: seq<Block>, j: nat, p: Path) {
    && j < |blocks| && Emits(blocks[j], p)
    && forall k :: j < k < |blocks| ==> !Emits(blocks[k], p)
  }

  /** It is the last one of all agents. */
  ghost predicate LastOfAll(outputs: seq<AgentOutput>, i: nat, j: nat, p: Path) {
    && i < |outputs| && EmitsLast(outputs[i].blocks, j, p)
    && forall k: nat, m: nat :: i < k < |outputs| ==> !EmitsLast(outputs[k].blocks, m, p)
  }

  /** The path has the text of the last block emitted for it, and what it had before if there is none. */
  ghost predicate HasLast(before: map<Path, Content>, blocks: seq<Block>, after: map<Path, Content>, p: Path) {
    && (forall j: nat :: EmitsLast(blocks, j, p) ==> p in after && after[p] == Readable(Trim(blocks[j].content) + "\n"))
    && ((forall j: nat :: !EmitsLast(blocks, j, p)) ==>
          (p in after <==> p in before) && (p in before ==> after[p] == before[p]))
  }

  /** The same for several agents, one after the other. */
  ghost predicate HasLastOfAll(before: map<Path, Content>, outputs: seq<AgentOutput>, after: map<Path, Content>,
                               p: Path)
  {
    && (forall i: nat, j: nat :: LastOfAll(outputs, i, j, p) ==>
          p in after && after[p] == Readable(Trim(outputs[i].blocks[j].content) + "\n"))
    && ((forall i: nat, j: nat :: !LastOfAll(outputs, i, j, p)) ==>
          (p in after <==> p in before) && (p in before ==> after[p] == before[p]))
  }

  /** Of the agents the first `n` have their files on the disk, and no other agent has. */
  ghost predicate FirstHaveLanded(before: map<Path, Content>, outputs: seq<AgentOutput>, after: map<Path, Content>,
                                  n: nat)
  {
    n <= |outputs| && forall p :: HasLastOfAll(before, outputs[..n], after, p)
  }

  lemma KeptIff(b: Block)
    ensures KeptBlock(b).Some? <==> Emits(b, Trim(b.path))
    ensures KeptBlock(b).Some? ==> KeptBlock(b) == Some(Block(Trim(b.path), Trim(b.content) + "\n"))
  {
  }

  lemma {:induction false} KeptAppend(blocks: seq<Block>, b: Block)
    ensures Kept(blocks + [b]) == Kept(blocks) + AsSeq(KeptBlock(b))
  {
    if blocks == [] {
      assert blocks + [b] == [b];
      assert AsSeq(KeptBlock(b)) + [] == [] + AsSeq(KeptBlock(b));
    } else {
      assert (blocks + [b])[1..] == blocks[1..] + [b];
      KeptAppend(blocks[1..], b);
      Assoc(AsSeq(KeptBlock(blocks[0])), Kept(blocks[1..]), AsSeq(KeptBlock(b)));
    }
  }

  lemma OverlayAppend(blocks: seq<Block>, b: Block)
    ensures Overlay(blocks + [b]) == Overlay(blocks)[b.path := b.content]
  {
    assert (blocks + [b])[..|blocks|] == blocks;
  }

  lemma LastAppend(blocks: seq<Block>, b: Block, p: Path)
    ensures EmitsLast(blocks + [b], |blocks|, p) <==> Emits(b, p)
    ensures forall j: nat :: j < |blocks| ==>
              (EmitsLast(blocks + [b], j, p) <==> EmitsLast(blocks, j, p) && !Emits(b, p))
  {
    var all := blocks + [b];
    assert all[|blocks|] == b;
    forall j: nat | j < |blocks|
      ensures EmitsLast(all, j, p) <==> EmitsLast(blocks, j, p) && !Emits(b, p)
    {
      assert forall k :: 0 <= k < |blocks| ==> all[k] == blocks[k];
    }
  }

  /** The files are those of the last blocks of one agent. */
  ghost predicate MirrorsOne(files: map<Path, string>, blocks: seq<Block>, p: Path) {
    && (p in files <==> exists j: nat :: EmitsLast(blocks, j, p))
    && (forall j: nat :: EmitsLast(blocks, j, p) ==> p in files && files[p] == Trim(blocks[j].content) + "\n")
  }

  function WithBlock(files: map<Path, string>, b: Block): map<Path, string> {
    if Emits(b, Trim(b.path)) then files[Trim(b.path) := Trim(b.content) + "\n"] else files
  }

  lemma OneMoreBlockMirrored(front: seq<Block>, b: Block, files: map<Path, string>, p: Path)
    requires MirrorsOne(files, front, p)
    ensures MirrorsOne(WithBlock(files, b), front + [b], p)
  {
    var all := front + [b];
    LastAppend(front, b, p);
    if Emits(b, p) {
      assert EmitsLast(all, |front|, p);
    } else if p in files {
      var j: nat :| EmitsLast(front, j, p);
      assert EmitsLast(all, j, p);
    }
    forall j: nat | EmitsLast(all, j, p)
      ensures p in WithBlock(files, b) && WithBlock(files, b)[p] == Trim(all[j].content) + "\n"
    {
      assert j < |front| ==> EmitsLast(front, j, p) && all[j] == front[j];
    }
  }

  lemma OverlayOfOne(blocks: seq<Block>)
    requires blocks != []
    ensures Overlay(Kept(blocks)) == WithBlock(Overlay(Kept(blocks[..|blocks| - 1])), blocks[|blocks| - 1])
  {
    var front, b := blocks[..|blocks| - 1], blocks[|blocks| - 1];
    assert blocks == front + [b];
    KeptIff(b);
    KeptAppend(front, b);
    if KeptBlock(b).Some? {
      OverlayAppend(Kept(front), KeptBlock(b).value);
    } else {
      assert Kept(front) + [] == Kept(front);
    }
  }

  /** What one agent's kept blocks leave, told from the blocks it emitted. */
  lemma {:induction false} OverlayIsLast(blocks: seq<Block>, p: Path)
    ensures MirrorsOne(Overlay(Kept(blocks)), blocks, p)
    decreases |blocks|
  {
    if blocks != [] {
      var front, b := blocks[..|blocks| - 1], blocks[|blocks| - 1];
      assert blocks == front + [b];
      OverlayIsLast(front, p);
      OneMoreBlockMirrored(front, b, Overlay(Kept(front)), p);
      OverlayOfOne(blocks);
    }
  }

  lemma WrittenHasLast(before: map<Path, Content>, blocks: seq<Block>, p: Path)
    ensures HasLast(before, blocks, before + AsFiles(Overlay(Kept(blocks))), p)
  {
    OverlayIsLast(blocks, p);
  }

  /** Some emitted block is, once trimmed and with a newline at its end, the given one. */
  ghost predicate IsEmitted(blocks: seq<Block>, c: Block) {
    exists j :: 0 <= j < |blocks| && Emits(blocks[j], c.path) && c.content == Trim(blocks[j].content) + "\n"
  }

  /** What is validated is exactly what is emitted, trimmed and with a newline at its end. */
  lemma {:induction false} KeptAreEmitted(blocks: seq<Block>, c: Block)
    ensures c in Kept(blocks) <==> IsEmitted(blocks, c)
  {
    if blocks != [] {
      KeptAreEmitted(blocks[1..], c);
      KeptIff(blocks[0]);
      assert c in Kept(blocks) <==> c in AsSeq(KeptBlock(blocks[0])) || c in Kept(blocks[1..]);
      if j :| 0 <= j < |blocks| && Emits(blocks[j], c.path) && c.content == Trim(blocks[j].content) + "\n" {
        assert j > 0 ==> blocks[1..][j - 1] == blocks[j];
      }
      if j :| 0 <= j < |blocks| - 1 && Emits(blocks[1..][j], c.path) &&
              c.content == Trim(blocks[1..][j].content) + "\n" {
        assert blocks[j + 1] == blocks[1..][j];
      }
    }
  }

  lemma LastOfAllAppend(outputs: seq<AgentOutput>, o: AgentOutput, p: Path)
    ensures forall j: nat :: LastOfAll(outputs + [o], |outputs|, j, p) <==> EmitsLast(o.blocks, j, p)
    ensures forall i: nat, j: nat :: i < |outputs| ==>
              (LastOfAll(outputs + [o], i, j, p) <==>
                 LastOfAll(outputs, i, j, p) && forall m: nat :: !EmitsLast(o.blocks, m, p))
  {
    var all := outputs + [o];
    assert all[|outputs|] == o;
    assert forall k :: 0 <= k < |outputs| ==> all[k] == outputs[k];
  }

  /** The files are those of the last blocks of all. */
  ghost predicate Mirrors(files: map<Path, string>, outputs: seq<AgentOutput>, p: Path) {
    && (p in files <==> exists i: nat, j: nat :: LastOfAll(outputs, i, j, p))
    && (forall i: nat, j: nat :: LastOfAll(outputs, i, j, p) ==>
          p in files && files[p] == Trim(outputs[i].blocks[j].content) + "\n")
  }

  lemma OneMoreAgentMirrored(front: seq<AgentOutput>, o: AgentOutput, files: map<Path, string>,
                             more: map<Path, string>, p: Path)
    requires Mirrors(files, front, p) && MirrorsOne(more, o.blocks, p)
    ensures Mirrors(files + more, front + [o], p)
  {
    var all := front + [o];
    LastOfAllAppend(front, o, p);
    forall i: nat, j: nat | LastOfAll(all, i, j, p)
      ensures p in files + more && (files + more)[p] == Trim(all[i].blocks[j].content) + "\n"
    {
      if i < |front| {
        assert LastOfAll(front, i, j, p);
      } else {
        assert EmitsLast(o.blocks, j, p);
      }
    }
    if p in more {
      var j: nat :| EmitsLast(o.blocks, j, p);
      assert LastOfAll(all, |front|, j, p);
    } else if p in files {
      var i: nat, j: nat :| LastOfAll(front, i, j, p);
      assert LastOfAll(all, i, j, p);
    }
  }

  lemma OverlayOfAll(outputs: seq<AgentOutput>)
    requires outputs != []
    ensures Overlay(KeptAll(outputs)) ==
              Overlay(KeptAll(outputs[..|outputs| - 1])) + Overlay(Kept(outputs[|outputs| - 1].blocks))
  {
    OverlayConcat(KeptAll(outputs[..|outputs| - 1]), Kept(outputs[|outputs| - 1].blocks));
  }

  /** What all the agents' kept blocks leave, told from the blocks they emitted. */
  lemma {:induction false} OverlayIsLastOfAll(outputs: seq<AgentOutput>, p: Path)
    ensures Mirrors(Overlay(KeptAll(outputs)), outputs, p)
    decreases |outputs|
  {
    if outputs != [] {
      var front, o := outputs[..|outputs| - 1], outputs[|outputs| - 1];
      assert outputs == front + [o];
      OverlayIsLastOfAll(front, p);
      OverlayIsLast(o.blocks, p);
      OneMoreAgentMirrored(front, o, Overlay(KeptAll(front)), Overlay(Kept(o.blocks)), p);
      OverlayOfAll(outputs);
    }
  }

  lemma LandedHaveLanded(before: map<Path, Content>, outputs: seq<AgentOutput>, n: nat)
    requires n <= |outputs|
    ensures FirstHaveLanded(before, outputs, before + AsFiles(Overlay(KeptAll(outputs[..n]))), n)
  {
    forall p ensures HasLastOfAll(before, outputs[..n], before + AsFiles(Overlay(KeptAll(outputs[..n]))), p) {
      OverlayIsLastOfAll(outputs[..n], p);
    }
  }

  // -------- which paths a list of modified files names --------

  /** A path that a bullet can name. */
  predicate Nameable(p: Path) {
    && p != "" && !IsSpace(p[0]) && !IsSpace(p[|p| - 1])
    && ' ' !in p && !StartsWith(p, "(") && !Contains(p, "..") && !StartsWith(p, "/")
  }

  lemma TrimmedStays(s: string)
    requires s != "" && !IsSpace(s[0]) && !IsSpace(s[|s| - 1])
    ensures Trim(s) == s
  {
    assert TrimLeft(s) == s && TrimRight(s) == s;
  }

  /** A bullet names only such a path, and names it bare or between backticks. */
  lemma BulletsName(bullet: string, p: Path)
    ensures ListedPath(bullet) == Some(p) ==> Nameable(p)
    ensures Nameable(p) && p[0] != '`' && p[|p| - 1] != '`' ==>
              ListedPath(p) == Some(p) && ListedPath("`" + p + "`") == Some(p)
  {
    var a, b := TrimCuts(StripTicks(Trim(bullet)));
    if Nameable(p) && p[0] != '`' && p[|p| - 1] != '`' {
      TrimmedStays(p);
      assert StripTicks(p) == p;
      TicksAreStripped(p);
    }
  }

  lemma TicksAreStripped(p: string)
    requires p != "" && p[0] != '`' && p[|p| - 1] != '`'
    ensures Trim("`" + p + "`") == "`" + p + "`" && StripTicks("`" + p + "`") == p
  {
    var s, t := "`" + p + "`", p + "`";
    TrimmedStays(s);
    assert s[1..] == t;
    assert t[0] == p[0] && t[|t| - 1] == '`' && t[..|t| - 1] == p;
    assert StripTicks(p) == p;
    assert StripTicks(t) == StripTicks(p);
    assert StripTicks(s) == StripTicks(t);
  }

  // -------- what may not be written --------

  /** The block may be written: nothing is there, or what is there can be read, the new text has no marker of a
      fragment, and it does not drop half the lines of a file of twenty or more that is not exempt. */
  predicate MayWrite(rules: Rules, disk: map<Path, Content>, p: Path, after: string) {
    p in disk ==>
      && disk[p].Readable?
      && (forall i :: 0 <= i < |rules.markers| ==> !Contains(Lower(after), rules.markers[i]))
      && (Basename(p) in rules.exempt || Lines(disk[p].text) < 20 || 2 * Lines(after) > Lines(disk[p].text))
  }

  lemma OkIffMayWrite(rules: Rules, disk: map<Path, Content>, b: Block)
    ensures BlockOk(rules, disk, b) <==> MayWrite(rules, disk, b.path, b.content)
  {
  }

  /** Which blocks an agent emits for writing, all of which have to be allowed. */
  ghost predicate AllMayBeWritten(rules: Rules, disk: map<Path, Content>, blocks: seq<Block>) {
    forall b :: IsEmitted(blocks, b) ==> MayWrite(rules, disk, b.path, b.content)
  }

  lemma NoneBadIff(rules: Rules, disk: map<Path, Content>, blocks: seq<Block>)
    ensures FirstBad(rules, disk, Kept(blocks)).None? <==> AllMayBeWritten(rules, disk, blocks)
  {
    var kept := Kept(blocks);
    if FirstBad(rules, disk, kept).None? {
      forall b | IsEmitted(blocks, b) ensures MayWrite(rules, disk, b.path, b.content) {
        KeptAreEmitted(blocks, b);
        OkIffMayWrite(rules, disk, b);
      }
    } else {
      var b := FirstBad(rules, disk, kept).value;
      KeptAreEmitted(blocks, b);
      OkIffMayWrite(rules, disk, b);
    }
  }

  /** The error names a block that may not be written and says why: it cannot be read, has a marker, or drops
      lines. */
  ghost predicate Names(rules: Rules, disk: map<Path, Content>, blocks: seq<Block>, e: Error) {
    exists b :: IsEmitted(blocks, b) && !MayWrite(rules, disk, b.path, b.content) && Blames(rules, disk, b, e)
  }

  predicate Blames(rules: Rules, disk: map<Path, Content>, b: Block, e: Error) {
    && b.path in disk
    && match disk[b.path]
       case Unreadable => e == ReadFailed(b.path)
       case Readable(_) =>
         && e.Refused? && e.path == b.path && e.verdict != Accepted
         && (e.verdict == PatchMarker <==>
               exists i :: 0 <= i < |rules.markers| && Contains(Lower(b.content), rules.markers[i]))
  }

  lemma RefusalNames(rules: Rules, disk: map<Path, Content>, m: Memory, hash: string -> Digest, request: string,
                     blocks: seq<Block>)
    requires FirstBad(rules, disk, Kept(blocks)).Some?
    ensures var b := FirstBad(rules, disk, Kept(blocks)).value;
            Names(rules, disk, blocks, Refusal(rules, disk, m, hash, request, b))
  {
    var b := FirstBad(rules, disk, Kept(blocks)).value;
    KeptAreEmitted(blocks, b);
    OkIffMayWrite(rules, disk, b);
    assert Blames(rules, disk, b, Refusal(rules, disk, m, hash, request, b));
  }

  // -------- the answer --------

  /** The path was emitted, or listed and readable before. */
  ghost predicate Collected(before: map<Path, Content>, outputs: seq<AgentOutput>, p: Path) {
    (exists i: nat, j: nat :: LastOfAll(outputs, i, j, p)) || (ListedBy(outputs, p) && CanRead(before, p))
  }

  /** The path is collected, and the description names every guarded prefix that it is under. */
  ghost predicate ToReturn(rules: Rules, before: map<Path, Content>, outputs: seq<AgentOutput>, description: string,
                           p: Path)
  {
    && (forall k :: 0 <= k < |rules.guarded| && StartsWith(p, rules.guarded[k]) ==>
          Contains(description, rules.guarded[k]))
    && Collected(before, outputs, p)
  }

  /** Some path to return is of a kind. */
  ghost predicate ReturnsSome(rules: Rules, before: map<Path, Content>, outputs: seq<AgentOutput>,
                              description: string, kind: Path -> bool)
  {
    exists p :: ToReturn(rules, before, outputs, description, p) && kind(p)
  }

  /** What the answer is, if not the files, once every agent's files are on disk: nothing was collected, or
      everything is guarded, or the first check that fails of those that the files call for: lint for Python, the
      build for the frontend, the tests for test files. */
  ghost predicate Fails(rules: Rules, before: map<Path, Content>, outputs: seq<AgentOutput>, description: string,
                        c: Checks, e: Error)
  {
    var lint := !c.lint && ReturnsSome(rules, before, outputs, description, (p: Path) => EndsWith(p, ".py"));
    var build := !c.build && ReturnsSome(rules, before, outputs, description, (p: Path) => StartsWith(p, "frontend/"));
    var tests := !c.tests && ReturnsSome(rules, before, outputs, description, (p: Path) =>
      EndsWith(p, ".py") && StartsWith(p, "tests/") && Contains(AfterLast(p, '/'), "test_"));
    match e
    case NothingProduced => forall p :: !Collected(before, outputs, p)
    case AllGuarded =>
      && (exists p :: Collected(before, outputs, p))
      && (forall p :: !ToReturn(rules, before, outputs, description, p))
    case LintFailed => lint
    case BuildFailed => !lint && build
    case TestsFailed => !lint && !build && tests
    case _ => false
  }

  /** What is to be returned, as it reads once every agent's files are on disk. */
  lemma AllowedIsToReturn(rules: Rules, before: map<Path, Content>, outputs: seq<AgentOutput>, description: string,
                          p: Path)
    ensures var emitted := Overlay(KeptAll(outputs));
            var disk := before + AsFiles(emitted);
            var files := Allowed(rules, Bundle(disk, emitted, outputs), description);
            && (p in files <==> ToReturn(rules, before, outputs, description, p))
            && (p in files ==> p in disk && disk[p] == Readable(files[p]))
  {
    OverlayIsLastOfAll(outputs, p);
  }

  /** The files are those to be returned, each as it reads on disk. */
  ghost predicate Answers(rules: Rules, before: map<Path, Content>, outputs: seq<AgentOutput>, description: string,
                          after: map<Path, Content>, files: map<Path, string>)
  {
    && (forall p :: p in files <==> ToReturn(rules, before, outputs, description, p))
    && (forall p :: p in files ==> p in after && after[p] == Readable(files[p]))
  }

  lemma AnswerHolds(rules: Rules, before: map<Path, Content>, outputs: seq<AgentOutput>, description: string,
                    c: Checks)
    ensures var emitted := Overlay(KeptAll(outputs));
            var disk := before + AsFiles(emitted);
            var r := Answer(rules, Bundle(disk, emitted, outputs), description, c);
            r.Ok? ==> Answers(rules, before, outputs, description, disk, r.value)
  {
    var emitted := Overlay(KeptAll(outputs));
    var disk := before + AsFiles(emitted);
    var files := Allowed(rules, Bundle(disk, emitted, outputs), description);
    forall p
      ensures p in files <==> ToReturn(rules, before, outputs, description, p)
      ensures p in files ==> p in disk && disk[p] == Readable(files[p])
    {
      AllowedIsToReturn(rules, before, outputs, description, p);
    }
  }

  lemma CollectedIs(before: map<Path, Content>, outputs: seq<AgentOutput>, p: Path)
    ensures var emitted := Overlay(KeptAll(outputs));
            p in Bundle(before + AsFiles(emitted), emitted, outputs) <==> Collected(before, outputs, p)
  {
    OverlayIsLastOfAll(outputs, p);
  }

  /** The same over what is collected and what is left of it. */
  ghost predicate FailsIn(all: map<Path, string>, files: map<Path, string>, c: Checks, e: Error) {
    var lint := !c.lint && exists p :: p in files && IsPython(p);
    var build := !c.build && exists p :: p in files && StartsWith(p, "frontend/");
    var tests := !c.tests && exists p :: p in files && IsTest(p);
    match e
    case NothingProduced => forall p :: p !in all
    case AllGuarded => (exists p :: p in all) && (forall p :: p !in files)
    case LintFailed => lint
    case BuildFailed => !lint && build
    case TestsFailed => !lint && !build && tests
    case _ => false
  }

  lemma AnswerIs(rules: Rules, all: map<Path, string>, description: string, c: Checks)
    ensures var r, files := Answer(rules, all, description, c), Allowed(rules, all, description);
            && (r.Ok? ==> forall e :: !FailsIn(all, files, c, e))
            && (r.Err? ==> FailsIn(all, files, c, r.error))
  {
    var files := Allowed(rules, all, description);
    if all != map[] {
      var p :| p in all;
      if files != map[] { var q :| q in files; }
    }
  }

  lemma SameKind(rules: Rules, before: map<Path, Content>, outputs: seq<AgentOutput>, description: string,
                 files: map<Path, string>, kind: Path -> bool)
    requires forall p :: p in files <==> ToReturn(rules, before, outputs, description, p)
    ensures ReturnsSome(rules, before, outputs, description, kind) <==> exists p :: p in files && kind(p)
  {
  }

  lemma SameFailures(rules: Rules, before: map<Path, Content>, outputs: seq<AgentOutput>, description: string,
                     c: Checks, all: map<Path, string>, files: map<Path, string>, e: Error)
    requires forall p :: p in all <==> Collected(before, outputs, p)
    requires forall p :: p in files <==> ToReturn(rules, before, outputs, description, p)
    ensures FailsIn(all, files, c, e) <==> Fails(rules, before, outputs, description, c, e)
  {
    SameKind(rules, before, outputs, description, files, (p: Path) => EndsWith(p, ".py"));
    SameKind(rules, before, outputs, description, files, (p: Path) => StartsWith(p, "frontend/"));
    SameKind(rules, before, outputs, description, files, (p: Path) =>
      EndsWith(p, ".py") && StartsWith(p, "tests/") && Contains(AfterLast(p, '/'), "test_"));
  }

  /** The answer is a map of files, or an error, exactly as what was collected and the checks say. */
  lemma AnswerTells(rules: Rules, before: map<Path, Content>, outputs: seq<AgentOutput>, description: string,
                    c: Checks, after: map<Path, Content>, r: Result<map<Path, string>>)
    requires after == before + AsFiles(Overlay(KeptAll(outputs)))
    requires r == Answer(rules, Bundle(after, Overlay(KeptAll(outputs)), outputs), description, c)
    ensures r.Ok? ==> Answers(rules, before, outputs, description, after, r.value)
    ensures r.Ok? ==> forall e :: !Fails(rules, before, outputs, description, c, e)
    ensures r.Err? ==> Fails(rules, before, outputs, description, c, r.error)
  {
    var all := Bundle(after, Overlay(KeptAll(outputs)), outputs);
    var files := Allowed(rules, all, description);
    AnswerHolds(rules, before, outputs, description, c);
    AnswerIs(rules, all, description, c);
    forall p ensures p in all <==> Collected(before, outputs, p) { CollectedIs(before, outputs, p); }
    forall p ensures p in files <==> ToReturn(rules, before, outputs, description, p) {
      AllowedIsToReturn(rules, before, outputs, description, p);
    }
    forall e ensures FailsIn(all, files, c, e) <==> Fails(rules, before, outputs, description, c, e) {
      SameFailures(rules, before, outputs, description, c, all, files, e);
    }
  }
}
