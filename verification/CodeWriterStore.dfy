/** The code writer: two-phase validate and write for each agent, then pick up, filter and check. */
module CodeWriterStore {
  import opened Common
  import opened Text
  import opened CodeWriterEmission
  import opened CodeWriterModel

  class CodeWriter {
    const rules: Rules
    const hash: string -> Digest
    var disk: map<Path, Content>
    var memory: Memory
    ghost var events: seq<Event>

    ghost predicate Valid()
      reads this
    {
      memory == MemoryAfter(events, hash)
    }

    constructor (rules: Rules, hash: string -> Digest, disk: map<Path, Content>)
      ensures Valid() && this.rules == rules && this.hash == hash && this.disk == disk && events == []
    {
      this.rules, this.hash, this.disk := rules, hash, disk;
      memory, events := map[], [];
    }

    method FindsMarker(text: string) returns (found: bool)
      ensures found == HasMarker(rules, text)
    {
      var lower := Lower(text);
      for k := 0 to |rules.markers|
        invariant forall i :: 0 <= i < k ==> !Contains(lower, rules.markers[i])
      {
        if Contains(lower, rules.markers[k]) { return true; }
      }
      return false;
    }

    /** Judges one overwrite and remembers a drop. */
    method ValidateSafeOverwrite(path: Path, before: string, after: string, request: string) returns (v: Verdict)
      requires Valid()
      modifies this`memory, this`events
      ensures Valid()
      ensures v == Accepted <==> !HasMarker(rules, after) && !Dropped(rules, path, before, after)
      ensures v == PatchMarker <==> HasMarker(rules, after)
      ensures v == DropLoop <==>
                && Dropped(rules, path, before, after) && request != ""
                && (request, path) in old(memory) && old(memory)[(request, path)] == hash(after)
      ensures v == Judge(rules, old(memory), hash, request, path, before, after)
      ensures v == Accepted ==> memory == old(memory) && events == old(events)
      ensures events == old(events) + if Dropped(rules, path, before, after) then [Drop(request, path, after)] else []
    {
      var marked := FindsMarker(after);
      if marked { return PatchMarker; }
      var oldLines, newLines := Lines(before), Lines(after);
      PercentRuleIsExact(oldLines, newLines);
      if !PercentDropped(oldLines, newLines) { return Accepted; }
      if Basename(path) in rules.exempt { return Accepted; }
      var again := RememberDrop(path, after, request);
      return if again then DropLoop else LineDrop;
    }

    /** Remembers a drop; true if the same content was the last one dropped. */
    method RememberDrop(path: Path, text: string, request: string) returns (again: bool)
      requires Valid()
      modifies this`memory, this`events
      ensures Valid() && events == old(events) + [Drop(request, path, text)]
      ensures again <==> request != "" && (request, path) in old(memory) && old(memory)[(request, path)] == hash(text)
    {
      MemoryAppend(events, Drop(request, path, text), hash);
      events := events + [Drop(request, path, text)];
      var digest := hash(text);
      if request == "" { return false; }
      again := (request, path) in memory && memory[(request, path)] == digest;
      if again {
        assert memory == memory[(request, path) := digest];
        return;
      }
      memory := memory[(request, path) := digest];
    }

    /** Validates one kept block against the disk. */
    method Validate(b: Block, request: string) returns (e: Option<Error>)
      requires Valid()
      modifies this`memory, this`events
      ensures Valid()
      ensures e.None? <==> BlockOk(rules, disk, b)
      ensures e.None? ==> memory == old(memory) && events == old(events)
      ensures e.Some? ==> b.path in disk && e.value == Refusal(rules, disk, old(memory), hash, request, b)
      ensures events == old(events) + DropOf(rules, disk, request, b)
    {
      if b.path !in disk { return None; }
      match disk[b.path] {
        case Unreadable => return Some(ReadFailed(b.path));
        case Readable(before) =>
          var v := ValidateSafeOverwrite(b.path, before, b.content, request);
          return if v == Accepted then None else Some(Refused(b.path, v));
      }
    }

    /** Phase one: every block is judged before anything is written. */
    method ValidateBlocks(blocks: seq<Block>, request: string) returns (r: Result<seq<Block>>)
      requires Valid()
      modifies this`memory, this`events
      ensures Valid()
      ensures r.Ok? <==> AllMayBeWritten(rules, disk, blocks)
      ensures r.Ok? ==> forall b :: b in r.value <==> IsEmitted(blocks, b)
      ensures r.Err? ==> Names(rules, disk, blocks, r.error)
      ensures var bad := FirstBad(rules, disk, Kept(blocks));
              && (bad.None? ==> r == Ok(Kept(blocks)) && events == old(events) && memory == old(memory))
              && (bad.Some? ==> r == Err(Refusal(rules, disk, old(memory), hash, request, bad.value))
                                && events == old(events) + DropOf(rules, disk, request, bad.value))
    {
      forall b ensures b in Kept(blocks) <==> IsEmitted(blocks, b) { KeptAreEmitted(blocks, b); }
      NoneBadIff(rules, disk, blocks);
      if FirstBad(rules, disk, Kept(blocks)).Some? { RefusalNames(rules, disk, memory, hash, request, blocks); }
      r := ValidateEach(blocks, request);
    }

    method ValidateEach(blocks: seq<Block>, request: string) returns (r: Result<seq<Block>>)
      requires Valid()
      modifies this`memory, this`events
      ensures Valid()
      ensures var bad := FirstBad(rules, disk, Kept(blocks));
              && (bad.None? ==> r == Ok(Kept(blocks)) && events == old(events) && memory == old(memory))
              && (bad.Some? ==> r == Err(Refusal(rules, disk, old(memory), hash, request, bad.value))
                                && events == old(events) + DropOf(rules, disk, request, bad.value))
    {
      var validated: seq<Block> := [];
      var todo := blocks;
      while todo != []
        invariant Valid() && memory == old(memory) && events == old(events)
        invariant Kept(blocks) == validated + Kept(todo)
        invariant FirstBad(rules, disk, Kept(blocks)) == FirstBad(rules, disk, Kept(todo))
        decreases |todo|
      {
        OneMoreKept(rules, disk, validated, todo);
        var kept := KeptBlock(todo[0]);
        todo := todo[1..];
        if kept.None? { continue; }
        var e := Validate(kept.value, request);
        if e.Some? { return Err(e.value); }
        validated := validated + [kept.value];
      }
      assert validated + [] == validated;
      return Ok(validated);
    }

    /** One agent's blocks, all or nothing: the first block that may not be written stops everything. */
    method ParseAndWriteFiles(blocks: seq<Block>, request: string) returns (r: Result<map<Path, string>>)
      requires Valid()
      modifies this
      ensures Valid()
      ensures r.Ok? <==> AllMayBeWritten(rules, old(disk), blocks)
      ensures r.Ok? ==> forall p :: HasLast(old(disk), blocks, disk, p)
      ensures r.Err? ==> disk == old(disk) && Names(rules, disk, blocks, r.error)
      ensures var bad := FirstBad(rules, old(disk), Kept(blocks));
              && (bad.None? ==> r == Ok(Overlay(Kept(blocks))) && disk == old(disk) + AsFiles(Overlay(Kept(blocks)))
                                && events == old(events) && memory == old(memory))
              && (bad.Some? ==>
                    disk == old(disk) && r == Err(Refusal(rules, old(disk), old(memory), hash, request, bad.value))
                                && events == old(events) + DropOf(rules, disk, request, bad.value))
    {
      var validated := ValidateBlocks(blocks, request);
      if validated.Err? { return Err(validated.error); }
      var files := WriteAll(validated.value);
      r := Ok(files);
      forall p { WrittenHasLast(old(disk), blocks, p); }
    }

    method WriteAll(validated: seq<Block>) returns (files: map<Path, string>)
      requires Valid()
      modifies this`disk
      ensures Valid()
      ensures files == Overlay(validated) && disk == old(disk) + AsFiles(files)
    {
      files := map[];
      assert validated[..0] == [];
      for k := 0 to |validated|
        invariant Valid()
        invariant files == Overlay(validated[..k]) && disk == old(disk) + AsFiles(files)
      {
        assert validated[..k + 1][..k] == validated[..k];
        var b := validated[k];
        OneMoreFile(old(disk), files, b);
        disk := disk[b.path := Readable(b.content)];
        files := files[b.path := b.content];
      }
      assert validated[..|validated|] == validated;
    }

    /** Every agent's blocks in turn, until one agent is refused; what landed before stays. */
    method WriteOutputs(outputs: seq<AgentOutput>, request: string) returns (r: Result<map<Path, string>>)
      requires Valid()
      modifies this
      ensures Valid()
      ensures exists n: nat :: FirstHaveLanded(old(disk), outputs, disk, n) &&
                if n == |outputs| then r.Ok? else r.Err? && Names(rules, disk, outputs[n].blocks, r.error)
      ensures r.Ok? ==> forall p :: Mirrors(r.value, outputs, p)
      ensures var n := Landed(rules, old(disk), outputs);
              && disk == old(disk) + AsFiles(Overlay(KeptAll(outputs[..n])))
              && (n == |outputs| ==> r == Ok(Overlay(KeptAll(outputs))) && events == old(events))
              && (n < |outputs| ==> Stopped(disk, old(memory), outputs[n], request, r, old(events), events))
    {
      LandedHaveLanded(disk, outputs, Landed(rules, disk, outputs));
      forall p ensures Mirrors(Overlay(KeptAll(outputs)), outputs, p) { OverlayIsLastOfAll(outputs, p); }
      ghost var n := Landed(rules, disk, outputs);
      r := WriteInTurn(outputs, request);
      if n < |outputs| { RefusalNames(rules, disk, old(memory), hash, request, outputs[n].blocks); }
    }

    method WriteInTurn(outputs: seq<AgentOutput>, request: string) returns (r: Result<map<Path, string>>)
      requires Valid()
      modifies this
      ensures Valid()
      ensures var n := Landed(rules, old(disk), outputs);
              && disk == old(disk) + AsFiles(Overlay(KeptAll(outputs[..n])))
              && (n == |outputs| ==> r == Ok(Overlay(KeptAll(outputs))) && events == old(events))
              && (n < |outputs| ==> Stopped(disk, old(memory), outputs[n], request, r, old(events), events))
    {
      var all: map<Path, string> := map[];
      var todo := outputs;
      ghost var done: seq<AgentOutput>, n := [], Landed(rules, disk, outputs);
      while todo != []
        invariant Valid() && memory == old(memory) && events == old(events)
        invariant outputs == done + todo && n == |done| + Landed(rules, disk, todo)
        invariant all == Overlay(KeptAll(done)) && disk == old(disk) + AsFiles(all)
        decreases |todo|
      {
        LandedFirst(rules, disk, todo);
        SplitHere(done, todo);
        OneMoreAgent(old(disk), done, todo[0]);
        var files := ParseAndWriteFiles(todo[0].blocks, request);
        if files.Err? {
          assert n == |done| && outputs[n] == todo[0] && outputs[..n] == done;
          return files;
        }
        done := done + [todo[0]];
        all := all + files.value;
        todo := todo[1..];
      }
      assert outputs == done && outputs[..|outputs|] == done;
      return Ok(all);
    }

    /** The answer and the history when one agent is refused. */
    ghost predicate Stopped(disk: map<Path, Content>, m: Memory, o: AgentOutput, request: string,
                            r: Result<map<Path, string>>, before: seq<Event>, after: seq<Event>)
    {
      var bad := FirstBad(rules, disk, Kept(o.blocks));
      && bad.Some?
      && r == Err(Refusal(rules, disk, m, hash, request, bad.value))
      && after == before + DropOf(rules, disk, request, bad.value)
    }

    /** Adds the listed files that are not there yet and can be read from disk. */
    method PickUp(files: map<Path, string>, bullets: seq<string>) returns (all: map<Path, string>)
      ensures forall p :: PicksUp(disk, files, all, p, ListedIn(bullets, p))
    {
      all := files;
      assert bullets[..0] == [];
      for k := 0 to |bullets|
        invariant forall p :: PicksUp(disk, files, all, p, ListedIn(bullets[..k], p))
      {
        ghost var was := all;
        var path := ListedPath(bullets[k]);
        if path.Some? && path.value !in all && CanRead(disk, path.value) {
          all := all[path.value := disk[path.value].text];
        }
        ghost var seen := bullets[..k + 1];
        assert seen == bullets[..k] + [bullets[k]];
        forall p ensures PicksUp(disk, files, all, p, ListedIn(seen, p)) {
          ListedInAppend(bullets[..k], bullets[k], p);
          assert PicksUp(disk, files, was, p, ListedIn(bullets[..k], p));
        }
      }
      assert bullets[..|bullets|] == bullets;
    }

    method PickUpAll(files: map<Path, string>, outputs: seq<AgentOutput>) returns (all: map<Path, string>)
      ensures forall p :: PicksUp(disk, files, all, p, ListedBy(outputs, p))
    {
      all := files;
      assert outputs[..0] == [];
      for k := 0 to |outputs|
        invariant forall p :: PicksUp(disk, files, all, p, ListedBy(outputs[..k], p))
      {
        ghost var was := all;
        all := PickUp(all, outputs[k].listed);
        ghost var seen := outputs[..k + 1];
        assert seen == outputs[..k] + [outputs[k]];
        forall p ensures PicksUp(disk, files, all, p, ListedBy(seen, p)) {
          ListedByAppend(outputs[..k], outputs[k], p);
          assert PicksUp(disk, files, was, p, ListedBy(outputs[..k], p));
          assert PicksUp(disk, was, all, p, ListedIn(outputs[k].listed, p));
        }
      }
      assert outputs[..|outputs|] == outputs;
    }

    /** Writes every agent's files, picks up the listed ones, drops guarded paths and runs the checks. However it
        ends, each path has the text of the last block that the agents before the refused one emitted for it.
        The answer holds the paths emitted, or listed and readable, that are not off limits, as they read on disk. */
    method MaterializeFiles(request: string, description: string, outputs: seq<AgentOutput>, checks: Checks)
      returns (r: Result<map<Path, string>>)
      requires Valid()
      modifies this
      ensures Valid()
      ensures exists n: nat :: FirstHaveLanded(old(disk), outputs, disk, n) &&
                if n < |outputs| then r.Err? && Names(rules, disk, outputs[n].blocks, r.error)
                else if r.Ok? then forall e :: !Fails(rules, old(disk), outputs, description, checks, e)
                else Fails(rules, old(disk), outputs, description, checks, r.error)
      ensures r.Ok? ==> Answers(rules, old(disk), outputs, description, disk, r.value)
      ensures var n := Landed(rules, old(disk), outputs);
              && disk == old(disk) + AsFiles(Overlay(KeptAll(outputs[..n])))
              && (n == |outputs| ==>
                    && r == Answer(rules, Bundle(disk, Overlay(KeptAll(outputs)), outputs), description, checks)
                    && events == old(events) + if r.Ok? then [Success(request)] else [])
              && (n < |outputs| ==> Stopped(disk, old(memory), outputs[n], request, r, old(events), events))
    {
      ghost var n := Landed(rules, disk, outputs);
      LandedHaveLanded(disk, outputs, n);
      r := WriteAndCheck(request, description, outputs, checks);
      if n == |outputs| {
        assert outputs[..n] == outputs;
        AnswerTells(rules, old(disk), outputs, description, checks, disk, r);
      } else {
        RefusalNames(rules, disk, old(memory), hash, request, outputs[n].blocks);
      }
    }

    method WriteAndCheck(request: string, description: string, outputs: seq<AgentOutput>, checks: Checks)
      returns (r: Result<map<Path, string>>)
      requires Valid()
      modifies this
      ensures Valid()
      ensures var n := Landed(rules, old(disk), outputs);
              && disk == old(disk) + AsFiles(Overlay(KeptAll(outputs[..n])))
              && (n == |outputs| ==>
                    && r == Answer(rules, Bundle(disk, Overlay(KeptAll(outputs)), outputs), description, checks)
                    && events == old(events) + if r.Ok? then [Success(request)] else [])
              && (n < |outputs| ==> Stopped(disk, old(memory), outputs[n], request, r, old(events), events))
    {
      var written := WriteInTurn(outputs, request);
      if written.Err? { return written; }
      assert outputs[..|outputs|] == outputs;
      var all := PickUpAll(written.value, outputs);
      assert all == Bundle(disk, written.value, outputs) by {
        BundleIsPickUp(disk, old(disk), written.value, outputs, all);
      }
      r := Filter(all, description, checks);
      if r.Ok? { Forget(request); }
    }

    method Filter(all: map<Path, string>, description: string, checks: Checks) returns (r: Result<map<Path, string>>)
      ensures r == Answer(rules, all, description, checks)
    {
      if all == map[] { return Err(NothingProduced); }
      var files := Allowed(rules, all, description);
      if files == map[] { return Err(AllGuarded); }
      if (exists p :: p in files && IsPython(p)) && !checks.lint { return Err(LintFailed); }
      if (exists p :: p in files && StartsWith(p, "frontend/")) && !checks.build { return Err(BuildFailed); }
      if (exists p :: p in files && IsTest(p)) && !checks.tests { return Err(TestsFailed); }
      return Ok(files);
    }

    /** A success clears the request's own rejections. */
    method Forget(request: string)
      requires Valid()
      modifies this`memory, this`events
      ensures Valid() && events == old(events) + [Success(request)]
    {
      MemoryAppend(events, Success(request), hash);
      memory := map k | k in memory && k.0 != request :: memory[k];
      events := events + [Success(request)];
    }
  }
}
