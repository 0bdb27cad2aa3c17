/** How far a file can shrink over any number of materialisations. */
module CodeWriterShrink {
  import opened CodeWriterModel

  type Disk = map<Path, Content>

  /** One agent's output on the disk: all of it or nothing. */
  function Land(rules: Rules, disk: Disk, o: AgentOutput): Disk {
    if FirstBad(rules, disk, Kept(o.blocks)).None? then disk + AsFiles(Overlay(Kept(o.blocks))) else disk
  }

  function LandAll(rules: Rules, disk: Disk, outs: seq<AgentOutput>): Disk
    decreases |outs|
  {
    if outs == [] then disk else LandAll(rules, Land(rules, disk, outs[0]), outs[1..])
  }

  /** The output lands and writes the path. However many blocks it has for it, that is one overwrite: each
      block was judged against the disk before it, and the last one stays. */
  predicate Overwrites(rules: Rules, disk: Disk, o: AgentOutput, p: Path) {
    FirstBad(rules, disk, Kept(o.blocks)).None? && p in Overlay(Kept(o.blocks))
  }

  function CountOverwrites(rules: Rules, disk: Disk, outs: seq<AgentOutput>, p: Path): nat
    decreases |outs|
  {
    if outs == [] then 0
    else
      var rest := CountOverwrites(rules, Land(rules, disk, outs[0]), outs[1..], p);
      if Overwrites(rules, disk, outs[0], p) then 1 + rest else rest
  }

  /** The path can be read all along, and has twenty lines or more whenever it is overwritten. */
  ghost predicate LongEnough(rules: Rules, disk: Disk, outs: seq<AgentOutput>, p: Path)
    decreases |outs|
  {
    CanRead(disk, p) &&
    (outs != [] ==>
       (Overwrites(rules, disk, outs[0], p) ==> Lines(disk[p].text) >= MIN_LINES_FOR_DROP_CHECK)
       && LongEnough(rules, Land(rules, disk, outs[0]), outs[1..], p))
  }

  lemma {:induction false} OverlayFrom(blocks: seq<Block>, p: Path) returns (i: nat)
    requires p in Overlay(blocks)
    ensures i < |blocks| && blocks[i].path == p && blocks[i].content == Overlay(blocks)[p]
    decreases |blocks|
  {
    var k := |blocks| - 1;
    if blocks[k].path == p { i := k; } else { i := OverlayFrom(blocks[..k], p); }
  }

  /** An accepted overwrite keeps more than half the lines. */
  lemma OverwriteHalves(rules: Rules, disk: Disk, o: AgentOutput, p: Path)
    requires CanRead(disk, p) && Overwrites(rules, disk, o, p) && Basename(p) !in rules.exempt
    requires Lines(disk[p].text) >= MIN_LINES_FOR_DROP_CHECK
    ensures CanRead(Land(rules, disk, o), p) && 2 * Lines(Land(rules, disk, o)[p].text) > Lines(disk[p].text)
  {
    var kept := Kept(o.blocks);
    var i := OverlayFrom(kept, p);
    assert BlockOk(rules, disk, kept[i]);
    KeepsMoreThanHalf(rules, p, disk[p].text, kept[i].content);
  }

  lemma OtherwiseSame(rules: Rules, disk: Disk, o: AgentOutput, p: Path)
    requires p in disk && !Overwrites(rules, disk, o, p)
    ensures p in Land(rules, disk, o) && Land(rules, disk, o)[p] == disk[p]
  {
  }

  lemma HalvedFirst(last: nat, power: nat, middle: nat, first: nat)
    requires power >= 1 && last * power > middle && 2 * middle > first
    ensures last * (2 * power) > first
  {
    assert last * (2 * power) == 2 * (last * power);
  }

  /** After k overwrites of a text of `first` lines more than a 2^k-th is left; after none, the same. */
  predicate Bounded(k: nat, was: Content, now: Content)
    requires was.Readable?
  {
    now.Readable? && if k == 0 then now == was else MoreThanPow2th(Lines(now.text), k, Lines(was.text))
  }

  lemma BoundedOnceMore(k: nat, was: Content, middle: Content, now: Content)
    requires was.Readable? && middle.Readable? && Bounded(k, middle, now) && 2 * Lines(middle.text) > Lines(was.text)
    ensures Bounded(k + 1, was, now)
  {
    if k == 0 {
      assert Pow2(1) == 2 * Pow2(0);
    } else {
      HalvedFirst(Lines(now.text), Pow2(k), Lines(middle.text), Lines(was.text));
    }
  }

  /** For all outputs of all agents over any number of materialisations: k overwrites of a file that is not
      exempt, each of at least twenty lines, leave more than a 2^k-th of its lines, and none leaves it
      as it was. */
  lemma {:induction false} ShrinkBoundOverRuns(rules: Rules, disk: Disk, outs: seq<AgentOutput>, p: Path)
    requires LongEnough(rules, disk, outs, p) && Basename(p) !in rules.exempt
    ensures p in LandAll(rules, disk, outs)
    ensures Bounded(CountOverwrites(rules, disk, outs, p), disk[p], LandAll(rules, disk, outs)[p])
    decreases |outs|
  {
    if outs != [] {
      var m := Land(rules, disk, outs[0]);
      var k := CountOverwrites(rules, m, outs[1..], p);
      var z := LandAll(rules, m, outs[1..]);
      ShrinkBoundOverRuns(rules, m, outs[1..], p);
      if Overwrites(rules, disk, outs[0], p) {
        OverwriteHalves(rules, disk, outs[0], p);
        BoundedOnceMore(k, disk[p], m[p], z[p]);
      } else {
        OtherwiseSame(rules, disk, outs[0], p);
      }
    }
  }

  // -------- what a materialisation does to the disk --------

  lemma {:induction false} LandAllAppend(rules: Rules, disk: Disk, outs: seq<AgentOutput>, o: AgentOutput)
    ensures LandAll(rules, disk, outs + [o]) == Land(rules, LandAll(rules, disk, outs), o)
    decreases |outs|
  {
    if outs == [] {
      assert outs + [o] == [o] && [o][1..] == [];
    } else {
      assert (outs + [o])[0] == outs[0] && (outs + [o])[1..] == outs[1..] + [o];
      LandAllAppend(rules, Land(rules, disk, outs[0]), outs[1..], o);
    }
  }

  ghost predicate IsOverlay(rules: Rules, disk: Disk, outs: seq<AgentOutput>) {
    LandAll(rules, disk, outs) == disk + AsFiles(Overlay(KeptAll(outs)))
  }

  lemma OneMoreLands(rules: Rules, disk: Disk, done: seq<AgentOutput>, o: AgentOutput)
    requires IsOverlay(rules, disk, done) && FirstBad(rules, LandAll(rules, disk, done), Kept(o.blocks)).None?
    ensures IsOverlay(rules, disk, done + [o])
    ensures LandAll(rules, disk, done + [o]) == LandAll(rules, disk, done) + AsFiles(Overlay(Kept(o.blocks)))
  {
    LandAllAppend(rules, disk, done, o);
    OneMoreAgent(disk, done, o);
  }

  lemma {:induction false} LandedFromHere(rules: Rules, disk: Disk, done: seq<AgentOutput>, now: Disk,
                                          todo: seq<AgentOutput>, n: nat, all: seq<AgentOutput>)
    requires IsOverlay(rules, disk, done) && now == LandAll(rules, disk, done) && n == Landed(rules, now, todo)
    requires all == done + todo[..n]
    ensures IsOverlay(rules, disk, all)
    decreases |todo|
  {
    if n == 0 {
      assert all == done;
    } else {
      LandedFirst(rules, now, todo);
      OneMoreLands(rules, disk, done, todo[0]);
      TakeOneMore(done, todo, n);
      LandedFromHere(rules, disk, done + [todo[0]], now + AsFiles(Overlay(Kept(todo[0].blocks))), todo[1..], n - 1,
        all);
    }
  }

  lemma TakeOneMore<T>(done: seq<T>, todo: seq<T>, n: nat)
    requires 0 < n <= |todo|
    ensures done + todo[..n] == done + [todo[0]] + todo[1..][..n - 1]
  {
  }

  /** The outputs that land are the disk overlaid with all their blocks, which is what one materialisation
      leaves; the disk after several is that of all their landed outputs in a row. */
  lemma LandedIsOverlay(rules: Rules, disk: Disk, outs: seq<AgentOutput>)
    ensures LandAll(rules, disk, outs[..Landed(rules, disk, outs)])
         == disk + AsFiles(Overlay(KeptAll(outs[..Landed(rules, disk, outs)])))
  {
    assert disk + AsFiles(Overlay(KeptAll([]))) == disk;
    assert IsOverlay(rules, disk, []);
    var n := Landed(rules, disk, outs);
    assert [] + outs[..n] == outs[..n];
    LandedFromHere(rules, disk, [], disk, outs, n, outs[..n]);
  }
}
