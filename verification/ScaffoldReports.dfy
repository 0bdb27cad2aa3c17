/** What substitution does to a text, and what a scaffolding run reports for every place where it can stop. */
module ScaffoldReports {
  import opened Common
  import opened Text
  import opened Scaffold

  // -------- substitution --------

  /** The first place where `what` stands in the text. */
  predicate StandsFirstAt(text: string, what: string, k: nat) {
    MatchAt(text, k, what) && forall i :: 0 <= i < k ==> !MatchAt(text, i, what)
  }

  lemma MatchBehind(text: string, i: nat, what: string)
    requires text != ""
    ensures MatchAt(text[1..], i, what) <==> MatchAt(text, i + 1, what)
  {
    if i + 1 + |what| <= |text| { assert text[1..][i..i + |what|] == text[i + 1..i + 1 + |what|]; }
  }

  lemma MatchInFront(text: string, what: string)
    ensures MatchAt(text, 0, what) <==> |what| <= |text| && text[..|what|] == what
  {
  }

  /** A text in which the token does not stand is left as it is. */
  lemma {:induction false} ReplacesNothingElse(text: string, what: string, value: string)
    requires what != "" && forall i :: 0 <= i <= |text| ==> !MatchAt(text, i, what)
    ensures Replace(text, what, value) == text
    decreases |text|
  {
    MatchInFront(text, what);
    assert !MatchAt(text, 0, what);
    if |text| >= |what| {
      forall i | 0 <= i <= |text[1..]| ensures !MatchAt(text[1..], i, what) {
        MatchBehind(text, i, what);
        assert !MatchAt(text, i + 1, what);
      }
      ReplacesNothingElse(text[1..], what, value);
    }
  }

  /** Otherwise the first place where it stands is replaced by the value, what is before stays, and the rest is
      treated alike: the value itself is not searched again. */
  lemma {:induction false} ReplacesTheFirst(text: string, what: string, value: string, k: nat)
    requires what != "" && StandsFirstAt(text, what, k)
    ensures k + |what| <= |text|
    ensures Replace(text, what, value) == text[..k] + value + Replace(text[k + |what|..], what, value)
    decreases |text|
  {
    MatchInFront(text, what);
    var rest := Replace(text[k + |what|..], what, value);
    if k == 0 {
      assert text[..0] + value + rest == value + rest;
    } else {
      assert !MatchAt(text, 0, what);
      MatchBehind(text, k - 1, what);
      forall i | 0 <= i < k - 1 ensures !MatchAt(text[1..], i, what) {
        MatchBehind(text, i, what);
        assert !MatchAt(text, i + 1, what);
      }
      ReplacesTheFirst(text[1..], what, value, k - 1);
      assert text[1..][k - 1 + |what|..] == text[k + |what|..];
      assert [text[0]] + text[1..][..k - 1] == text[..k];
      assert [text[0]] + (text[1..][..k - 1] + value + rest) == text[..k] + value + rest;
    }
  }

  /** Tokens are substituted one after the other. */
  lemma {:induction false} SubstitutesInOrder(text: string, a: seq<Token>, b: seq<Token>)
    ensures Substitute(text, a + b) == Substitute(Substitute(text, a), b)
    decreases |a|
  {
    if a == [] {
      assert a + b == b;
    } else {
      assert (a + b)[1..] == a[1..] + b;
      SubstitutesInOrder(Replace(text, "{{" + a[0].key + "}}", a[0].value), a[1..], b);
    }
  }

  lemma OneToken(text: string, t: Token, what: string)
    requires what == "{{" + t.key + "}}"
    ensures Substitute(text, [t]) == Replace(text, what, t.value)
  {
    assert [t][1..] == [];
  }

  /** A token stands in double braces. */
  lemma SubstitutesOne(text: string, t: Token, what: string, k: nat)
    requires what == "{{" + t.key + "}}" && StandsFirstAt(text, what, k)
    ensures k + |what| <= |text|
    ensures Substitute(text, [t]) == text[..k] + t.value + Substitute(text[k + |what|..], [t])
  {
    ReplacesTheFirst(text, what, t.value, k);
    OneToken(text, t, what);
    OneToken(text[k + |what|..], t, what);
  }

  /** Text without double braces is copied. */
  lemma {:induction false} SubstitutesOnlyTokens(text: string, tokens: seq<Token>)
    requires forall i :: 0 <= i <= |text| ==> !MatchAt(text, i, "{{")
    ensures Substitute(text, tokens) == text
    decreases |tokens|
  {
    if tokens != [] {
      var what := "{{" + tokens[0].key + "}}";
      forall i | 0 <= i <= |text| ensures !MatchAt(text, i, what) {
        assert what[..2] == "{{" && !MatchAt(text, i, "{{");
        assert i + |what| <= |text| ==> text[i..i + |what|][..2] == text[i..i + 2];
      }
      ReplacesNothingElse(text, what, tokens[0].value);
      SubstitutesOnlyTokens(text, tokens[1..]);
    }
  }

  // -------- where a run stops --------

  /** The file is there, or it can be written. */
  predicate Passable(root: Root, f: Template, fate: Path -> Fate) {
    f.path in root || fate(f.path).Written?
  }

  /** The first file at which the run cannot go on. */
  predicate StopsAt(root: Root, files: seq<Template>, fate: Path -> Fate, k: nat) {
    k < |files| && !Passable(root, files[k], fate) && forall i :: 0 <= i < k ==> Passable(root, files[i], fate)
  }

  predicate Reason(f: Fate, s: Stop) {
    match f
    case Unreadable => s == ReadError
    case WriteFailed(_) => s == WriteError
    case Killed(_) => s == WasKilled
    case Written => false
  }

  /** What the stopped write leaves in the place of the file. */
  predicate LeftBehind(f: Fate, root: Root, p: Path) {
    match f
    case WriteFailed(left) => if left.Some? then p in root && root[p] == left.value else p !in root
    case Killed(left) => if left.Some? then p in root && root[p] == left.value else p !in root
    case _ => p !in root
  }

  /** The first `k` files are dealt with: what was there is skipped, the others are written, in order. */
  ghost predicate DealtWith(root: Root, files: seq<Template>, k: nat, o: Outcome)
    requires k <= |files|
  {
    o.written == Missing(root, files[..k]) && o.skipped == Present(root, files[..k])
  }

  function Missing(root: Root, files: seq<Template>): seq<Path> {
    if files == [] then []
    else (if files[0].path in root then [] else [files[0].path]) + Missing(root, files[1..])
  }

  function Present(root: Root, files: seq<Template>): seq<Path> {
    if files == [] then []
    else (if files[0].path in root then [files[0].path] else []) + Present(root, files[1..])
  }

  lemma {:induction false} WritingOneChangesNoOther(root: Root, p: Path, c: Content, files: seq<Template>)
    requires p !in Paths(files)
    ensures Missing(root[p := c], files) == Missing(root, files) && Present(root[p := c], files) == Present(root, files)
  {
    if files != [] {
      assert files[0] in files && files[0].path in Paths(files);
      assert forall f :: f in files[1..] ==> f in files;
      WritingOneChangesNoOther(root, p, c, files[1..]);
    }
  }

  lemma PassableBehind(root: Root, p: Path, c: Content, files: seq<Template>, fate: Path -> Fate)
    requires p !in Paths(files)
    ensures forall i :: 0 <= i < |files| ==>
              (Passable(root[p := c], files[i], fate) <==> Passable(root, files[i], fate))
  {
    forall i | 0 <= i < |files| ensures Passable(root[p := c], files[i], fate) <==> Passable(root, files[i], fate) {
      assert files[i] in files && files[i].path in Paths(files);
    }
  }

  /** A run without a stop: every file can be passed, and each one was skipped if it was there and written if not. */
  lemma {:induction false} GoesThrough(root: Root, files: seq<Template>, tokens: seq<Token>, fate: Path -> Fate)
    requires DistinctPaths(files) && forall i :: 0 <= i < |files| ==> Passable(root, files[i], fate)
    ensures var o := Run(root, files, tokens, fate).outcome;
            o.stop == None && o.written == Missing(root, files) && o.skipped == Present(root, files)
    decreases |files|
  {
    if files != [] {
      var p, rest := files[0].path, files[1..];
      PathsOfRest(files);
      assert Passable(root, files[0], fate);
      assert forall i :: 0 <= i < |rest| ==> rest[i] == files[i + 1];
      if p in root {
        GoesThrough(root, rest, tokens, fate);
      } else {
        var c := Render(files[0].raw, tokens);
        PassableBehind(root, p, c, rest, fate);
        WritingOneChangesNoOther(root, p, c, rest);
        GoesThrough(root[p := c], rest, tokens, fate);
      }
    }
  }

  /** A run stops at the first file that it cannot pass, reports why, and has dealt with the files before it. */
  lemma {:induction false} StopsAtTheFirst(root: Root, files: seq<Template>, tokens: seq<Token>, fate: Path -> Fate,
                                           k: nat)
    requires DistinctPaths(files) && StopsAt(root, files, fate, k)
    ensures var a := Run(root, files, tokens, fate);
            && a.outcome.stop.Some? && Reason(fate(files[k].path), a.outcome.stop.value)
            && LeftBehind(fate(files[k].path), a.root, files[k].path)
            && DealtWith(root, files, k, a.outcome)
    decreases |files|
  {
    var p, rest := files[0].path, files[1..];
    if k == 0 {
      assert files[..0] == [];
    } else {
      PathsOfRest(files);
      assert Passable(root, files[0], fate);
      assert rest[k - 1] == files[k];
      assert forall i :: 0 <= i < k - 1 ==> rest[i] == files[i + 1];
      assert files[..k][1..] == rest[..k - 1];
      if p in root {
        StopsAtTheFirst(root, rest, tokens, fate, k - 1);
      } else {
        var c := Render(files[0].raw, tokens);
        PassableBehind(root, p, c, rest, fate);
        PrefixPaths(rest, k - 1);
        WritingOneChangesNoOther(root, p, c, rest[..k - 1]);
        StopsAtTheFirst(root[p := c], rest, tokens, fate, k - 1);
      }
    }
  }

  lemma PrefixPaths(files: seq<Template>, k: nat)
    requires k <= |files|
    ensures Paths(files[..k]) <= Paths(files)
  {
    assert forall f :: f in files[..k] ==> f in files;
  }

  /** So a run succeeds exactly if every file of the template is there or can be written. */
  lemma SucceedsIffPassable(root: Root, files: seq<Template>, tokens: seq<Token>, fate: Path -> Fate)
    requires DistinctPaths(files)
    ensures Run(root, files, tokens, fate).outcome.stop.None? <==>
              forall i :: 0 <= i < |files| ==> Passable(root, files[i], fate)
  {
    if forall i :: 0 <= i < |files| ==> Passable(root, files[i], fate) {
      GoesThrough(root, files, tokens, fate);
    } else {
      var k := FirstImpassable(root, files, fate);
      StopsAtTheFirst(root, files, tokens, fate, k);
    }
  }

  lemma {:induction false} FirstImpassable(root: Root, files: seq<Template>, fate: Path -> Fate) returns (k: nat)
    requires exists i :: 0 <= i < |files| && !Passable(root, files[i], fate)
    ensures StopsAt(root, files, fate, k)
  {
    if !Passable(root, files[0], fate) {
      k := 0;
    } else {
      var i :| 0 <= i < |files| && !Passable(root, files[i], fate);
      assert files[1..][i - 1] == files[i];
      var j := FirstImpassable(root, files[1..], fate);
      k := j + 1;
      assert forall i :: 0 < i < k ==> files[i] == files[1..][i - 1];
    }
  }
}
