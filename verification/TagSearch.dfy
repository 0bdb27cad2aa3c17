/** Searching for tags, ignoring case: a tag is a text that has an angle bracket at each end and none
    in between, so it never straddles the border of a text that begins or ends with a tag. */
module TagSearch {
  import opened Common
  import opened Text

  predicate IsTag(tag: string) {
    && |tag| >= 2 && tag[0] == '<' && tag[|tag| - 1] == '>'
    && forall k :: 0 < k < |tag| - 1 ==> tag[k] != '<' && tag[k] != '>'
  }

  /** Without capitals, so that searching with lowered text can find it. */
  predicate Lowered(tag: string) {
    forall k :: 0 <= k < |tag| ==> LowerChar(tag[k]) == tag[k]
  }

  predicate TagAt(s: string, i: nat, tag: string) {
    i + |tag| <= |s| && forall k :: 0 <= k < |tag| ==> LowerChar(s[i + k]) == tag[k]
  }

  predicate NoTag(s: string, tag: string) {
    forall i :: 0 <= i < |s| ==> !TagAt(s, i, tag)
  }

  /** The first place at or after `i` where the tag stands. */
  function FirstFrom(s: string, i: nat, tag: string): (r: Option<nat>)
    requires |tag| > 0
    ensures r.Some? ==> i <= r.value && r.value + |tag| <= |s|
    decreases |s| - i
  {
    if i + |tag| > |s| then None
    else if TagAt(s, i, tag) then Some(i)
    else FirstFrom(s, i + 1, tag)
  }

  lemma {:induction false} FirstIsFirst(s: string, i: nat, tag: string)
    requires |tag| > 0
    ensures match FirstFrom(s, i, tag)
            case None => forall j :: i <= j ==> !TagAt(s, j, tag)
            case Some(f) => i <= f && TagAt(s, f, tag) && forall j :: i <= j < f ==> !TagAt(s, j, tag)
    decreases |s| - i
  {
    if i + |tag| <= |s| && !TagAt(s, i, tag) { FirstIsFirst(s, i + 1, tag); }
  }

  function First(s: string, tag: string): Option<nat>
    requires |tag| > 0
  {
    FirstFrom(s, 0, tag)
  }

  lemma FirstIs(s: string, tag: string, i: nat)
    requires |tag| > 0 && TagAt(s, i, tag) && forall j :: 0 <= j < i ==> !TagAt(s, j, tag)
    ensures First(s, tag) == Some(i)
  {
    FirstIsFirst(s, 0, tag);
  }

  /** Where two texts meet at an angle bracket no tag straddles the border. */
  predicate Border(a: string, b: string) {
    a == "" || b == "" || a[|a| - 1] == '>' || b[0] == '<'
  }

  lemma TagBrackets(s: string, i: nat, tag: string, j: nat)
    requires IsTag(tag) && TagAt(s, i, tag) && i <= j < i + |tag|
    ensures i < j ==> s[j] != '<'
    ensures j < i + |tag| - 1 ==> s[j] != '>'
  {
    assert LowerChar(s[i + (j - i)]) == tag[j - i];
  }

  lemma NoStraddle(a: string, b: string, tag: string, i: nat)
    requires IsTag(tag) && Border(a, b) && TagAt(a + b, i, tag)
    ensures i + |tag| <= |a| || i >= |a|
  {
    forall j | i <= j < i + |tag| ensures (i < j ==> (a + b)[j] != '<') && (j < i + |tag| - 1 ==> (a + b)[j] != '>') {
      TagBrackets(a + b, i, tag, j);
    }
    assert a != "" ==> (a + b)[|a| - 1] == a[|a| - 1];
    assert b != "" ==> (a + b)[|a|] == b[0];
  }

  lemma TagInLeft(a: string, b: string, tag: string, i: nat)
    requires i + |tag| <= |a|
    ensures TagAt(a + b, i, tag) <==> TagAt(a, i, tag)
  {
    forall k | 0 <= k < |tag| ensures LowerChar((a + b)[i + k]) == tag[k] <==> LowerChar(a[i + k]) == tag[k] {}
  }

  lemma TagInRight(a: string, b: string, tag: string, i: nat)
    requires i >= |a|
    ensures TagAt(a + b, i, tag) <==> TagAt(b, i - |a|, tag)
  {
    forall k | 0 <= k < |tag| && i + |tag| <= |a + b|
      ensures LowerChar((a + b)[i + k]) == tag[k] <==> LowerChar(b[i - |a| + k]) == tag[k]
    {
    }
  }

  lemma NoTagConcat(a: string, b: string, tag: string)
    requires IsTag(tag) && Border(a, b) && NoTag(a, tag) && NoTag(b, tag)
    ensures NoTag(a + b, tag)
  {
    forall i | 0 <= i < |a + b| ensures !TagAt(a + b, i, tag) {
      if TagAt(a + b, i, tag) {
        NoStraddle(a, b, tag, i);
        if i >= |a| { TagInRight(a, b, tag, i); } else { TagInLeft(a, b, tag, i); }
      }
    }
  }

  /** In `a + b` with `a` free of the tag and `b` beginning with it, the tag is first found after `a`. */
  lemma FirstAfter(a: string, b: string, tag: string)
    requires IsTag(tag) && NoTag(a, tag) && TagAt(b, 0, tag)
    ensures First(a + b, tag) == Some(|a|)
  {
    assert LowerChar(b[0 + 0]) == tag[0];
    assert b[0] == '<';
    TagInRight(a, b, tag, |a|);
    forall j | 0 <= j < |a| ensures !TagAt(a + b, j, tag) {
      if TagAt(a + b, j, tag) {
        NoStraddle(a, b, tag, j);
        TagInLeft(a, b, tag, j);
      }
    }
    FirstIs(a + b, tag, |a|);
  }

  /** Searching from `n` in `all`, which is `pre + t`, is searching from `i` in `t`. */
  lemma {:induction false} FirstFromShift(all: string, pre: string, t: string, n: nat, i: nat, tag: string)
    requires |tag| > 0 && all == pre + t && n == |pre| + i
    ensures FirstFrom(all, n, tag) == match FirstFrom(t, i, tag) case None => None case Some(f) => Some(|pre| + f)
    decreases |t| - i
  {
    if i + |tag| <= |t| {
      TagInRight(pre, t, tag, n);
      if !TagAt(t, i, tag) {
        FirstFromShift(all, pre, t, n + 1, i + 1, tag);
      }
    }
  }

  lemma TagAtFront(tag: string, rest: string)
    requires Lowered(tag)
    ensures TagAt(tag + rest, 0, tag)
  {
    forall k | 0 <= k < |tag| ensures LowerChar((tag + rest)[0 + k]) == tag[k] {
      assert (tag + rest)[k] == tag[k];
    }
  }

  /** Searching after `pre` in `pre + a + tag + rest`, with `a` free of the tag, finds it after `a`. */
  lemma FirstBehind(pre: string, a: string, tag: string, rest: string)
    requires IsTag(tag) && Lowered(tag) && NoTag(a, tag)
    ensures FirstFrom(pre + (a + (tag + rest)), |pre|, tag) == Some(|pre| + |a|)
  {
    FirstBehindIn(pre + (a + (tag + rest)), pre, |pre|, a, tag, rest);
  }

  lemma FirstBehindIn(all: string, pre: string, n: nat, a: string, tag: string, rest: string)
    requires IsTag(tag) && Lowered(tag) && NoTag(a, tag)
    requires all == pre + (a + (tag + rest)) && n == |pre|
    ensures FirstFrom(all, n, tag) == Some(n + |a|)
  {
    TagAtFront(tag, rest);
    FirstAfter(a, tag + rest, tag);
    FirstFromShift(all, pre, a + (tag + rest), n, 0, tag);
  }

  lemma NoBracketNoTag(s: string, tag: string)
    requires IsTag(tag) && '<' !in s
    ensures NoTag(s, tag)
  {
    forall i | 0 <= i < |s| ensures !TagAt(s, i, tag) {
      assert i > 0 ==> s[i] != '<';
    }
  }

  lemma TagEdges(s: string, i: nat, tag: string)
    requires IsTag(tag) && TagAt(s, i, tag)
    ensures s[i] == '<' && s[i + |tag| - 1] == '>'
  {
    assert LowerChar(s[i + 0]) == tag[0] && LowerChar(s[i + (|tag| - 1)]) == tag[|tag| - 1];
  }

  /** Text without an opening bracket in front adds no tag. */
  lemma NoTagBehind(a: string, b: string, tag: string)
    requires IsTag(tag) && '<' !in a && NoTag(b, tag)
    ensures NoTag(a + b, tag)
  {
    forall i | 0 <= i < |a + b| ensures !TagAt(a + b, i, tag) {
      if i >= |a| {
        TagInRight(a, b, tag, i);
      } else if TagAt(a + b, i, tag) {
        TagEdges(a + b, i, tag);
      }
    }
  }

  /** Text without a closing bracket at the end adds no tag. */
  lemma NoTagBefore(a: string, b: string, tag: string)
    requires IsTag(tag) && '>' !in b && NoTag(a, tag)
    ensures NoTag(a + b, tag)
  {
    forall i | 0 <= i < |a + b| ensures !TagAt(a + b, i, tag) {
      if i + |tag| <= |a| {
        TagInLeft(a, b, tag, i);
      } else if TagAt(a + b, i, tag) {
        TagEdges(a + b, i, tag);
      }
    }
  }

  /** A tag can only hold another one that it begins with. */
  lemma OtherTag(s: string, tag: string)
    requires IsTag(tag) && IsTag(s) && !TagAt(s, 0, tag)
    ensures NoTag(s, tag)
  {
    forall i | 0 <= i < |s| ensures !TagAt(s, i, tag) {
      assert i > 0 ==> s[i] != '<';
    }
  }

  // -------- trimming --------

  lemma {:induction false} TrimLeftPrefix(a: string, b: string)
    requires b != "" && !IsSpace(b[0])
    ensures TrimLeft(a + b) == TrimLeft(a) + b
    decreases |a|
  {
    if a == "" {
      assert a + b == b && TrimLeft(b) == b;
    } else {
      assert (a + b)[1..] == a[1..] + b;
      TrimLeftPrefix(a[1..], b);
    }
  }

  lemma {:induction false} TrimRightSuffix(a: string, b: string)
    requires a != "" && !IsSpace(a[|a| - 1])
    ensures TrimRight(a + b) == a + TrimRight(b)
    decreases |b|
  {
    if b == "" {
      assert a + b == a;
    } else {
      assert (a + b)[..|a + b| - 1] == a + b[..|b| - 1];
      TrimRightSuffix(a, b[..|b| - 1]);
    }
  }

  lemma {:induction false} TrimLeftEdge(s: string)
    ensures TrimLeft(s) != "" ==> !IsSpace(TrimLeft(s)[0])
    ensures exists n :: 0 <= n <= |s| && TrimLeft(s) == s[n..]
    decreases |s|
  {
    if s == "" || !IsSpace(s[0]) {
      assert s[0..] == s;
    } else {
      TrimLeftEdge(s[1..]);
      var n :| 0 <= n <= |s[1..]| && TrimLeft(s[1..]) == s[1..][n..];
      assert s[1..][n..] == s[n + 1..];
    }
  }

  lemma {:induction false} TrimRightEdge(s: string)
    ensures TrimRight(s) != "" ==> !IsSpace(TrimRight(s)[|TrimRight(s)| - 1])
    ensures exists n :: 0 <= n <= |s| && TrimRight(s) == s[..n]
    decreases |s|
  {
    if s == "" || !IsSpace(s[|s| - 1]) {
      assert s[..|s|] == s;
    } else {
      var t := s[..|s| - 1];
      TrimRightEdge(t);
      var n :| 0 <= n <= |t| && TrimRight(t) == t[..n];
      assert t[..n] == s[..n];
    }
  }

  /** Trimming from the left and from the right commute. */
  lemma {:induction false} TrimCommutes(s: string)
    ensures TrimLeft(TrimRight(s)) == TrimRight(TrimLeft(s))
    decreases |s|
  {
    if s == "" {
    } else if !IsSpace(s[0]) {
      TrimRightSuffix([s[0]], s[1..]);
      assert [s[0]] + s[1..] == s;
      assert TrimRight(s)[0] == s[0];
    } else if !IsSpace(s[|s| - 1]) {
      var a, b := s[..|s| - 1], [s[|s| - 1]];
      TrimLeftPrefix(a, b);
      assert a + b == s;
      assert TrimLeft(s)[|TrimLeft(s)| - 1] == s[|s| - 1];
    } else if |s| == 1 {
      assert s[..0] == "" && s[1..] == "";
    } else {
      var m := s[1..|s| - 1];
      var front, back := s[..|s| - 1], s[1..];
      assert back[..|back| - 1] == m && front[1..] == m;
      TrimCommutes(front);
      TrimCommutes(back);
      assert TrimRight(s) == TrimRight(front) && TrimLeft(s) == TrimLeft(back);
      assert TrimRight(back) == TrimRight(m) && TrimLeft(front) == TrimLeft(m);
      assert TrimLeft(TrimRight(s)) == TrimRight(TrimLeft(m));
      assert TrimRight(TrimLeft(s)) == TrimLeft(TrimRight(m));
      TrimCommutes(m);
    }
  }

  /** Trimming at either end first does not change the trimmed text, and a trimmed text stays. */
  lemma TrimAgain(s: string)
    ensures Trim(TrimLeft(s)) == Trim(s) && Trim(TrimRight(s)) == Trim(s) && Trim(Trim(s)) == Trim(s)
    ensures Trim(s) != "" ==> !IsSpace(Trim(s)[0]) && !IsSpace(Trim(s)[|Trim(s)| - 1])
  {
    TrimLeftEdge(s);
    TrimRightEdge(s);
    TrimCommutes(s);
    TrimLeftEdge(TrimRight(s));
    TrimRightEdge(TrimLeft(s));
    TrimCommutes(TrimRight(s));
  }

  lemma NoTagInSuffix(s: string, n: nat, tag: string)
    requires NoTag(s, tag) && n <= |s|
    ensures NoTag(s[n..], tag)
  {
    forall i | 0 <= i < |s[n..]| ensures !TagAt(s[n..], i, tag) {
      assert s == s[..n] + s[n..];
      TagInRight(s[..n], s[n..], tag, n + i);
    }
  }

  lemma NoTagInPrefix(s: string, n: nat, tag: string)
    requires NoTag(s, tag) && n <= |s|
    ensures NoTag(s[..n], tag)
  {
    forall i | 0 <= i < |s[..n]| ensures !TagAt(s[..n], i, tag) {
      assert s == s[..n] + s[n..];
      if i + |tag| <= n { TagInLeft(s[..n], s[n..], tag, i); }
    }
  }

  /** Trimming invents no tag. */
  lemma TrimKeepsNoTag(s: string, tag: string)
    requires NoTag(s, tag)
    ensures NoTag(TrimLeft(s), tag) && NoTag(TrimRight(s), tag)
  {
    TrimLeftEdge(s);
    TrimRightEdge(s);
    var m :| 0 <= m <= |s| && TrimLeft(s) == s[m..];
    NoTagInSuffix(s, m, tag);
    var n :| 0 <= n <= |s| && TrimRight(s) == s[..n];
    NoTagInPrefix(s, n, tag);
  }
}
