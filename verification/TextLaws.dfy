/** What the text functions mean. */
module TextLaws {
  import opened Common
  import opened Text

  /** White space and nothing else. */
  predicate Blank(s: string) {
    forall i :: 0 <= i < |s| ==> IsSpace(s[i])
  }

  lemma BlankConcat(a: string, b: string)
    requires Blank(a) && Blank(b)
    ensures Blank(a + b)
  {
  }

  lemma {:induction false} TrimLeftCuts(s: string) returns (a: string)
    ensures s == a + TrimLeft(s) && Blank(a)
    ensures TrimLeft(s) != "" ==> !IsSpace(TrimLeft(s)[0])
  {
    if s == "" || !IsSpace(s[0]) {
      a := "";
    } else {
      var b := TrimLeftCuts(s[1..]);
      a := [s[0]] + b;
      assert s == [s[0]] + s[1..];
      BlankConcat([s[0]], b);
      Assoc([s[0]], b, TrimLeft(s));
    }
  }

  lemma {:induction false} TrimRightCuts(s: string) returns (b: string)
    ensures s == TrimRight(s) + b && Blank(b)
    ensures TrimRight(s) != "" ==> !IsSpace(TrimRight(s)[|TrimRight(s)| - 1])
  {
    if s == "" || !IsSpace(s[|s| - 1]) {
      b := "";
    } else {
      var a := TrimRightCuts(s[..|s| - 1]);
      b := a + [s[|s| - 1]];
      assert s == s[..|s| - 1] + [s[|s| - 1]];
      BlankConcat(a, [s[|s| - 1]]);
      Assoc(TrimRight(s), a, [s[|s| - 1]]);
    }
  }

  lemma SameStart(a: string, b: string)
    ensures a != "" ==> (a + b)[0] == a[0]
  {
  }

  /** Trimming cuts white space off at both ends and nothing else, and leaves none there. */
  lemma TrimCuts(s: string) returns (a: string, b: string)
    ensures s == a + Trim(s) + b && Blank(a) && Blank(b)
    ensures Trim(s) != "" ==> !IsSpace(Trim(s)[0]) && !IsSpace(Trim(s)[|Trim(s)| - 1])
  {
    var t := TrimLeft(s);
    a := TrimLeftCuts(s);
    b := TrimRightCuts(t);
    Assoc(a, TrimRight(t), b);
    SameStart(TrimRight(t), b);
  }

  lemma InFrontOrLast(front: string, x: char, c: char)
    ensures c in front + [x] <==> c in front || c == x
  {
  }

  /** What follows the last occurrence, or everything if there is none. */
  lemma {:induction false} AfterLastIs(s: string, c: char) returns (a: string)
    ensures c !in AfterLast(s, c)
    ensures c in s ==> s == a + ([c] + AfterLast(s, c))
    ensures c !in s ==> AfterLast(s, c) == s
    decreases |s|
  {
    a := "";
    if s != "" {
      var front, x := s[..|s| - 1], s[|s| - 1];
      assert s == front + [x];
      if x == c {
        a := front;
      } else {
        a := AfterLastIs(front, c);
        InFrontOrLast(front, x, c);
        InFrontOrLast(AfterLast(front, c), x, c);
        Assoc([c], AfterLast(front, c), [x]);
        Assoc(a, [c] + AfterLast(front, c), [x]);
      }
    }
  }

  /** How often a character occurs. */
  lemma {:induction false} CountCharIs(s: string, c: char)
    ensures CountChar(s, c) == multiset(s)[c]
  {
    if s != "" {
      CountCharIs(s[1..], c);
      assert s == [s[0]] + s[1..];
    }
  }

  /** The text stands somewhere in the other exactly if the other can be cut around it. */
  lemma ContainsIff(s: string, sub: string)
    ensures Contains(s, sub) <==> exists a, b :: s == a + sub + b
  {
    if Contains(s, sub) {
      var i :| 0 <= i <= |s| && MatchAt(s, i, sub);
      assert s == s[..i] + sub + s[i + |sub|..];
    }
    if a, b :| s == a + sub + b {
      assert s[|a|..|a| + |sub|] == sub;
      assert MatchAt(s, |a|, sub);
    }
  }
}
