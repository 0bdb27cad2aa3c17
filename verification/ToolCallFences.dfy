/** Fences: arguments written as a fenced object instead of between tags are found again, and a fence around
    the whole answer is dropped. */
module ToolCallFences {
  import opened Common
  import opened Text
  import opened TagSearch
  import opened ToolCalls

  function Fenced(obj: string): string {
    "```json\n" + obj + "\n```"
  }

  /** An object text: braces at both ends and no backtick. */
  predicate IsObjectText(obj: string) {
    |obj| >= 2 && obj[0] == '{' && obj[|obj| - 1] == '}' && '`' !in obj
  }

  lemma {:induction false} TrimLeftStaysIn(a: string, b: string)
    requires a != "" && !IsSpace(a[|a| - 1])
    ensures TrimLeft(a + b) != "" && TrimLeft(a + b)[0] in a
    decreases |a|
  {
    if IsSpace(a[0]) {
      assert (a + b)[1..] == a[1..] + b;
      TrimLeftStaysIn(a[1..], b);
    } else {
      assert (a + b)[0] == a[0];
    }
  }

  lemma {:induction false} EndsAtTheLastBrace(obj: string, i: nat)
    requires IsObjectText(obj) && i < |obj|
    ensures ObjectEnd(obj + "\n```", i) == Some(|obj|)
    decreases |obj| - i
  {
    var s := obj + "\n```";
    if i == |obj| - 1 {
      assert s[i + 1..] == "\n```";
      assert "\n```"[1..] == "```";
      assert TrimLeft("\n```") == "```";
    } else {
      assert s[i + 1..] == obj[i + 1..] + "\n```";
      TrimLeftStaysIn(obj[i + 1..], "\n```");
      var t := TrimLeft(s[i + 1..]);
      assert t[0] in obj;
      assert !StartsWith(t, "```");
      EndsAtTheLastBrace(obj, i + 1);
    }
  }

  lemma FenceOpens(obj: string)
    requires IsObjectText(obj)
    ensures FencedObject(Fenced(obj)) == Some(obj)
  {
    var s := Fenced(obj);
    var body := obj + "\n```";
    assert s[..3] == "```" && s[3..] == "json\n" + body;
    assert ("json\n" + body)[..4] == "json" && ("json\n" + body)[4..] == "\n" + body;
    assert Lower("json") == "json";
    assert ("\n" + body)[1..] == body && body[0] == '{';
    assert TrimLeft("\n" + body) == body;
    EndsAtTheLastBrace(obj, 0);
    assert body[..|obj|] == obj;
  }

  /** No fence begins in the text. */
  predicate NoFence(s: string) {
    forall i :: 0 <= i < |s| ==> !MatchAt(s, i, "```")
  }

  lemma NoFenceTail(s: string)
    requires s != "" && NoFence(s)
    ensures NoFence(s[1..]) && !StartsWith(s, "```")
  {
    forall i | 0 <= i < |s[1..]| ensures !MatchAt(s[1..], i, "```") {
      assert !MatchAt(s, i + 1, "```");
      if i + 3 <= |s[1..]| { assert s[1..][i..i + 3] == s[i + 1..i + 4]; }
    }
    assert !MatchAt(s, 0, "```");
  }

  /** Without a fence no object is found. */
  lemma {:induction false} NoFenceNoObject(s: string)
    requires NoFence(s)
    ensures FencedObject(s) == None
    decreases |s|
  {
    if s != "" {
      NoFenceTail(s);
      assert TrimLeft("") == "";
      NoFenceNoObject(s[1..]);
    }
  }

  lemma FenceIsTicks(s: string, i: nat)
    requires MatchAt(s, i, "```")
    ensures s[i] == '`' && s[i + 1] == '`' && s[i + 2] == '`'
  {
    assert s[i..i + 3][0] == '`' && s[i..i + 3][1] == '`' && s[i..i + 3][2] == '`';
  }

  /** Two texts that do not meet at backticks have no fence across. */
  lemma NoFenceConcat(a: string, b: string)
    requires NoFence(a) && NoFence(b) && (a == "" || a[|a| - 1] != '`' || b == "" || b[0] != '`')
    ensures NoFence(a + b)
  {
    var s := a + b;
    forall i | 0 <= i < |s| ensures !MatchAt(s, i, "```") {
      if i + 3 <= |a| {
        assert a[i..i + 3] == s[i..i + 3] && !MatchAt(a, i, "```");
      } else if i >= |a| {
        assert i + 3 <= |s| ==> b[i - |a|..i - |a| + 3] == s[i..i + 3];
        assert !MatchAt(b, i - |a|, "```");
      } else if MatchAt(s, i, "```") {
        FenceIsTicks(s, i);
      }
    }
  }

  lemma NoTickNoFence(s: string)
    requires '`' !in s
    ensures NoFence(s)
  {
    forall i | 0 <= i < |s| ensures !MatchAt(s, i, "```") {
      if MatchAt(s, i, "```") { FenceIsTicks(s, i); }
    }
  }

  lemma NoFenceInFront(before: string, rest: string)
    requires before != "" && !StartsWith(before, "```") && before[|before| - 1] != '`'
    ensures !StartsWith(before + rest, "```")
  {
    var s := before + rest;
    if |before| >= 3 {
      assert s[..3] == before[..3];
    } else {
      assert s[|before| - 1] != "```"[|before| - 1];
    }
  }

  /** After any text without a fence that does not end in a backtick the fenced object is found, whole. */
  lemma {:induction false} FencedObjectIsFound(before: string, obj: string)
    requires IsObjectText(obj) && NoFence(before) && (before != "" ==> before[|before| - 1] != '`')
    ensures FencedObject(before + Fenced(obj)) == Some(obj)
    decreases |before|
  {
    var s := before + Fenced(obj);
    if before == "" {
      assert s == Fenced(obj);
      FenceOpens(obj);
    } else {
      NoFenceTail(before);
      NoFenceInFront(before, Fenced(obj));
      assert s[1..] == before[1..] + Fenced(obj);
      FencedObjectIsFound(before[1..], obj);
    }
  }

  // -------- fences around the whole answer --------

  /** The languages that an opening fence may name. */
  predicate IsLanguage(lang: string) {
    lang == "" || lang == "json" || lang == "text" || lang == "xml"
  }

  lemma LanguageIsSkipped(lang: string, rest: string)
    requires IsLanguage(lang)
    ensures LanguageLength(lang + "\n" + rest) == |lang| && (lang + "\n" + rest)[|lang|..] == "\n" + rest
  {
    var s := lang + "\n" + rest;
    if lang == "" {
      assert s[0] == '\n';
    } else if lang == "xml" {
      assert s[..3] == "xml" && s[3] == '\n';
      assert Lower("xml") == "xml";
      assert |s| >= 4 ==> Lower(s[..4])[3] == '\n';
    } else {
      assert s[..4] == lang;
      assert Lower(lang) == lang;
    }
  }

  lemma OpeningIsDropped(lang: string, rest: string)
    requires IsLanguage(lang)
    ensures DropOpeningFence("```" + (lang + "\n" + rest)) == TrimLeft(rest)
  {
    var s := "```" + (lang + "\n" + rest);
    LanguageIsSkipped(lang, rest);
    assert TrimLeft(s) == s && s[..3] == "```" && s[3..] == lang + "\n" + rest;
    var r := "\n" + rest;
    assert r[1..] == rest;
    assert TrimLeft(r) == TrimLeft(rest);
    assert r[..|r| - |TrimLeft(r)|][0] == '\n';
  }

  lemma ClosingIsDropped(s: string)
    ensures DropClosingFence(TrimLeft(s + "\n```")) == TrimLeft(s + "\n")
  {
    var line := s + "\n";
    assert s + "\n```" == line + "```";
    TrimLeftPrefix(line, "```");
    var t := TrimLeft(line) + "```";
    assert TrimRight(t) == t && t[|t| - 3..] == "```" && t[..|t| - 3] == TrimLeft(line);
  }

  lemma LineEndIsTrimmed(s: string)
    ensures Trim(s + "\n") == Trim(s)
  {
    TrimAgain(s + "\n");
    assert (s + "\n")[..|s|] == s;
    assert TrimRight(s + "\n") == TrimRight(s);
    TrimAgain(s);
  }

  /** An answer wrapped as a whole is read as if it were not: the fence, its language and the white space at the
      edges are dropped, whatever the answer is. */
  lemma OuterFenceIsDropped(lang: string, s: string)
    requires IsLanguage(lang)
    ensures Unfenced("```" + (lang + "\n" + (s + "\n```"))) == Trim(s)
  {
    OpeningIsDropped(lang, s + "\n```");
    ClosingIsDropped(s);
    TrimAgain(s + "\n");
    LineEndIsTrimmed(s);
  }
}
