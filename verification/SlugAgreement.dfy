/** When the two names agree, and what a repository slug looks like. */
module SlugAgreement {
  import opened Text
  import opened Slugs

  /** The words of the repository slug and of the compose name, from the lowered name. */
  function RepoWords(t: string, started: bool, pending: bool): string {
    Words(DropOthers(DashRuns(t)), started, pending)
  }

  function ComposeWords(t: string, started: bool, pending: bool): string {
    Words(OthersToDashes(t), started, pending)
  }

  lemma {:induction false} PendingIsSettled(t: string, started: bool, p: bool)
    requires t != "" && BecomesDash(t[0])
    ensures RepoWords(t, started, p) == RepoWords(t, started, true)
    decreases |t|
  {
    if |t| > 1 && BecomesDash(t[1]) {
      PendingIsSettled(t[1..], started, p);
    }
  }

  /** Reading a name from the left: a letter or digit is kept, a separator makes a dash pending, and
      anything else is as if it were not there. */
  lemma RepoStep(t: string, started: bool, p: bool)
    requires t != ""
    ensures IsAlnum(t[0]) ==>
              RepoWords(t, started, p) == (if started && p then "-" else "") + [t[0]] + RepoWords(t[1..], true, false)
    ensures BecomesDash(t[0]) || t[0] == '-' ==> RepoWords(t, started, p) == RepoWords(t[1..], started, true)
    ensures IsDropped(t[0]) ==> RepoWords(t, started, p) == RepoWords(t[1..], started, p)
  {
    var rest := DropOthers(DashRuns(t[1..]));
    if BecomesDash(t[0]) {
      if |t| > 1 && BecomesDash(t[1]) {
        PendingIsSettled(t[1..], started, p);
      } else {
        assert DashRuns(t)[1..] == DashRuns(t[1..]);
        assert DropOthers(DashRuns(t)) == "-" + rest && ("-" + rest)[1..] == rest;
      }
    } else {
      assert DashRuns(t)[1..] == DashRuns(t[1..]);
      if IsDropped(t[0]) {
        assert "" + rest == rest;
      } else {
        assert DropOthers(DashRuns(t)) == [t[0]] + rest && ([t[0]] + rest)[1..] == rest;
      }
    }
  }

  lemma ComposeStep(t: string, started: bool, p: bool)
    requires t != ""
    ensures IsAlnum(t[0]) ==>
              ComposeWords(t, started, p) ==
                (if started && p then "-" else "") + [t[0]] + ComposeWords(t[1..], true, false)
    ensures !IsAlnum(t[0]) ==> ComposeWords(t, started, p) == ComposeWords(t[1..], started, true)
  {
    assert OthersToDashes(t)[1..] == OthersToDashes(t[1..]);
  }

  /** How many dashes the compose name has more: the gaps that the repository slug closes. */
  function ClosedGaps(t: string, started: bool, pendingC: bool, pendingR: bool): nat {
    if t == "" then 0
    else if IsAlnum(t[0]) then
      (if started && pendingC && !pendingR then 1 else 0) + ClosedGaps(t[1..], true, false, false)
    else if IsDropped(t[0]) then ClosedGaps(t[1..], started, true, pendingR)
    else ClosedGaps(t[1..], started, true, true)
  }

  lemma {:induction false} LengthsDifferByGaps(t: string, started: bool, pendingC: bool, pendingR: bool)
    requires pendingR ==> pendingC
    ensures |ComposeWords(t, started, pendingC)| ==
              |RepoWords(t, started, pendingR)| + ClosedGaps(t, started, pendingC, pendingR)
    ensures ClosedGaps(t, started, pendingC, pendingR) == 0 ==>
              ComposeWords(t, started, pendingC) == RepoWords(t, started, pendingR)
  {
    if t != "" {
      RepoStep(t, started, pendingR);
      ComposeStep(t, started, pendingC);
      if IsAlnum(t[0]) {
        LengthsDifferByGaps(t[1..], true, false, false);
      } else if IsDropped(t[0]) {
        LengthsDifferByGaps(t[1..], started, true, pendingR);
      } else {
        LengthsDifferByGaps(t[1..], started, true, true);
      }
    }
  }

  // -------- which gaps are closed --------

  predicate AllDropped(t: string, i: nat, j: nat)
    requires j <= |t|
  {
    forall k :: i <= k < j ==> IsDropped(t[k])
  }

  /** A letter or digit, one or more dropped characters and nothing else, a letter or digit. */
  predicate ClosedGap(t: string, i: nat, j: nat) {
    i + 1 < j < |t| && IsAlnum(t[i]) && IsAlnum(t[j]) && AllDropped(t, i + 1, j)
  }

  predicate HasClosedGap(t: string) {
    exists i, j :: 0 <= i < |t| && 0 <= j < |t| && ClosedGap(t, i, j)
  }

  /** The first character that is not dropped is a letter or digit, at `j`. */
  predicate FirstKept(t: string, j: nat) {
    j < |t| && IsAlnum(t[j]) && AllDropped(t, 0, j)
  }

  lemma ShiftGap(t: string, i: nat, j: nat)
    requires t != ""
    ensures ClosedGap(t[1..], i, j) <==> ClosedGap(t, i + 1, j + 1)
  {
    if i + 1 < j < |t| - 1 {
      assert forall k :: i + 1 <= k < j ==> t[1..][k] == t[k + 1];
      assert forall k :: i + 2 <= k < j + 1 ==> t[k] == t[1..][k - 1];
    }
  }

  lemma ShiftKept(t: string, j: nat)
    requires t != ""
    ensures IsDropped(t[0]) ==> (FirstKept(t[1..], j) <==> FirstKept(t, j + 1))
    ensures IsAlnum(t[0]) ==> (FirstKept(t[1..], j) && j > 0 <==> ClosedGap(t, 0, j + 1))
  {
    if j < |t| - 1 {
      assert forall k :: 0 <= k < j ==> t[1..][k] == t[k + 1];
      assert forall k :: 1 <= k < j + 1 ==> t[k] == t[1..][k - 1];
    }
  }

  predicate GapFromStart(t: string) {
    exists j :: 0 <= j < |t| && ClosedGap(t, 0, j)
  }

  predicate KeptAfter(t: string, least: nat) {
    exists j :: least <= j < |t| && FirstKept(t, j)
  }

  lemma GapHereOrLater(t: string)
    requires t != ""
    ensures HasClosedGap(t) <==> HasClosedGap(t[1..]) || GapFromStart(t)
  {
    if HasClosedGap(t) {
      var i, j :| 0 <= i < |t| && 0 <= j < |t| && ClosedGap(t, i, j);
      if i > 0 { ShiftGap(t, i - 1, j - 1); }
    }
    if HasClosedGap(t[1..]) {
      var i, j :| 0 <= i < |t[1..]| && 0 <= j < |t[1..]| && ClosedGap(t[1..], i, j);
      ShiftGap(t, i, j);
    }
    if GapFromStart(t) {
      var j :| 0 <= j < |t| && ClosedGap(t, 0, j);
    }
  }

  lemma GapFromStartIsKept(t: string)
    requires t != "" && IsAlnum(t[0])
    ensures GapFromStart(t) <==> KeptAfter(t[1..], 1)
  {
    if GapFromStart(t) {
      var j :| 0 <= j < |t| && ClosedGap(t, 0, j);
      ShiftKept(t, j - 1);
    }
    if KeptAfter(t[1..], 1) {
      var j :| 1 <= j < |t[1..]| && FirstKept(t[1..], j);
      ShiftKept(t, j);
    }
  }

  lemma KeptIsShifted(t: string, least: nat)
    requires t != "" && IsDropped(t[0])
    ensures KeptAfter(t, least) <==> KeptAfter(t[1..], if least == 0 then 0 else least - 1)
  {
    if KeptAfter(t, least) {
      var j :| least <= j < |t| && FirstKept(t, j);
      ShiftKept(t, j - 1);
    }
    if KeptAfter(t[1..], if least == 0 then 0 else least - 1) {
      var j :| (if least == 0 then 0 else least - 1) <= j < |t[1..]| && FirstKept(t[1..], j);
      ShiftKept(t, j);
    }
  }

  lemma {:induction false} GapsAreCounted(t: string, started: bool, pendingC: bool, pendingR: bool)
    ensures ClosedGaps(t, started, pendingC, pendingR) > 0 <==>
              HasClosedGap(t) || (started && !pendingR && KeptAfter(t, if pendingC then 0 else 1))
    decreases |t|
  {
    if t != "" {
      GapHereOrLater(t);
      if IsAlnum(t[0]) {
        GapsAreCounted(t[1..], true, false, false);
        GapFromStartIsKept(t);
        AlnumIsFirst(t);
      } else {
        assert !GapFromStart(t);
        if IsDropped(t[0]) {
          GapsAreCounted(t[1..], started, true, pendingR);
          KeptIsShifted(t, if pendingC then 0 else 1);
        } else {
          GapsAreCounted(t[1..], started, true, true);
        }
      }
    }
  }

  lemma AlnumIsFirst(t: string)
    requires t != "" && IsAlnum(t[0])
    ensures KeptAfter(t, 0) && !KeptAfter(t, 1)
  {
    assert FirstKept(t, 0);
  }

  // -------- agreement --------

  lemma SlugsAreWords(name: string)
    ensures LongSlug(name) == RepoWords(Lower(Trim(name)), false, false)
    ensures ComposeSlug(name) == ComposeWords(Lower(name), false, false)
  {
    CollapsedAndStripped(DropOthers(DashRuns(Lower(Trim(name)))));
    CollapsedAndStripped(OthersToDashes(Lower(name)));
  }

  lemma {:induction false} WordsAreNotLonger(m: string, started: bool, pending: bool)
    ensures |Words(m, started, pending)| <= |m| + (if pending then 1 else 0)
  {
    if m != "" { WordsAreNotLonger(m[1..], if m[0] == '-' then started else true, m[0] == '-'); }
  }

  lemma {:induction false} CleaningShortens(t: string)
    ensures |DropOthers(DashRuns(t))| <= |t|
  {
    if t != "" { CleaningShortens(t[1..]); }
  }

  lemma ValidatedIsTrimmed(name: string, valid: string)
    requires ValidateName(name) == Ok(valid)
    ensures Trim(valid) == valid && 0 < |valid| <= NAME_MAX_LEN
  {
  }

  /** For every validated name with a repository slug, the supervisor's compose name is
      "project-" and that slug exactly when no gap between two letters or digits consists of dropped
      characters only. */
  lemma NamesAgreeIffNoClosedGap(name: string, valid: string)
    requires ValidateName(name) == Ok(valid) && ProjectRepoSlug(valid).Ok?
    ensures "project-" + ComposeSlug(valid) == "project-" + ProjectRepoSlug(valid).value <==>
              !HasClosedGap(Lower(valid))
  {
    ValidatedIsTrimmed(name, valid);
    SlugsAreWords(valid);
    var t := Lower(valid);
    LengthsDifferByGaps(t, false, false, false);
    GapsAreCounted(t, false, false, false);
    CleaningShortens(t);
    WordsAreNotLonger(DropOthers(DashRuns(t)), false, false);
    var a, b := "project-" + ComposeSlug(valid), "project-" + ProjectRepoSlug(valid).value;
    assert a[8..] == ComposeSlug(valid) && b[8..] == ProjectRepoSlug(valid).value;
  }

  /** Letters, digits, dot, underscore and dash: there the names always agree. */
  predicate IsPlain(c: char) {
    'a' <= c <= 'z' || 'A' <= c <= 'Z' || '0' <= c <= '9' || c == '.' || c == '_' || c == '-'
  }

  lemma PlainNamesAgree(name: string, valid: string)
    requires ValidateName(name) == Ok(valid) && ProjectRepoSlug(valid).Ok?
    requires forall i :: 0 <= i < |valid| ==> IsPlain(valid[i])
    ensures ComposeSlug(valid) == ProjectRepoSlug(valid).value
  {
    var t := Lower(valid);
    forall i | 0 <= i < |t| ensures !IsDropped(t[i]) {
      assert IsPlain(valid[i]);
    }
    forall i, j | 0 <= i < |t| && 0 <= j < |t| ensures !ClosedGap(t, i, j) {
      assert i + 1 < j ==> !IsDropped(t[i + 1]);
    }
    NamesAgreeIffNoClosedGap(name, valid);
    var a, b := "project-" + ComposeSlug(valid), "project-" + ProjectRepoSlug(valid).value;
    assert a[8..] == ComposeSlug(valid) && b[8..] == ProjectRepoSlug(valid).value;
  }

  /** A valid name on which they disagree: the slug closes the gap that the compose name keeps. */
  lemma NamesCanDisagree()
    ensures ValidateName("a+b") == Ok("a+b") && ProjectRepoSlug("a+b").Ok?
    ensures ComposeSlug("a+b") != ProjectRepoSlug("a+b").value
  {
    var name := "a+b";
    assert Trim(name) == name && Lower(name) == name;
    assert IsAlnum(LowerChar(name[0]));
    NoSlugIffNothingToKeep(name);
    assert ClosedGap(name, 0, 2);
    NamesAgreeIffNoClosedGap(name, name);
  }

  // -------- what a slug looks like --------

  /** Letters, digits and single dashes, none of them at either end. */
  predicate IsSlug(s: string) {
    && 1 <= |s| <= SLUG_MAX_LEN
    && (forall i :: 0 <= i < |s| ==> IsAlnum(s[i]) || s[i] == '-')
    && s[0] != '-' && s[|s| - 1] != '-'
    && !HasDoubleDash(s)
  }

  /** The same without the bound and with a dash allowed at the start. */
  predicate IsTail(s: string) {
    && (forall i :: 0 <= i < |s| ==> IsAlnum(s[i]) || s[i] == '-')
    && (s != "" ==> s[|s| - 1] != '-')
    && !HasDoubleDash(s)
  }

  predicate IsMarked(m: string) {
    forall i :: 0 <= i < |m| ==> IsAlnum(m[i]) || m[i] == '-'
  }

  lemma {:induction false} WordsAreTails(m: string, started: bool, pending: bool)
    requires IsMarked(m)
    ensures IsTail(Words(m, started, pending))
  {
    if m != "" {
      if m[0] == '-' {
        WordsAreTails(m[1..], started, true);
      } else {
        WordsAreTails(m[1..], true, false);
        TailGrows(m[0], Words(m[1..], true, false), started && pending);
      }
    }
  }

  lemma {:induction false} NotStartedNoDash(m: string, pending: bool)
    requires IsMarked(m)
    ensures Words(m, false, pending) != "" ==> Words(m, false, pending)[0] != '-'
  {
    if m != "" && m[0] == '-' { NotStartedNoDash(m[1..], true); }
  }

  lemma TailGrows(c: char, w: string, dash: bool)
    requires IsAlnum(c) && IsTail(w)
    ensures IsTail((if dash then "-" else "") + [c] + w)
  {
    var s := [c] + w;
    forall i | 0 <= i < |s| - 1 ensures !(s[i] == '-' && s[i + 1] == '-') {
      if i > 0 { assert s[i] == w[i - 1] && s[i + 1] == w[i - 1 + 1]; }
    }
    var d := "-" + s;
    forall i | 0 <= i < |d| - 1 ensures !(d[i] == '-' && d[i + 1] == '-') {
      if i > 0 { assert d[i] == s[i - 1] && d[i + 1] == s[i - 1 + 1]; }
    }
    assert "" + [c] + w == s && "-" + [c] + w == d;
  }

  lemma RepoIsMarked(t: string)
    ensures IsMarked(DropOthers(DashRuns(t)))
  {
    DashedHasNoUnderscore(t);
    DroppedIsMarked(DashRuns(t));
  }

  lemma {:induction false} DashedHasNoUnderscore(t: string)
    ensures '_' !in DashRuns(t)
  {
    if t != "" { DashedHasNoUnderscore(t[1..]); }
  }

  lemma {:induction false} DroppedIsMarked(s: string)
    requires '_' !in s
    ensures IsMarked(DropOthers(s))
  {
    if s != "" { DroppedIsMarked(s[1..]); }
  }

  lemma NoPairInPrefix(s: string, n: nat)
    requires !HasDoubleDash(s) && n <= |s|
    ensures !HasDoubleDash(s[..n])
  {
    var t := s[..n];
    forall i | 0 <= i < |t| - 1 ensures !(t[i] == '-' && t[i + 1] == '-') {
      assert t[i] == s[i] && t[i + 1] == s[i + 1];
    }
  }

  lemma {:induction false} CutIsTail(s: string)
    requires IsMarked(s) && !HasDoubleDash(s) && s != "" && s[0] != '-'
    ensures IsTail(StripRightDashes(s)) && StripRightDashes(s) != "" && StripRightDashes(s)[0] == s[0]
    ensures |StripRightDashes(s)| <= |s|
    decreases |s|
  {
    if s[|s| - 1] == '-' {
      var t := s[..|s| - 1];
      NoPairInPrefix(s, |t|);
      CutIsTail(t);
    }
  }

  /** Every repository slug has 1 to 100 characters, only letters, digits and single inner dashes. */
  lemma RepoSlugIsSlug(name: string)
    requires ProjectRepoSlug(name).Ok?
    ensures IsSlug(ProjectRepoSlug(name).value)
  {
    SlugsAreWords(name);
    var m := DropOthers(DashRuns(Lower(Trim(name))));
    RepoIsMarked(Lower(Trim(name)));
    WordsAreTails(m, false, false);
    NotStartedNoDash(m, false);
    var s := LongSlug(name);
    if |s| > SLUG_MAX_LEN {
      var cut := s[..SLUG_MAX_LEN];
      NoPairInPrefix(s, SLUG_MAX_LEN);
      CutIsTail(cut);
    }
  }

  lemma {:induction false} SlugIsItsWords(m: string, started: bool)
    requires IsMarked(m) && !HasDoubleDash(m) && (m != "" ==> m[|m| - 1] != '-')
    requires !started && m != "" ==> m[0] != '-'
    ensures Words(m, started, false) == m
    decreases |m|
  {
    if m != "" {
      TailsOfSlugs(m);
      if m[0] == '-' {
        assert m[0 + 1] != '-';
        TailsOfSlugs(m[1..]);
        SlugIsItsWords(m[1..][1..], true);
        assert m == "-" + [m[1]] + m[1..][1..];
      } else {
        SlugIsItsWords(m[1..], true);
        assert m == [m[0]] + m[1..];
      }
    }
  }

  lemma TailsOfSlugs(m: string)
    requires m != "" && IsMarked(m) && !HasDoubleDash(m) && m[|m| - 1] != '-'
    ensures IsMarked(m[1..]) && !HasDoubleDash(m[1..]) && (m[1..] != "" ==> m[1..][|m[1..]| - 1] != '-')
  {
    var t := m[1..];
    forall i | 0 <= i < |t| - 1 ensures !(t[i] == '-' && t[i + 1] == '-') {
      assert t[i] == m[i + 1] && t[i + 1] == m[i + 1 + 1];
    }
  }

  lemma {:induction false} MarkedIsUntouched(m: string)
    requires IsMarked(m)
    ensures DashRuns(m) == m && DropOthers(m) == m
  {
    if m != "" {
      MarkedIsUntouched(m[1..]);
      assert [m[0]] + m[1..] == m;
    }
  }

  /** Slugging a slug changes nothing. */
  lemma RepoSlugIsIdempotent(name: string)
    requires ProjectRepoSlug(name).Ok?
    ensures ProjectRepoSlug(ProjectRepoSlug(name).value) == ProjectRepoSlug(name)
  {
    RepoSlugIsSlug(name);
    var s := ProjectRepoSlug(name).value;
    assert Trim(s) == s;
    assert Lower(s) == s;
    MarkedIsUntouched(s);
    SlugIsItsWords(s, false);
    SlugsAreWords(s);
  }

  lemma {:induction false} NoWordsIffNoAlnum(t: string, started: bool, p: bool)
    ensures RepoWords(t, started, p) == "" <==> forall i :: 0 <= i < |t| ==> !IsAlnum(t[i])
  {
    if t != "" {
      RepoStep(t, started, p);
      if IsAlnum(t[0]) {
      } else if IsDropped(t[0]) {
        NoWordsIffNoAlnum(t[1..], started, p);
      } else {
        NoWordsIffNoAlnum(t[1..], started, true);
      }
      assert forall i :: 0 < i < |t| ==> t[i] == t[1..][i - 1];
    }
  }

  /** A name has no slug exactly when, lowered, it has no letter and no digit. */
  lemma NoSlugIffNothingToKeep(name: string)
    ensures ProjectRepoSlug(name).Err? <==> forall i :: 0 <= i < |Trim(name)| ==> !IsAlnum(LowerChar(Trim(name)[i]))
  {
    SlugsAreWords(name);
    NoWordsIffNoAlnum(Lower(Trim(name)), false, false);
  }
}
