/** A project's repository slug and the supervisor's compose project name, which are meant to agree.
    Names are ASCII text. */
module Slugs {
  import opened Text

  datatype Error = NameRequired | NameTooLong | BadCharacter | DotName | DotAtEdge | EmptySlug

  datatype Result<+T> = Ok(value: T) | Err(error: Error)

  const NAME_MAX_LEN: nat := 80
  const SLUG_MAX_LEN: nat := 100

  // -------- validation --------

  predicate IsBad(c: char) {
    IsSpace(c) || c < ' ' || c in {'/', '\\', '<', '>', ':', '"', '|', '?', '*'}
  }

  function ValidateName(name: string): Result<string> {
    var cleaned := Trim(name);
    if cleaned == "" then Err(NameRequired)
    else if |cleaned| > NAME_MAX_LEN then Err(NameTooLong)
    else if exists i :: 0 <= i < |cleaned| && IsBad(cleaned[i]) then Err(BadCharacter)
    else if cleaned == "." || cleaned == ".." then Err(DotName)
    else if cleaned[0] == '.' || cleaned[|cleaned| - 1] == '.' || cleaned[|cleaned| - 1] == ' ' then Err(DotAtEdge)
    else Ok(cleaned)
  }

  /** A name is valid exactly if, trimmed, it has 1 to 80 characters, none of them a control character, white space
      or refused by file systems, and no dot at either end. */
  lemma ValidIff(name: string)
    ensures ValidateName(name).Ok? <==>
              var c := Trim(name);
              && 1 <= |c| <= 80
              && (forall i :: 0 <= i < |c| ==>
                    c[i] >= ' ' && !IsSpace(c[i]) && c[i] !in "/\\<>:\"|?*")
              && c[0] != '.' && c[|c| - 1] != '.'
    ensures ValidateName(name).Ok? ==> ValidateName(name).value == Trim(name)
  {
  }

  // -------- the two algorithms --------

  predicate IsAlnum(c: char) {
    'a' <= c <= 'z' || '0' <= c <= '9'
  }

  /** White space, dot or underscore. */
  predicate BecomesDash(c: char) {
    IsSpace(c) || c == '.' || c == '_'
  }

  /** Neither letter, digit nor dash, nor anything that becomes one. */
  predicate IsDropped(c: char) {
    !IsAlnum(c) && !BecomesDash(c) && c != '-'
  }

  /** Each run of characters that become a dash is replaced by one dash. */
  function DashRuns(s: string): string {
    if s == "" then ""
    else if !BecomesDash(s[0]) then [s[0]] + DashRuns(s[1..])
    else if |s| > 1 && BecomesDash(s[1]) then DashRuns(s[1..])
    else "-" + DashRuns(s[1..])
  }

  function DropOthers(s: string): string {
    if s == "" then ""
    else (if IsAlnum(s[0]) || s[0] == '_' || s[0] == '-' then [s[0]] else "") + DropOthers(s[1..])
  }

  /** Each run of dashes becomes one dash. */
  function Collapse(s: string): string {
    if s == "" then ""
    else if s[0] == '-' && |s| > 1 && s[1] == '-' then Collapse(s[1..])
    else [s[0]] + Collapse(s[1..])
  }

  function StripLeftDashes(s: string): string {
    if s != "" && s[0] == '-' then StripLeftDashes(s[1..]) else s
  }

  function StripRightDashes(s: string): string
    decreases |s|
  {
    if s != "" && s[|s| - 1] == '-' then StripRightDashes(s[..|s| - 1]) else s
  }

  function StripDashes(s: string): string {
    StripLeftDashes(StripRightDashes(s))
  }

  /** The repository slug before it is cut to length. */
  function LongSlug(name: string): string {
    StripDashes(Collapse(DropOthers(DashRuns(Lower(Trim(name))))))
  }

  function ProjectRepoSlug(name: string): Result<string> {
    var s := LongSlug(name);
    if s == "" then Err(EmptySlug)
    else if |s| > SLUG_MAX_LEN then Ok(StripRightDashes(s[..SLUG_MAX_LEN]))
    else Ok(s)
  }

  function OthersToDashes(s: string): (r: string)
    ensures |r| == |s|
  {
    if s == "" then "" else [if IsAlnum(s[0]) then s[0] else '-'] + OthersToDashes(s[1..])
  }

  function ComposeSlug(name: string): string {
    StripDashes(Collapse(OthersToDashes(Lower(name))))
  }

  predicate HasDoubleDash(s: string) {
    exists i :: 0 <= i < |s| - 1 && s[i] == '-' && s[i + 1] == '-'
  }

  /** Every pair of dashes, from the left and without overlap, becomes one dash. */
  function ReplacePairs(s: string): string {
    if |s| < 2 then s
    else if s[0] == '-' && s[1] == '-' then "-" + ReplacePairs(s[2..])
    else [s[0]] + ReplacePairs(s[1..])
  }

  /** Replaces pairs of dashes until none is left; that is the same as collapsing runs. */
  method ProjectComposeProjectName(name: string) returns (r: string)
    ensures r == "project-" + ComposeSlug(name)
  {
    var slug := OthersToDashes(Lower(name));
    while HasDoubleDash(slug)
      invariant Collapse(slug) == Collapse(OthersToDashes(Lower(name)))
      decreases |slug|
    {
      ReplacingCollapses(slug);
      ReplacingShortens(slug);
      slug := ReplacePairs(slug);
    }
    NothingToCollapse(slug);
    return "project-" + StripDashes(slug);
  }

  lemma {:induction false} ReplacingCollapses(s: string)
    ensures Collapse(ReplacePairs(s)) == Collapse(s)
    ensures s != "" ==> ReplacePairs(s) != "" && ReplacePairs(s)[0] == s[0]
    decreases |s|
  {
    if |s| >= 2 {
      if s[0] == '-' && s[1] == '-' {
        ReplacingCollapses(s[2..]);
        var t := ReplacePairs(s[2..]);
        assert ("-" + t)[1..] == t;
        assert s[1..][1..] == s[2..];
      } else {
        ReplacingCollapses(s[1..]);
        var t := ReplacePairs(s[1..]);
        assert ([s[0]] + t)[1..] == t;
      }
    }
  }

  lemma {:induction false} ReplacingShortens(s: string)
    ensures |ReplacePairs(s)| <= |s|
    ensures HasDoubleDash(s) ==> |ReplacePairs(s)| < |s|
    decreases |s|
  {
    if |s| >= 2 {
      if s[0] == '-' && s[1] == '-' {
        ReplacingShortens(s[2..]);
      } else {
        ReplacingShortens(s[1..]);
        if HasDoubleDash(s) {
          var i :| 0 <= i < |s| - 1 && s[i] == '-' && s[i + 1] == '-';
          assert s[1..][i - 1] == '-' && s[1..][i] == '-';
        }
      }
    }
  }

  lemma {:induction false} NothingToCollapse(s: string)
    requires !HasDoubleDash(s)
    ensures Collapse(s) == s
    decreases |s|
  {
    if s != "" {
      assert s == [s[0]] + s[1..];
      if |s| > 1 { assert !(s[0] == '-' && s[0 + 1] == '-'); }
      forall i | 0 <= i < |s[1..]| - 1 ensures !(s[1..][i] == '-' && s[1..][i + 1] == '-') {
        assert s[1..][i] == s[i + 1] && s[1..][i + 1] == s[i + 1 + 1];
      }
      NothingToCollapse(s[1..]);
    }
  }

  // -------- a common form: words joined by dashes --------

  /** Letters and digits, with one dash where a run of dashes lies between two of them. */
  function Words(m: string, started: bool, pending: bool): string {
    if m == "" then ""
    else if m[0] == '-' then Words(m[1..], started, true)
    else (if started && pending then "-" else "") + [m[0]] + Words(m[1..], true, false)
  }

  lemma {:induction false} RightStripped(m: string)
    ensures StripRightDashes(Collapse(m)) == Words(m, true, false)
    ensures m != "" ==> Collapse(m) != "" && Collapse(m)[0] == m[0]
  {
    if m != "" {
      RightStripped(m[1..]);
      if m[0] != '-' {
        StripRightBehind(m[0], Collapse(m[1..]));
      } else if |m| == 1 {
        assert m[1..] == "";
        assert Collapse(m) == "-" && "-"[..0] == "";
      } else if m[1] != '-' {
        StripRightKeepsDash(Collapse(m[1..]));
      }
    }
  }

  lemma {:induction false} StripRightBehind(c: char, s: string)
    requires c != '-'
    ensures StripRightDashes([c] + s) == [c] + StripRightDashes(s)
    decreases |s|
  {
    if s != "" && s[|s| - 1] == '-' {
      assert ([c] + s)[..|s|] == [c] + s[..|s| - 1];
      StripRightBehind(c, s[..|s| - 1]);
    }
  }

  lemma {:induction false} StripRightKeepsDash(s: string)
    requires s != "" && s[0] != '-'
    ensures StripRightDashes("-" + s) == "-" + StripRightDashes(s)
    decreases |s|
  {
    if s[|s| - 1] == '-' {
      assert ("-" + s)[..|s|] == "-" + s[..|s| - 1];
      StripRightKeepsDash(s[..|s| - 1]);
    }
  }

  lemma {:induction false} LeftStripped(m: string, p: bool, q: bool)
    ensures StripLeftDashes(Words(m, true, p)) == Words(m, false, q)
  {
    if m != "" {
      if m[0] == '-' {
        LeftStripped(m[1..], true, true);
      } else {
        var w := [m[0]] + Words(m[1..], true, false);
        assert ("-" + w)[1..] == w;
        assert "" + w == w;
        assert StripLeftDashes(w) == w;
        assert ("-" + [m[0]]) + Words(m[1..], true, false) == "-" + w;
      }
    }
  }

  /** Collapsing and stripping leaves the words joined by single dashes. */
  lemma CollapsedAndStripped(m: string)
    ensures StripDashes(Collapse(m)) == Words(m, false, false)
  {
    RightStripped(m);
    LeftStripped(m, false, false);
  }
}
