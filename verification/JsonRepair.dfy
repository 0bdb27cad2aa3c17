/** The repair of tool arguments whose strings hold raw newlines, returns or tabs, and what it means
    for a decoder of JSON (RFC 8259, section 7). */
module JsonRepair {
  import opened Common

  datatype Mode = Outside | Inside | Escaped

  /** Where the character after `c` stands. */
  function Step(m: Mode, c: char): Mode {
    match m
    case Outside => if c == '"' then Inside else Outside
    case Escaped => Inside
    case Inside => if c == '\\' then Escaped else if c == '"' then Outside else Inside
  }

  function ModeAfter(m: Mode, s: string): Mode
    decreases |s|
  {
    if s == "" then m else ModeAfter(Step(m, s[0]), s[1..])
  }

  predicate IsRaw(c: char) {
    c == '\n' || c == '\r' || c == '\t'
  }

  function Letter(c: char): char {
    if c == '\n' then 'n' else if c == '\r' then 'r' else 't'
  }

  function Piece(m: Mode, c: char): string {
    if m == Inside && IsRaw(c) then ['\\', Letter(c)] else [c]
  }

  function Repair(m: Mode, s: string): string
    decreases |s|
  {
    if s == "" then "" else Piece(m, s[0]) + Repair(Step(m, s[0]), s[1..])
  }

  /** How many characters of the text are raw ones in a string, not after a backslash. */
  function RawCount(m: Mode, s: string): nat
    decreases |s|
  {
    if s == "" then 0
    else (if m == Inside && IsRaw(s[0]) then 1 else 0) + RawCount(Step(m, s[0]), s[1..])
  }

  /** The character walk of the repair. */
  method AttemptJsonRepair(text: string) returns (repaired: string)
    ensures repaired == Repair(Outside, text)
  {
    var out := "";
    var inString, escaped := false, false;
    ghost var mode := Outside;
    assert text[0..] == text;
    for k := 0 to |text|
      invariant mode == if !inString then Outside else if escaped then Escaped else Inside
      invariant escaped ==> inString
      invariant out + Repair(mode, text[k..]) == Repair(Outside, text)
    {
      var ch := text[k];
      assert text[k..][0] == ch && text[k..][1..] == text[k + 1..];
      assert (out + Piece(mode, ch)) + Repair(Step(mode, ch), text[k + 1..]) ==
               out + (Piece(mode, ch) + Repair(Step(mode, ch), text[k + 1..]));
      mode := Step(mode, ch);
      if !inString {
        if ch == '"' { inString := true; }
        out := out + [ch];
        continue;
      }
      if escaped {
        out := out + [ch];
        escaped := false;
        continue;
      }
      if ch == '\\' {
        out := out + [ch];
        escaped := true;
        continue;
      }
      if ch == '"' {
        out := out + [ch];
        inString := false;
        continue;
      }
      if ch == '\n' {
        out := out + ['\\', 'n'];
        continue;
      }
      if ch == '\r' {
        out := out + ['\\', 'r'];
        continue;
      }
      if ch == '\t' {
        out := out + ['\\', 't'];
        continue;
      }
      out := out + [ch];
    }
    assert text[|text|..] == "";
    return out;
  }

  // -------- decoding --------

  /** A string with its code units, or one character outside strings. */
  datatype Token = Str(units: seq<int>) | Other(c: char)

  datatype Body = Body(units: seq<int>, rest: string)

  function HexDigit(c: char): Option<int> {
    if '0' <= c <= '9' then Some(c as int - '0' as int)
    else if 'a' <= c <= 'f' then Some(c as int - 'a' as int + 10)
    else if 'A' <= c <= 'F' then Some(c as int - 'A' as int + 10)
    else None
  }

  /** The value of the first n characters as hexadecimal digits, after the value `acc`. */
  function Hex(s: string, n: nat, acc: int): Option<int> {
    if n == 0 then Some(acc)
    else if s == "" || HexDigit(s[0]).None? then None
    else Hex(s[1..], n - 1, 16 * acc + HexDigit(s[0]).value)
  }

  function Unescaped(c: char): Option<int> {
    match c
    case '"' => Some(34)
    case '\\' => Some(92)
    case '/' => Some(47)
    case 'b' => Some(8)
    case 'f' => Some(12)
    case 'n' => Some(10)
    case 'r' => Some(13)
    case 't' => Some(9)
    case _ => None
  }

  function Prepend(unit: int, b: Option<Body>): Option<Body> {
    if b.None? then None else Some(Body([unit] + b.value.units, b.value.rest))
  }

  /** The rest of a string after its opening quote: its code units and what follows the closing quote.
      Strictly, no control character may occur; leniently a raw newline, return or tab means itself. */
  function StringBody(lenient: bool, s: string): (r: Option<Body>)
    ensures r.Some? ==> |r.value.rest| < |s|
    decreases |s|
  {
    if s == "" then None
    else if s[0] == '"' then Some(Body([], s[1..]))
    else if s[0] == '\\' then
      if |s| == 1 then None
      else if s[1] == 'u' then
        if Hex(s[2..], 4, 0).None? then None
        else
          HexNeedsLength(s[2..], 4, 0);
          Prepend(Hex(s[2..], 4, 0).value, StringBody(lenient, s[6..]))
      else if Unescaped(s[1]).None? then None
      else Prepend(Unescaped(s[1]).value, StringBody(lenient, s[2..]))
    else if s[0] < ' ' && !(lenient && IsRaw(s[0])) then None
    else Prepend(s[0] as int, StringBody(lenient, s[1..]))
  }

  lemma HexNeedsLength(s: string, n: nat, acc: int)
    ensures Hex(s, n, acc).Some? ==> |s| >= n
  {
    if n > 0 && s != "" && HexDigit(s[0]).Some? {
      HexNeedsLength(s[1..], n - 1, 16 * acc + HexDigit(s[0]).value);
    }
  }

  /** The text as strings and other characters; none if a string is malformed. */
  function Lex(lenient: bool, s: string): Option<seq<Token>>
    decreases |s|
  {
    if s == "" then Some([])
    else if s[0] != '"' then
      match Lex(lenient, s[1..])
      case None => None
      case Some(ts) => Some([Other(s[0])] + ts)
    else
      match StringBody(lenient, s[1..])
      case None => None
      case Some(b) =>
        match Lex(lenient, b.rest)
        case None => None
        case Some(ts) => Some([Str(b.units)] + ts)
  }

  /** A decoder: malformed strings are errors, and the rest of the grammar is any function of what
      the text is made of. */
  function Decode<V>(lenient: bool, grammar: seq<Token> -> Option<V>, s: string): Option<V> {
    match Lex(lenient, s)
    case None => None
    case Some(ts) => grammar(ts)
  }

  // -------- the repair preserves meaning --------

  lemma {:induction false} HexSurvives(s: string, n: nat, acc: int)
    ensures Hex(Repair(Inside, s), n, acc) == Hex(s, n, acc)
    ensures Hex(s, n, acc).Some? ==>
              |s| >= n && |Repair(Inside, s)| >= n && Repair(Inside, s)[n..] == Repair(Inside, s[n..])
  {
    if n > 0 && s != "" {
      var r := Repair(Inside, s);
      if HexDigit(s[0]).Some? {
        HexSurvives(s[1..], n - 1, 16 * acc + HexDigit(s[0]).value);
        assert r == [s[0]] + Repair(Inside, s[1..]);
        assert r[1..] == Repair(Inside, s[1..]);
        if Hex(s, n, acc).Some? {
          assert r[n..] == r[1..][n - 1..] && s[n..] == s[1..][n - 1..];
        }
      }
    } else if n == 0 {
      assert s[0..] == s && Repair(Inside, s)[0..] == Repair(Inside, s);
    }
  }

  /** Two characters of an escape are copied as they are. */
  lemma EscapeSurvives(s: string)
    requires |s| >= 2 && s[0] == '\\'
    ensures Repair(Inside, s) == [s[0], s[1]] + Repair(Inside, s[2..])
  {
    var rest := s[1..];
    assert rest[0] == s[1] && rest[1..] == s[2..];
    CopiedFirst(Inside, s);
    CopiedFirst(Escaped, rest);
    Assoc([s[0]], [s[1]], Repair(Inside, s[2..]));
  }

  lemma CopiedFirst(m: Mode, s: string)
    requires s != "" && !(m == Inside && IsRaw(s[0]))
    ensures Repair(m, s) == [s[0]] + Repair(Step(m, s[0]), s[1..])
  {
  }

  function RepairRest(b: Option<Body>): Option<Body> {
    if b.None? then None else Some(Body(b.value.units, Repair(Outside, b.value.rest)))
  }

  lemma {:induction false} BodySurvives(s: string)
    ensures StringBody(false, Repair(Inside, s)) == RepairRest(StringBody(true, s))
    decreases |s|
  {
    if s == "" {
    } else if s[0] == '"' {
      assert Repair(Inside, s)[1..] == Repair(Outside, s[1..]);
    } else if s[0] == '\\' {
      if |s| > 1 { EscapedSurvives(s); }
    } else {
      BodySurvives(s[1..]);
      if IsRaw(s[0]) { RawSurvives(s); } else { PlainSurvives(s); }
    }
  }

  lemma RawSurvives(s: string)
    requires s != "" && IsRaw(s[0]) && StringBody(false, Repair(Inside, s[1..])) == RepairRest(StringBody(true, s[1..]))
    ensures StringBody(false, Repair(Inside, s)) == RepairRest(StringBody(true, s))
  {
    var r, rest := Repair(Inside, s), Repair(Inside, s[1..]);
    assert r == ['\\', Letter(s[0])] + rest && r[2..] == rest;
  }

  lemma PlainSurvives(s: string)
    requires s != "" && !IsRaw(s[0]) && s[0] != '"' && s[0] != '\\'
    requires StringBody(false, Repair(Inside, s[1..])) == RepairRest(StringBody(true, s[1..]))
    ensures StringBody(false, Repair(Inside, s)) == RepairRest(StringBody(true, s))
  {
    var r, rest := Repair(Inside, s), Repair(Inside, s[1..]);
    assert r == [s[0]] + rest && r[1..] == rest;
  }

  lemma {:induction false} EscapedSurvives(s: string)
    requires |s| > 1 && s[0] == '\\'
    ensures StringBody(false, Repair(Inside, s)) == RepairRest(StringBody(true, s))
    decreases |s|, 0
  {
    var r := Repair(Inside, s);
    EscapeSurvives(s);
    assert r[2..] == Repair(Inside, s[2..]);
    if s[1] == 'u' {
      HexSurvives(s[2..], 4, 0);
      if Hex(s[2..], 4, 0).Some? {
        BodySurvives(s[6..]);
        assert r[6..] == r[2..][4..] && s[6..] == s[2..][4..];
      }
    } else {
      BodySurvives(s[2..]);
    }
  }

  lemma {:induction false} LexSurvives(s: string)
    ensures Lex(false, Repair(Outside, s)) == Lex(true, s)
    decreases |s|
  {
    if s == "" {
    } else if s[0] != '"' {
      assert Repair(Outside, s)[1..] == Repair(Outside, s[1..]);
      LexSurvives(s[1..]);
    } else {
      assert Repair(Outside, s)[1..] == Repair(Inside, s[1..]);
      BodySurvives(s[1..]);
      var b := StringBody(true, s[1..]);
      if b.Some? { LexSurvives(b.value.rest); }
    }
  }

  /** Decoding the repaired text strictly gives what decoding the original leniently gives, failure
      included, for every text and every grammar. */
  lemma RepairPreservesMeaning<V>(grammar: seq<Token> -> Option<V>, s: string)
    ensures Decode(false, grammar, Repair(Outside, s)) == Decode(true, grammar, s)
  {
    LexSurvives(s);
  }

  // -------- shape of the repaired text --------

  lemma {:induction false} RepairGrowsByRawCount(m: Mode, s: string)
    ensures |Repair(m, s)| == |s| + RawCount(m, s) <= 2 * |s|
    ensures ModeAfter(m, Repair(m, s)) == ModeAfter(m, s)
    decreases |s|
  {
    if s != "" {
      var rest := Repair(Step(m, s[0]), s[1..]);
      RepairGrowsByRawCount(Step(m, s[0]), s[1..]);
      PieceFirst(m, s[0], rest);
    }
  }

  /** A piece keeps the mode, holds nothing raw in a string and is not repaired again. */
  lemma PieceFirst(m: Mode, c: char, rest: string)
    ensures ModeAfter(m, Piece(m, c) + rest) == ModeAfter(Step(m, c), rest)
    ensures RawCount(m, Piece(m, c) + rest) == RawCount(Step(m, c), rest)
    ensures Repair(m, Piece(m, c) + rest) == Piece(m, c) + Repair(Step(m, c), rest)
  {
    var t := Piece(m, c) + rest;
    if m == Inside && IsRaw(c) {
      assert t[0] == '\\' && t[1..][0] == Letter(c) && t[1..][1..] == rest;
      assert ['\\'] + ([Letter(c)] + Repair(Inside, rest)) == Piece(m, c) + Repair(Inside, rest);
    } else {
      assert t[0] == c && t[1..] == rest;
    }
  }

  /** Repairing again changes nothing, and nothing raw is left in a string. */
  lemma {:induction false} RepairIsIdempotent(m: Mode, s: string)
    ensures Repair(m, Repair(m, s)) == Repair(m, s)
    ensures RawCount(m, Repair(m, s)) == 0
    decreases |s|
  {
    if s != "" {
      var rest := Repair(Step(m, s[0]), s[1..]);
      RepairIsIdempotent(Step(m, s[0]), s[1..]);
      PieceFirst(m, s[0], rest);
    }
  }

  /** The repair leaves a text alone exactly when there is nothing to repair. */
  lemma {:induction false} RepairIsIdentityIffNothingRaw(m: Mode, s: string)
    ensures Repair(m, s) == s <==> RawCount(m, s) == 0
    decreases |s|
  {
    if s != "" {
      RepairGrowsByRawCount(m, s);
      RepairIsIdentityIffNothingRaw(Step(m, s[0]), s[1..]);
      if RawCount(m, s) == 0 {
        assert [s[0]] + s[1..] == s;
      }
    }
  }

  lemma {:induction false} RawAt(m: Mode, s: string, i: nat)
    requires i < |s| && RawCount(m, s) == 0
    ensures ModeAfter(m, s[..i]) == Inside ==> !IsRaw(s[i])
    decreases |s|
  {
    if i > 0 {
      assert s[..i][1..] == s[1..][..i - 1];
      RawAt(Step(m, s[0]), s[1..], i - 1);
    }
  }

  lemma {:induction false} EscapedMeansBackslash(m: Mode, s: string)
    requires s != "" && ModeAfter(m, s) == Escaped
    ensures s[|s| - 1] == '\\'
    decreases |s|
  {
    if |s| > 1 { EscapedMeansBackslash(Step(m, s[0]), s[1..]); }
  }

  /** In the repaired text a raw newline, return or tab stands outside strings or directly after a backslash. */
  lemma RawOnlyAfterBackslash(s: string, i: nat)
    requires i < |Repair(Outside, s)| && IsRaw(Repair(Outside, s)[i])
    ensures var r := Repair(Outside, s);
            ModeAfter(Outside, r[..i]) == Outside || (i > 0 && r[i - 1] == '\\')
  {
    var r := Repair(Outside, s);
    RepairIsIdempotent(Outside, s);
    RawAt(Outside, r, i);
    if ModeAfter(Outside, r[..i]) == Escaped { EscapedMeansBackslash(Outside, r[..i]); }
  }
}
