/** Splitting a JSON object into display fields, and indenting JSON without touching its lexemes. */
module ToolInput {
  import opened Basics

  // `JSON.parse` itself is not modelled: its verdict on the whole input and its decoding of one
  // string lexeme are parameters.

  // ----- JSON values and their tokens ---------------------------------------------------

  datatype Json = Scalar(token: string) | Arr(items: seq<Json>) | Obj(members: seq<Member>)

  datatype Member = Member(name: string, value: Json)

  function Tokens(v: Json): (ts: seq<string>)
    ensures ts != []
    decreases v, 2
  {
    match v
    case Scalar(token) => [token]
    case Arr(items) => ["["] + (if items == [] then [] else ItemTokens(items)) + ["]"]
    case Obj(members) => ["{"] + (if members == [] then [] else MemberTokens(members)) + ["}"]
  }

  function ItemTokens(items: seq<Json>): (ts: seq<string>)
    requires items != []
    ensures ts != []
    decreases items, 0
  {
    Tokens(items[0]) + MoreItems(items[1..])
  }

  function MoreItems(items: seq<Json>): seq<string>
    decreases items, 1
  {
    if items == [] then [] else [","] + ItemTokens(items)
  }

  function MemberTokens(members: seq<Member>): (ts: seq<string>)
    requires members != []
    ensures ts != []
    decreases members, 0
  {
    [members[0].name] + ([":"] + (Tokens(members[0].value) + MoreMembers(members[1..])))
  }

  function MoreMembers(members: seq<Member>): seq<string>
    decreases members, 1
  {
    if members == [] then [] else [","] + MemberTokens(members)
  }

  // ----- lexing -----------------------------------------------------------------------------

  predicate IsPunct(c: char) {
    c == '{' || c == '}' || c == '[' || c == ']' || c == ',' || c == ':'
  }

  predicate IsDigit(c: char) {
    '0' <= c <= '9'
  }

  predicate IsSpace(c: char) {
    c == ' ' || c == '\n' || c == '\r' || c == '\t'
  }

  /** The end of the string literal whose contents start at `i`, or 0 when it never closes. */
  function StringEnd(s: string, i: nat): (n: nat)
    requires i <= |s|
    ensures n == 0 || i < n <= |s|
    decreases |s| - i
  {
    if i == |s| then 0
    else if s[i] == '"' then i + 1
    else if s[i] == '\\' then (if i + 1 < |s| then StringEnd(s, i + 2) else 0)
    else StringEnd(s, i + 1)
  }

  function DigitsEnd(s: string, i: nat): (n: nat)
    requires i <= |s|
    ensures i <= n <= |s|
    decreases |s| - i
  {
    if i < |s| && IsDigit(s[i]) then DigitsEnd(s, i + 1) else i
  }

  function FractionEnd(s: string, i: nat): nat
    requires i <= |s|
  {
    if i + 1 < |s| && s[i] == '.' && IsDigit(s[i + 1]) then DigitsEnd(s, i + 2) else i
  }

  function ExponentEnd(s: string, i: nat): nat
    requires i <= |s|
  {
    if i < |s| && (s[i] == 'e' || s[i] == 'E') then
      var j := if i + 1 < |s| && (s[i + 1] == '+' || s[i + 1] == '-') then i + 2 else i + 1;
      if j < |s| && IsDigit(s[j]) then DigitsEnd(s, j + 1) else i
    else i
  }

  /** The length of the number at the start of `s`, or 0. */
  function NumberLength(s: string): nat
  {
    var i := if s != "" && s[0] == '-' then 1 else 0;
    if i >= |s| || !IsDigit(s[i]) then 0
    else
      var whole := if s[i] == '0' then i + 1 else DigitsEnd(s, i + 1);
      ExponentEnd(s, FractionEnd(s, whole))
  }

  /** The length of the token at the start of `s`, or 0 when the expression does not match there. */
  function TokenLength(s: string): nat
  {
    if s == "" then 0
    else if s[0] == '"' then StringEnd(s, 1)
    else if s[0] == '-' || IsDigit(s[0]) then NumberLength(s)
    else if "true" <= s || "null" <= s then 4
    else if "false" <= s then 5
    else if IsPunct(s[0]) then 1
    else 0
  }

  /** All matches from left to right; characters that start no token are skipped. */
  function Lex(s: string): seq<string>
    decreases |s|
  {
    if s == "" then []
    else
      var n := TokenLength(s);
      if n == 0 then Lex(s[1..]) else [s[..n]] + Lex(s[n..])
  }

  /** The six structural characters (RFC 8259, section 2). */
  predicate IsPunctToken(t: string) {
    t == "{" || t == "}" || t == "[" || t == "]" || t == "," || t == ":"
  }

  lemma {:induction false} PunctIsOneChar(t: string)
    ensures IsPunctToken(t) <==> |t| == 1 && IsPunct(t[0])
  {
  }

  // ----- the scalars of JSON ------------------------------------------------------------------

  /** One or more digits. */
  predicate Digits(s: string) {
    s != "" && forall i :: 0 <= i < |s| ==> '0' <= s[i] <= '9'
  }

  predicate Hex(c: char) {
    '0' <= c <= '9' || 'a' <= c <= 'f' || 'A' <= c <= 'F'
  }

  /** The contents of a string (RFC 8259, section 7): characters from the space on other than
      the quotation mark and the backslash, and the escape sequences. */
  predicate Characters(s: string)
    decreases |s|
  {
    || s == ""
    || (s[0] != '"' && s[0] != '\\' && s[0] >= ' ' && Characters(s[1..]))
    || (|s| >= 2 && s[0] == '\\' && s[1] in "\"\\/bfnrt" && Characters(s[2..]))
    || (|s| >= 6 && s[0] == '\\' && s[1] == 'u' && Hex(s[2]) && Hex(s[3]) && Hex(s[4]) && Hex(s[5])
        && Characters(s[6..]))
  }

  predicate StringLexeme(t: string) {
    |t| >= 2 && t[0] == '"' && t[|t| - 1] == '"' && Characters(t[1..|t| - 1])
  }

  /** The parts of a number (RFC 8259, section 6). */
  predicate NumberParts(sign: string, whole: string, fraction: string, exponent: string) {
    && (sign == "" || sign == "-")
    && (whole == "0" || (Digits(whole) && whole[0] != '0'))
    && (fraction == "" || (fraction[0] == '.' && Digits(fraction[1..])))
    && (exponent == "" || ((exponent[0] == 'e' || exponent[0] == 'E') && Power(exponent[1..])))
  }

  predicate Power(s: string) {
    Digits(s) || (s != "" && (s[0] == '+' || s[0] == '-') && Digits(s[1..]))
  }

  ghost predicate NumberLexeme(t: string) {
    exists i, j, k :: 0 <= i <= j <= k <= |t| && NumberParts(t[..i], t[i..j], t[j..k], t[k..])
  }

  /** A string, a number or one of the three literals (RFC 8259, section 3). */
  ghost predicate Lexeme(t: string) {
    t == "true" || t == "false" || t == "null" || StringLexeme(t) || NumberLexeme(t)
  }

  /** What the lexer takes for a scalar, as one token in full. */
  predicate IsScalarToken(t: string) {
    t != "" && !IsPunct(t[0]) && TokenLength(t) == |t|
  }

  ghost predicate IsToken(t: string) {
    IsPunctToken(t) || Lexeme(t)
  }

  /** Where a scalar ends for certain. */
  predicate Delimited(rest: string) {
    rest == "" || IsSpace(rest[0]) || IsPunct(rest[0])
  }

  predicate Blank(s: string) {
    forall i :: 0 <= i < |s| ==> IsSpace(s[i])
  }

  /** `text` is the tokens with white space between them, and at least one space or a
      punctuation mark after every scalar. */
  ghost predicate Spells(text: string, tokens: seq<string>)
    decreases |tokens|
  {
    if tokens == [] then Blank(text)
    else exists gap, rest ::
        && Blank(gap) && text == gap + (tokens[0] + rest)
        && (IsPunctToken(tokens[0]) || Delimited(rest))
        && Spells(rest, tokens[1..])
  }

  /** Every scalar of JSON is lexed in full. */
  lemma {:induction false} LexemeIsScalar(t: string)
    requires Lexeme(t)
    ensures IsScalarToken(t)
  {
    if t == "true" || t == "false" || t == "null" {
      assert t[0] != '"' && t[0] != '-' && !IsDigit(t[0]);
    } else if StringLexeme(t) {
      StringIsLexed(t, 1);
    } else {
      var i, j, k :| 0 <= i <= j <= k <= |t| && NumberParts(t[..i], t[i..j], t[j..k], t[k..]);
      NumberIsLexed(t, i, j, k);
    }
  }

  lemma {:induction false} StringIsLexed(t: string, i: nat)
    requires |t| >= 2 && t[|t| - 1] == '"' && 1 <= i < |t| && Characters(t[i..|t| - 1])
    ensures StringEnd(t, i) == |t|
    decreases |t| - i
  {
    var s := t[i..|t| - 1];
    if s != "" {
      if s[0] != '\\' {
        assert s[1..] == t[i + 1..|t| - 1];
        StringIsLexed(t, i + 1);
      } else if s[1] != 'u' {
        assert s[2..] == t[i + 2..|t| - 1];
        StringIsLexed(t, i + 2);
      } else {
        assert !(s[1] in "\"\\/bfnrt");
        assert s[6..] == t[i + 6..|t| - 1];
        StringIsLexed(t, i + 6);
        HexSkipped(t, i + 2);
      }
    }
  }

  lemma {:induction false} HexSkipped(t: string, i: nat)
    requires i + 4 <= |t| && Hex(t[i]) && Hex(t[i + 1]) && Hex(t[i + 2]) && Hex(t[i + 3])
    ensures StringEnd(t, i) == StringEnd(t, i + 4)
  {
    assert StringEnd(t, i) == StringEnd(t, i + 1);
    assert StringEnd(t, i + 1) == StringEnd(t, i + 2);
    assert StringEnd(t, i + 2) == StringEnd(t, i + 3);
  }

  lemma {:induction false} DigitsRun(t: string, i: nat, j: nat)
    requires i <= j <= |t| && (forall k :: i <= k < j ==> IsDigit(t[k])) && (j == |t| || !IsDigit(t[j]))
    ensures DigitsEnd(t, i) == j
    decreases j - i
  {
    if i < j { DigitsRun(t, i + 1, j); }
  }

  lemma {:induction false} NumberIsLexed(t: string, i: nat, j: nat, k: nat)
    requires i <= j <= k <= |t| && NumberParts(t[..i], t[i..j], t[j..k], t[k..])
    ensures IsScalarToken(t)
  {
    WholeIsLexed(t, i, j);
    assert j < |t| ==> t[j] == if j < k then t[j..k][0] else t[k..][0];
    FractionIsLexed(t, j, k);
    ExponentIsLexed(t, k);
    assert if i == 0 then t[0] == t[i..j][0] else i == 1 && t[..i][0] == t[0];
    NumberByParts(t, i, j, k);
  }

  lemma {:induction false} NumberByParts(t: string, i: nat, j: nat, k: nat)
    requires i < |t| && (if i == 0 then t[0] != '-' else i == 1 && t[0] == '-') && IsDigit(t[i])
    requires j <= |t| && (if t[i] == '0' then i + 1 else DigitsEnd(t, i + 1)) == j
    requires k <= |t| && FractionEnd(t, j) == k && ExponentEnd(t, k) == |t|
    ensures IsScalarToken(t)
  {
    assert NumberLength(t) == |t|;
  }

  lemma {:induction false} WholeIsLexed(t: string, i: nat, j: nat)
    requires i <= j <= |t| && (t[i..j] == "0" || (Digits(t[i..j]) && t[i..j][0] != '0'))
    ensures i < j && IsDigit(t[i])
    ensures t[i] == '0' ==> j == i + 1
    ensures (j == |t| || !IsDigit(t[j])) && t[i] != '0' ==> DigitsEnd(t, i + 1) == j
  {
    var whole := t[i..j];
    assert t[i] == whole[0];
    forall n | i <= n < j ensures IsDigit(t[n]) { assert t[n] == whole[n - i]; }
    if (j == |t| || !IsDigit(t[j])) && t[i] != '0' { DigitsRun(t, i + 1, j); }
  }

  lemma {:induction false} FractionIsLexed(t: string, j: nat, k: nat)
    requires j <= k <= |t| && (j == k || (t[j..k][0] == '.' && Digits(t[j..k][1..])))
    requires k == |t| || t[k] == 'e' || t[k] == 'E'
    ensures FractionEnd(t, j) == k
  {
    if j < k {
      var digits := t[j..k][1..];
      assert t[j] == t[j..k][0];
      forall n | j + 1 <= n < k ensures IsDigit(t[n]) { assert t[n] == digits[n - j - 1]; }
      assert |digits| == k - j - 1;
      DigitsRun(t, j + 2, k);
    }
  }

  lemma {:induction false} ExponentIsLexed(t: string, k: nat)
    requires k <= |t| && (k == |t| || ((t[k] == 'e' || t[k] == 'E') && Power(t[k..][1..])))
    ensures ExponentEnd(t, k) == |t|
  {
    if k < |t| {
      var power := t[k..][1..];
      assert power == t[k + 1..] && t[k + 1] == power[0];
      if Digits(power) {
        forall n | k + 1 <= n < |t| ensures IsDigit(t[n]) { assert t[n] == power[n - k - 1]; }
        DigitsRun(t, k + 2, |t|);
      } else {
        var digits := power[1..];
        assert t[k + 2] == digits[0];
        forall n | k + 2 <= n < |t| ensures IsDigit(t[n]) { assert t[n] == digits[n - k - 2]; }
        DigitsRun(t, k + 3, |t|);
      }
    }
  }

  lemma {:induction false} StringEndStable(t: string, rest: string, i: nat)
    requires i <= |t| && StringEnd(t, i) != 0
    ensures StringEnd(t + rest, i) == StringEnd(t, i)
    decreases |t| - i
  {
    if i < |t| && t[i] != '"' {
      if t[i] == '\\' { StringEndStable(t, rest, i + 2); } else { StringEndStable(t, rest, i + 1); }
    }
  }

  lemma {:induction false} DigitsEndStable(t: string, rest: string, i: nat)
    requires i <= |t| && Delimited(rest)
    ensures DigitsEnd(t + rest, i) == DigitsEnd(t, i)
    decreases |t| - i
  {
    if i < |t| && IsDigit(t[i]) { DigitsEndStable(t, rest, i + 1); }
  }

  lemma {:induction false} FractionStable(t: string, rest: string, i: nat)
    requires i <= |t| && Delimited(rest)
    ensures FractionEnd(t + rest, i) == FractionEnd(t, i)
  {
    if i + 2 <= |t| { DigitsEndStable(t, rest, i + 2); }
  }

  lemma {:induction false} ExponentStable(t: string, rest: string, i: nat)
    requires i <= |t| && Delimited(rest)
    ensures ExponentEnd(t + rest, i) == ExponentEnd(t, i)
  {
    var s := t + rest;
    if i < |t| && (t[i] == 'e' || t[i] == 'E') {
      var j := if i + 1 < |t| && (t[i + 1] == '+' || t[i + 1] == '-') then i + 2 else i + 1;
      assert i + 1 < |s| ==> s[i + 1] == if i + 1 < |t| then t[i + 1] else rest[0];
      if j < |t| {
        DigitsEndStable(t, rest, j + 1);
      } else if j < |s| {
        assert s[j] == rest[0];
      }
    }
  }

  lemma {:induction false} NumberStable(t: string, rest: string)
    requires t != "" && NumberLength(t) == |t| && Delimited(rest)
    ensures NumberLength(t + rest) == |t|
  {
    var i := if t[0] == '-' then 1 else 0;
    assert i < |t| && IsDigit(t[i]) && (t + rest)[i] == t[i] && (t + rest)[0] == t[0];
    DigitsEndStable(t, rest, i + 1);
    var whole := if t[i] == '0' then i + 1 else DigitsEnd(t, i + 1);
    FractionStable(t, rest, whole);
    ExponentStable(t, rest, FractionEnd(t, whole));
  }

  lemma {:induction false} TokenStable(t: string, rest: string)
    requires IsToken(t) && (IsPunctToken(t) || Delimited(rest))
    ensures TokenLength(t + rest) == |t|
  {
    PunctIsOneChar(t);
    if !IsPunctToken(t) { LexemeIsScalar(t); }
    if t[0] == '"' {
      StringEndStable(t, rest, 1);
    } else if t[0] == '-' || IsDigit(t[0]) {
      NumberStable(t, rest);
    } else if !IsPunct(t[0]) {
      assert (t + rest)[..|t|] == t;
    }
  }

  lemma {:induction false} LexSkipsBlank(gap: string, rest: string)
    requires Blank(gap)
    ensures Lex(gap + rest) == Lex(rest)
    decreases |gap|
  {
    if gap == "" {
      assert gap + rest == rest;
    } else {
      assert (gap + rest)[1..] == gap[1..] + rest && TokenLength(gap + rest) == 0;
      LexSkipsBlank(gap[1..], rest);
    }
  }

  /** Lexing any spelling of a token sequence gives that sequence back. */
  lemma {:induction false} LexSpelling(text: string, tokens: seq<string>)
    requires Spells(text, tokens) && forall i :: 0 <= i < |tokens| ==> IsToken(tokens[i])
    ensures Lex(text) == tokens
    decreases |tokens|
  {
    if tokens == [] {
      LexSkipsBlank(text, "");
      assert text + "" == text;
    } else {
      var gap, rest :| Blank(gap) && text == gap + (tokens[0] + rest)
        && (IsPunctToken(tokens[0]) || Delimited(rest)) && Spells(rest, tokens[1..]);
      LexOne(gap, tokens[0], rest);
      LexSpelling(rest, tokens[1..]);
      HeadTail(tokens);
    }
  }

  lemma {:induction false} LexOne(gap: string, t: string, rest: string)
    requires Blank(gap) && IsToken(t) && (IsPunctToken(t) || Delimited(rest))
    ensures Lex(gap + (t + rest)) == [t] + Lex(rest)
  {
    LexSkipsBlank(gap, t + rest);
    TokenStable(t, rest);
    PunctIsOneChar(t);
    if !IsPunctToken(t) { LexemeIsScalar(t); }
    assert (t + rest)[..|t|] == t && (t + rest)[|t|..] == rest;
  }

  // ----- the formatter ----------------------------------------------------------------------

  function Indent(depth: nat): string {
    if depth == 0 then "" else "  " + Indent(depth - 1)
  }

  function NewLine(depth: nat): string {
    "\n" + Indent(depth)
  }

  /** The token that is just the mark `c`. */
  predicate Is(t: string, c: char) { |t| == 1 && t[0] == c }

  predicate Opens(t: string) { Is(t, '{') || Is(t, '[') }

  predicate Closes(t: string) { Is(t, '}') || Is(t, ']') }

  lemma {:induction false} Literals(t: string)
    ensures t == "{" || t == "[" <==> Opens(t)
    ensures t == "}" || t == "]" <==> Closes(t)
    ensures t == "," <==> Is(t, ',')
    ensures t == ":" <==> Is(t, ':')
    ensures t == "}" <==> Is(t, '}')
  {
  }

  /** What one token contributes at `depth`, and the depth after it; nothing when the depth
      would become negative, where `String.prototype.repeat` raises. */
  function Piece(tokens: seq<string>, i: nat, depth: nat): Option<(string, nat)>
    requires i < |tokens|
  {
    var t := tokens[i];
    if Opens(t) then
      if i + 1 < |tokens| && Closes(tokens[i + 1]) then Some((t, depth))
      else Some((t + NewLine(depth + 1), depth + 1))
    else if Closes(t) then
      if i > 0 && Opens(tokens[i - 1]) then Some((t, depth))
      else if depth == 0 then None
      else Some((NewLine(depth - 1) + t, depth - 1))
    else if Is(t, ',') then Some((t + NewLine(depth), depth))
    else if Is(t, ':') then Some((t + " ", depth))
    else Some((t, depth))
  }

  function PrependText(text: string, more: Option<(string, nat)>): Option<(string, nat)> {
    if more.Some? then Some((text + more.value.0, more.value.1)) else None
  }

  /** The formatted tokens from `i` on, and the final depth. */
  function FormatFrom(tokens: seq<string>, i: nat, depth: nat): Option<(string, nat)>
    requires i <= |tokens|
    decreases |tokens| - i
  {
    if i == |tokens| then Some(("", depth))
    else match Piece(tokens, i, depth)
      case None => None
      case Some((text, after)) => PrependText(text, FormatFrom(tokens, i + 1, after))
  }

  lemma {:induction false} PrependTextFacts(a: string, b: string, more: Option<(string, nat)>)
    ensures PrependText("", more) == more
    ensures PrependText(a, PrependText(b, more)) == PrependText(a + b, more)
    ensures forall depth: nat :: PrependText(a, Some(("", depth))) == Some((a, depth))
  {
    assert a + "" == a;
    if more.Some? {
      assert "" + more.value.0 == more.value.0;
      Assoc(a, b, more.value.0);
    }
  }

  lemma {:induction false} FormatStep(tokens: seq<string>, i: nat, depth: nat, before: string)
    requires i < |tokens|
    ensures match Piece(tokens, i, depth)
            case None => FormatFrom(tokens, i, depth) == None
            case Some((text, after)) =>
              PrependText(before, FormatFrom(tokens, i, depth)) ==
              PrependText(before + text, FormatFrom(tokens, i + 1, after))
  {
    match Piece(tokens, i, depth)
    case None =>
    case Some((text, after)) => PrependTextFacts(before, text, FormatFrom(tokens, i + 1, after));
  }

  method Repeat(depth: int) returns (text: Option<string>)
    ensures text == if depth < 0 then None else Some(Indent(depth))
  {
    if depth < 0 {
      return None;
    }
    var done, s := 0, "";
    while done < depth
      invariant 0 <= done <= depth
      invariant s == Indent(done)
    {
      s := "  " + s;
      done := done + 1;
    }
    text := Some(s);
  }

  /** The body of the loop: what one token adds to the text, and the depth after it. */
  method FormatOne(tokens: seq<string>, index: nat, depth0: nat, text0: string) returns (text: string, depth: int)
    requires index < |tokens|
    ensures match Piece(tokens, index, depth0)
            case None => depth < 0
            case Some((piece, after)) => text == text0 + piece && depth == after
  {
    var token := tokens[index];
    text, depth := text0, depth0;
    Literals(token);
    if index + 1 < |tokens| { Literals(tokens[index + 1]); }
    if index > 0 { Literals(tokens[index - 1]); }
    if token == "{" || token == "[" {
      text := text + token;
      if index + 1 == |tokens| || (tokens[index + 1] != "}" && tokens[index + 1] != "]") {
        depth := depth + 1;
        var indent := Repeat(depth);
        text := text + ("\n" + indent.value);
        assert text == text0 + (token + NewLine(depth));
      }
    } else if token == "}" || token == "]" {
      if index == 0 || (tokens[index - 1] != "{" && tokens[index - 1] != "[") {
        depth := depth - 1;
        var indent := Repeat(depth);
        if indent == None {
          return;
        }
        text := text + ("\n" + indent.value);
        assert text + token == text0 + (NewLine(depth) + token);
      }
      text := text + token;
    } else if token == "," {
      var indent := Repeat(depth);
      text := text + (",\n" + indent.value);
      assert text == text0 + (token + NewLine(depth));
    } else if token == ":" {
      text := text + ": ";
      assert token + " " == ": ";
    } else {
      text := text + token;
    }
  }

  method FormatTokens(tokens: seq<string>) returns (output: Option<string>)
    ensures output == if FormatFrom(tokens, 0, 0).Some? then Some(FormatFrom(tokens, 0, 0).value.0) else None
  {
    var depth: int := 0;
    var text := "";
    PrependTextFacts("", "", FormatFrom(tokens, 0, 0));
    var index := 0;
    while index < |tokens|
      invariant 0 <= index <= |tokens| && depth >= 0
      invariant FormatFrom(tokens, 0, 0) == PrependText(text, FormatFrom(tokens, index, depth))
    {
      FormatStep(tokens, index, depth, text);
      text, depth := FormatOne(tokens, index, depth, text);
      if depth < 0 {
        return None;
      }
      index := index + 1;
    }
    PrependTextFacts(text, "", FormatFrom(tokens, index, depth));
    output := Some(text);
  }

  /** An indented line starts with two spaces for every level. */
  lemma {:induction false} IndentIsSpaces(depth: nat)
    ensures NewLine(depth) == "\n" + Indent(depth) && |Indent(depth)| == 2 * depth
    ensures forall c :: c in Indent(depth) ==> c == ' '
  {
    if depth > 0 { IndentIsSpaces(depth - 1); }
  }

  // ----- the formatter neither loses nor invents tokens, whatever it is given ------------------

  /** Scalars never stand next to each other. */
  ghost predicate Punctuated(tokens: seq<string>) {
    && (forall i :: 0 <= i < |tokens| ==> IsToken(tokens[i]))
    && forall i :: 0 <= i < |tokens| - 1 ==> IsPunctToken(tokens[i]) || IsPunctToken(tokens[i + 1])
  }

  lemma {:induction false} BlankIndent(depth: nat)
    ensures Blank(Indent(depth))
  {
    if depth > 0 { BlankIndent(depth - 1); }
  }

  lemma {:induction false} SpellsCons(gap: string, t: string, gap': string, rest: string, tokens: seq<string>)
    requires Blank(gap) && Blank(gap') && Spells(rest, tokens)
    requires IsPunctToken(t) || Delimited(gap' + rest)
    ensures Spells(gap + (t + (gap' + rest)), [t] + tokens)
  {
    SpellsGap(gap', rest, tokens);
    assert ([t] + tokens)[1..] == tokens;
  }

  lemma {:induction false} SpellsGap(gap: string, text: string, tokens: seq<string>)
    requires Blank(gap) && Spells(text, tokens)
    ensures Spells(gap + text, tokens)
  {
    if tokens != [] {
      var g, rest :| Blank(g) && text == g + (tokens[0] + rest)
        && (IsPunctToken(tokens[0]) || Delimited(rest)) && Spells(rest, tokens[1..]);
      Assoc(gap, g, tokens[0] + rest);
      assert Blank(gap + g);
    }
  }

  /** A piece is its token between two blank gaps; only punctuation has a gap. */
  lemma {:induction false} PieceGaps(tokens: seq<string>, i: nat, depth: nat) returns (gap: string, gap': string)
    requires i < |tokens| && IsToken(tokens[i]) && Piece(tokens, i, depth).Some?
    ensures Blank(gap) && Blank(gap')
    ensures Piece(tokens, i, depth).value.0 == gap + (tokens[i] + gap')
    ensures IsPunctToken(tokens[i]) || gap' == ""
    ensures gap == "" || gap[0] == '\n'
  {
    var t := tokens[i];
    gap, gap' := "", "";
    if Opens(t) {
      if !(i + 1 < |tokens| && Closes(tokens[i + 1])) {
        BlankIndent(depth + 1);
        gap' := NewLine(depth + 1);
      }
    } else if Closes(t) {
      if !(i > 0 && Opens(tokens[i - 1])) {
        BlankIndent(depth - 1);
        gap := NewLine(depth - 1);
      }
    } else if Is(t, ',') {
      BlankIndent(depth);
      gap' := NewLine(depth);
    } else if Is(t, ':') {
      gap' := " ";
    }
  }

  lemma {:induction false} FormatSpells(tokens: seq<string>, i: nat, depth: nat)
    requires i <= |tokens| && Punctuated(tokens) && FormatFrom(tokens, i, depth).Some?
    ensures Spells(FormatFrom(tokens, i, depth).value.0, tokens[i..])
    ensures i == |tokens| || IsPunctToken(tokens[i]) ==> Delimited(FormatFrom(tokens, i, depth).value.0)
    decreases |tokens| - i
  {
    if i < |tokens| {
      var t := tokens[i];
      var (piece, after) := Piece(tokens, i, depth).value;
      var rest := FormatFrom(tokens, i + 1, after).value.0;
      FormatSpells(tokens, i + 1, after);
      var gap, gap' := PieceGaps(tokens, i, depth);
      Assoc(gap, t + gap', rest);
      Assoc(t, gap', rest);
      assert "" + rest == rest;
      assert i + 1 < |tokens| ==> IsPunctToken(tokens[i]) || IsPunctToken(tokens[i + 1]);
      SpellsCons(gap, t, gap', rest, tokens[i + 1..]);
      SliceTail(tokens, i, |tokens|);
      HeadTail(tokens[i..]);
    }
  }

  /** Lexing the formatter's output gives back exactly the tokens it was given. */
  lemma {:induction false} FormatThenLex(tokens: seq<string>)
    requires Punctuated(tokens) && FormatFrom(tokens, 0, 0).Some?
    ensures Lex(FormatFrom(tokens, 0, 0).value.0) == tokens
  {
    FormatSpells(tokens, 0, 0);
    assert tokens[0..] == tokens;
    LexSpelling(FormatFrom(tokens, 0, 0).value.0, tokens);
  }

  // ----- on the tokens of a JSON value ------------------------------------------------------

  ghost predicate JsonOk(v: Json)
    decreases v, 1
  {
    match v
    case Scalar(token) => Lexeme(token)
    case Arr(items) => ItemsOk(items)
    case Obj(members) => MembersOk(members)
  }

  ghost predicate ItemsOk(items: seq<Json>)
    decreases items, 0
  {
    items == [] || (JsonOk(items[0]) && ItemsOk(items[1..]))
  }

  /** Names are string lexemes; a name may occur more than once. */
  ghost predicate MembersOk(members: seq<Member>)
    decreases members, 0
  {
    members == [] || (StringLexeme(members[0].name)
                      && JsonOk(members[0].value) && MembersOk(members[1..]))
  }

  /** The indented text of a value whose first line starts at `depth`. */
  function Pretty(v: Json, depth: nat): string
    decreases v, 2
  {
    match v
    case Scalar(token) => token
    case Arr(items) =>
      if items == [] then "[]"
      else "[" + NewLine(depth + 1) + PrettyItems(items, depth + 1) + NewLine(depth) + "]"
    case Obj(members) =>
      if members == [] then "{}"
      else "{" + NewLine(depth + 1) + PrettyMembers(members, depth + 1) + NewLine(depth) + "}"
  }

  function PrettyItems(items: seq<Json>, depth: nat): string
    requires items != []
    decreases items, 0
  {
    Pretty(items[0], depth) + PrettyMoreItems(items[1..], depth)
  }

  function PrettyMoreItems(items: seq<Json>, depth: nat): string
    decreases items, 1
  {
    if items == [] then "" else "," + NewLine(depth) + PrettyItems(items, depth)
  }

  function PrettyMembers(members: seq<Member>, depth: nat): string
    requires members != []
    decreases members, 0
  {
    members[0].name + ": " + (Pretty(members[0].value, depth) + PrettyMoreMembers(members[1..], depth))
  }

  function PrettyMoreMembers(members: seq<Member>, depth: nat): string
    decreases members, 1
  {
    if members == [] then "" else "," + NewLine(depth) + PrettyMembers(members, depth)
  }

  /** The tokens `part` stand at position `i`. */
  ghost predicate At(tokens: seq<string>, i: nat, part: seq<string>) {
    i + |part| <= |tokens| && forall k {:trigger part[k]} :: 0 <= k < |part| ==> tokens[i + k] == part[k]
  }

  lemma {:induction false} AtConcat(tokens: seq<string>, i: nat, a: seq<string>, b: seq<string>)
    requires At(tokens, i, a + b)
    ensures At(tokens, i, a) && At(tokens, i + |a|, b)
  {
    forall k | 0 <= k < |a| ensures tokens[i + k] == a[k] {
      assert (a + b)[k] == a[k];
    }
    forall k | 0 <= k < |b| ensures tokens[i + |a| + k] == b[k] {
      assert (a + b)[|a| + k] == b[k];
    }
  }

  lemma {:induction false} AtHead(tokens: seq<string>, i: nat, part: seq<string>)
    requires At(tokens, i, part) && part != []
    ensures i < |tokens| && tokens[i] == part[0]
  {
  }

  /** A value ends with a scalar or a closing bracket. */
  lemma {:induction false} LastToken(v: Json)
    requires JsonOk(v)
    ensures !Opens(Tokens(v)[|Tokens(v)| - 1])
  {
  }

  lemma {:induction false} LastItemToken(items: seq<Json>)
    requires ItemsOk(items) && items != []
    ensures !Opens(ItemTokens(items)[|ItemTokens(items)| - 1])
    ensures ItemTokens(items)[0] == Tokens(items[0])[0]
  {
    LastToken(items[0]);
    if |items| > 1 { LastItemToken(items[1..]); } else { assert ItemTokens(items) == Tokens(items[0]); }
  }

  lemma {:induction false} LastMemberToken(members: seq<Member>)
    requires MembersOk(members) && members != []
    ensures !Opens(MemberTokens(members)[|MemberTokens(members)| - 1])
    ensures MemberTokens(members)[0] == members[0].name
  {
    LastToken(members[0].value);
    if |members| > 1 {
      LastMemberToken(members[1..]);
    } else {
      assert Tokens(members[0].value) + MoreMembers(members[1..]) == Tokens(members[0].value);
    }
  }

  /** From `i` to `j` the formatter writes `text` and is back at the same depth. */
  ghost predicate Writes(tokens: seq<string>, i: nat, j: nat, depth: nat, text: string) {
    i <= j <= |tokens| && FormatFrom(tokens, i, depth) == PrependText(text, FormatFrom(tokens, j, depth))
  }

  lemma {:induction false} WritesConcat(tokens: seq<string>, i: nat, j: nat, k: nat, depth: nat, a: string, b: string)
    requires Writes(tokens, i, j, depth, a) && Writes(tokens, j, k, depth, b)
    ensures Writes(tokens, i, k, depth, a + b)
  {
    PrependTextFacts(a, b, FormatFrom(tokens, k, depth));
  }

  lemma {:induction false} WritesNothing(tokens: seq<string>, i: nat, depth: nat)
    requires i <= |tokens|
    ensures Writes(tokens, i, i, depth, "")
  {
    PrependTextFacts("", "", FormatFrom(tokens, i, depth));
  }

  /** A token that leaves the depth alone. */
  lemma {:induction false} WritesOne(tokens: seq<string>, i: nat, depth: nat)
    requires i < |tokens| && !Opens(tokens[i]) && !Closes(tokens[i])
    ensures Writes(tokens, i, i + 1, depth,
                   tokens[i] + if Is(tokens[i], ',') then NewLine(depth) else if Is(tokens[i], ':') then " " else "")
  {
    assert tokens[i] + "" == tokens[i];
  }

  /** A non-empty pair of brackets around what is already known to be written. */
  lemma {:induction false} WritesNest(tokens: seq<string>, i: nat, j: nat, depth: nat, text: string)
    requires i + 1 < j < |tokens| && Opens(tokens[i]) && Closes(tokens[j])
    requires !Closes(tokens[i + 1]) && !Opens(tokens[j - 1])
    requires Writes(tokens, i + 1, j, depth + 1, text)
    ensures Writes(tokens, i, j + 1, depth, tokens[i] + NewLine(depth + 1) + text + NewLine(depth) + tokens[j])
  {
    var open, close := tokens[i] + NewLine(depth + 1), NewLine(depth) + tokens[j];
    var rest := FormatFrom(tokens, j + 1, depth);
    PrependTextFacts(text, close, rest);
    PrependTextFacts(open, text + close, rest);
    Assoc(open, text, close);
    Assoc(open + text, NewLine(depth), tokens[j]);
  }

  lemma {:induction false} WritesEmpty(tokens: seq<string>, i: nat, depth: nat)
    requires i + 1 < |tokens| && Opens(tokens[i]) && Closes(tokens[i + 1])
    ensures Writes(tokens, i, i + 2, depth, tokens[i] + tokens[i + 1])
  {
    PrependTextFacts(tokens[i], tokens[i + 1], FormatFrom(tokens, i + 2, depth));
  }

  /** Wherever the tokens of a value stand, the formatter writes its indented text there and
      comes out at the depth it went in. */
  lemma {:induction false} ValueFormats(tokens: seq<string>, i: nat, v: Json, depth: nat)
    requires JsonOk(v) && At(tokens, i, Tokens(v))
    ensures Writes(tokens, i, i + |Tokens(v)|, depth, Pretty(v, depth))
    decreases v, 3
  {
    match v
    case Scalar(token) => ScalarFormats(tokens, i, token, depth);
    case Arr(items) =>
      if items == [] {
        Bracketed(tokens, i, "[", [], "]");
        WritesEmpty(tokens, i, depth);
        assert "[" + "]" == "[]";
      } else {
        ArrFormats(tokens, i, items, depth);
      }
    case Obj(members) =>
      if members == [] {
        Bracketed(tokens, i, "{", [], "}");
        WritesEmpty(tokens, i, depth);
        assert "{" + "}" == "{}";
      } else {
        ObjFormats(tokens, i, members, depth);
      }
  }

  lemma {:induction false} ScalarFormats(tokens: seq<string>, i: nat, token: string, depth: nat)
    requires Lexeme(token) && At(tokens, i, [token])
    ensures Writes(tokens, i, i + 1, depth, token)
  {
    LexemeIsScalar(token);
    AtHead(tokens, i, [token]);
    WritesOne(tokens, i, depth);
    assert token + "" == token;
  }

  lemma {:induction false} ArrFormats(tokens: seq<string>, i: nat, items: seq<Json>, depth: nat)
    requires items != [] && ItemsOk(items) && At(tokens, i, ["["] + ItemTokens(items) + ["]"])
    ensures Writes(tokens, i, i + 2 + |ItemTokens(items)|, depth, Pretty(Arr(items), depth))
    decreases items, 1
  {
    var inner := ItemTokens(items);
    Bracketed(tokens, i, "[", inner, "]");
    LastItemToken(items);
    AtEnds(tokens, i + 1, inner);
    ItemsFormat(tokens, i + 1, items, depth + 1);
    WritesNest(tokens, i, i + 1 + |inner|, depth, PrettyItems(items, depth + 1));
  }

  lemma {:induction false} ObjFormats(tokens: seq<string>, i: nat, members: seq<Member>, depth: nat)
    requires members != [] && MembersOk(members) && At(tokens, i, ["{"] + MemberTokens(members) + ["}"])
    ensures Writes(tokens, i, i + 2 + |MemberTokens(members)|, depth, Pretty(Obj(members), depth))
    decreases members, 1
  {
    var inner := MemberTokens(members);
    Bracketed(tokens, i, "{", inner, "}");
    LastMemberToken(members);
    AtEnds(tokens, i + 1, inner);
    MembersFormat(tokens, i + 1, members, depth + 1);
    WritesNest(tokens, i, i + 1 + |inner|, depth, PrettyMembers(members, depth + 1));
  }

  lemma {:induction false} AtEnds(tokens: seq<string>, i: nat, part: seq<string>)
    requires At(tokens, i, part) && part != []
    ensures i + |part| <= |tokens| && tokens[i] == part[0] && tokens[i + |part| - 1] == part[|part| - 1]
  {
  }

  lemma {:induction false} Bracketed(tokens: seq<string>, i: nat, open: string, inner: seq<string>, close: string)
    requires At(tokens, i, [open] + inner + [close])
    ensures i + |inner| + 1 < |tokens|
    ensures tokens[i] == open && tokens[i + 1 + |inner|] == close && At(tokens, i + 1, inner)
  {
    AtConcat(tokens, i, [open] + inner, [close]);
    AtConcat(tokens, i, [open], inner);
    AtHead(tokens, i, [open]);
    AtHead(tokens, i + 1 + |inner|, [close]);
  }

  lemma {:induction false} ItemsFormat(tokens: seq<string>, i: nat, items: seq<Json>, depth: nat)
    requires items != [] && ItemsOk(items) && At(tokens, i, ItemTokens(items))
    ensures Writes(tokens, i, i + |ItemTokens(items)|, depth, PrettyItems(items, depth))
    decreases items, 0
  {
    var j := i + |Tokens(items[0])|;
    AtConcat(tokens, i, Tokens(items[0]), MoreItems(items[1..]));
    ValueFormats(tokens, i, items[0], depth);
    MoreItemsFormat(tokens, j, items[1..], depth);
    WritesConcat(tokens, i, j, i + |ItemTokens(items)|, depth,
                 Pretty(items[0], depth), PrettyMoreItems(items[1..], depth));
  }

  /** A comma, and what is already known to be written after it. */
  lemma {:induction false} CommaThen(tokens: seq<string>, i: nat, rest: seq<string>, depth: nat, text: string)
    requires At(tokens, i, [","] + rest) && Writes(tokens, i + 1, i + 1 + |rest|, depth, text)
    ensures Writes(tokens, i, i + 1 + |rest|, depth, "," + NewLine(depth) + text)
  {
    AtHead(tokens, i, [","] + rest);
    WritesOne(tokens, i, depth);
    WritesConcat(tokens, i, i + 1, i + 1 + |rest|, depth, "," + NewLine(depth), text);
  }

  lemma {:induction false} MoreItemsFormat(tokens: seq<string>, i: nat, items: seq<Json>, depth: nat)
    requires ItemsOk(items) && At(tokens, i, MoreItems(items))
    ensures Writes(tokens, i, i + |MoreItems(items)|, depth, PrettyMoreItems(items, depth))
    decreases items, 1
  {
    if items == [] {
      WritesNothing(tokens, i, depth);
    } else {
      AtConcat(tokens, i, [","], ItemTokens(items));
      ItemsFormat(tokens, i + 1, items, depth);
      CommaThen(tokens, i, ItemTokens(items), depth, PrettyItems(items, depth));
    }
  }

  lemma {:induction false} MembersFormat(tokens: seq<string>, i: nat, members: seq<Member>, depth: nat)
    requires members != [] && MembersOk(members) && At(tokens, i, MemberTokens(members))
    ensures Writes(tokens, i, i + |MemberTokens(members)|, depth, PrettyMembers(members, depth))
    decreases members, 0
  {
    var value := members[0].value;
    var j, k := i + 2 + |Tokens(value)|, i + |MemberTokens(members)|;
    var text, more := Pretty(value, depth), PrettyMoreMembers(members[1..], depth);
    PartsOf(tokens, i, members[0].name, Tokens(value), MoreMembers(members[1..]));
    NameFormats(tokens, i, depth);
    ValueFormats(tokens, i + 2, value, depth);
    MoreMembersFormat(tokens, j, members[1..], depth);
    ThreeWrites(tokens, i, i + 2, j, k, depth, members[0].name + ": ", text, more);
  }

  lemma {:induction false} ThreeWrites(tokens: seq<string>, i: nat, m: nat, j: nat, k: nat, depth: nat, a: string,
                                       b: string, c: string)
    requires Writes(tokens, i, m, depth, a) && Writes(tokens, m, j, depth, b) && Writes(tokens, j, k, depth, c)
    ensures Writes(tokens, i, k, depth, a + (b + c))
  {
    WritesConcat(tokens, m, j, k, depth, b, c);
    WritesConcat(tokens, i, m, k, depth, a, b + c);
  }

  lemma {:induction false} NameFormats(tokens: seq<string>, i: nat, depth: nat)
    requires i + 1 < |tokens| && StringLexeme(tokens[i]) && tokens[i + 1] == ":"
    ensures Writes(tokens, i, i + 2, depth, tokens[i] + ": ")
  {
    WritesOne(tokens, i, depth);
    WritesOne(tokens, i + 1, depth);
    assert tokens[i] + "" == tokens[i] && ":" + " " == ": ";
    WritesConcat(tokens, i, i + 1, i + 2, depth, tokens[i], ": ");
  }

  lemma {:induction false} MoreMembersFormat(tokens: seq<string>, i: nat, members: seq<Member>, depth: nat)
    requires MembersOk(members) && At(tokens, i, MoreMembers(members))
    ensures Writes(tokens, i, i + |MoreMembers(members)|, depth, PrettyMoreMembers(members, depth))
    decreases members, 1
  {
    if members == [] {
      WritesNothing(tokens, i, depth);
    } else {
      AtConcat(tokens, i, [","], MemberTokens(members));
      MembersFormat(tokens, i + 1, members, depth);
      CommaThen(tokens, i, MemberTokens(members), depth, PrettyMembers(members, depth));
    }
  }

  lemma {:induction false} PartsOf(tokens: seq<string>, i: nat, name: string, value: seq<string>, tail: seq<string>)
    requires At(tokens, i, [name] + ([":"] + (value + tail)))
    ensures i + 2 + |value| <= |tokens| && tokens[i] == name && tokens[i + 1] == ":"
    ensures At(tokens, i + 2, value) && At(tokens, i + 2 + |value|, tail)
  {
    AtConcat(tokens, i, [name], [":"] + (value + tail));
    AtConcat(tokens, i + 1, [":"], value + tail);
    AtConcat(tokens, i + 2, value, tail);
    AtHead(tokens, i, [name]);
    AtHead(tokens, i + 1, [":"]);
  }

  /** The tokens of any JSON value are formatted to its indented text; the depth never goes
      below zero and ends at zero. */
  lemma {:induction false} JsonFormats(v: Json)
    requires JsonOk(v)
    ensures FormatFrom(Tokens(v), 0, 0) == Some((Pretty(v, 0), 0))
  {
    var tokens := Tokens(v);
    ValueFormats(tokens, 0, v, 0);
    PrependTextFacts(Pretty(v, 0), "", None);
  }

  lemma {:induction false} PunctuatedConcat(a: seq<string>, b: seq<string>)
    requires Punctuated(a) && Punctuated(b)
    requires a == [] || b == [] || IsPunctToken(a[|a| - 1]) || IsPunctToken(b[0])
    ensures Punctuated(a + b)
  {
  }

  lemma {:induction false} JsonPunctuated(v: Json)
    requires JsonOk(v)
    ensures Punctuated(Tokens(v))
    decreases v, 3
  {
    match v
    case Scalar(token) =>
    case Arr(items) =>
      if items != [] {
        ItemsPunctuated(items);
        BracketsPunctuated("[", ItemTokens(items), "]");
      }
    case Obj(members) =>
      if members != [] {
        MembersPunctuated(members);
        BracketsPunctuated("{", MemberTokens(members), "}");
      }
  }

  lemma {:induction false} BracketsPunctuated(open: string, inner: seq<string>, close: string)
    requires IsPunctToken(open) && IsPunctToken(close) && Punctuated(inner)
    ensures Punctuated([open] + inner + [close])
  {
    PunctuatedConcat([open], inner);
    PunctuatedConcat([open] + inner, [close]);
  }

  lemma {:induction false} ItemsPunctuated(items: seq<Json>)
    requires items != [] && ItemsOk(items)
    ensures Punctuated(ItemTokens(items))
    decreases items, 0
  {
    JsonPunctuated(items[0]);
    if |items| > 1 {
      ItemsPunctuated(items[1..]);
      PunctuatedConcat([","], ItemTokens(items[1..]));
    }
    PunctuatedConcat(Tokens(items[0]), MoreItems(items[1..]));
  }

  lemma {:induction false} MembersPunctuated(members: seq<Member>)
    requires members != [] && MembersOk(members)
    ensures Punctuated(MemberTokens(members))
    decreases members, 0
  {
    var value, more := Tokens(members[0].value), MoreMembers(members[1..]);
    JsonPunctuated(members[0].value);
    if |members| > 1 {
      MembersPunctuated(members[1..]);
      PunctuatedConcat([","], MemberTokens(members[1..]));
    }
    PunctuatedConcat(value, more);
    PunctuatedConcat([":"], value + more);
    PunctuatedConcat([members[0].name], [":"] + (value + more));
  }

  /** Lexing the indented text of a JSON value gives the value's own tokens. */
  lemma {:induction false} PrettyThenLex(v: Json)
    requires JsonOk(v)
    ensures Lex(Pretty(v, 0)) == Tokens(v)
  {
    JsonFormats(v);
    JsonPunctuated(v);
    FormatThenLex(Tokens(v));
  }

  // ----- splitting an object into fields ---------------------------------------------------------

  datatype Field = Field(name: string, text: string)

  /** `decode` is `JSON.parse` of one token: nothing when that raises or is not a string. */
  type Decoder = string -> Option<string>

  /** The end of the value that starts at `i`: the first comma or closing brace at nesting 0. */
  function ValueEnd(tokens: seq<string>, i: nat, depth: int): (end: nat)
    ensures i <= end && (i <= |tokens| ==> end <= |tokens|) && (i >= |tokens| ==> end == i)
    decreases |tokens| - i
  {
    if i >= |tokens| then i
    else if depth == 0 && (Is(tokens[i], ',') || Is(tokens[i], '}')) then i
    else ValueEnd(tokens, i + 1,
                  if Opens(tokens[i]) then depth + 1 else if Closes(tokens[i]) then depth - 1 else depth)
  }

  function Slice(tokens: seq<string>, from: nat, to: nat): seq<string> {
    if from <= to <= |tokens| then tokens[from..to] else []
  }

  /** `startsWith('"')`. */
  predicate Quoted(token: string) {
    token != "" && token[0] == '"'
  }

  /** A non-empty string is shown decoded, anything else as indented JSON. */
  function FieldText(value: seq<string>, decode: Decoder): Option<string> {
    var decoded := if |value| == 1 && Quoted(value[0]) then decode(value[0]) else Some("");
    if decoded == None then None
    else if decoded.value != "" then decoded
    else if FormatFrom(value, 0, 0).Some? then Some(FormatFrom(value, 0, 0).value.0)
    else None
  }

  /** The field whose name is at `cursor`, and the position after its value. */
  function FieldAt(tokens: seq<string>, cursor: nat, decode: Decoder): Option<(Field, nat)>
    requires cursor < |tokens|
  {
    var name := decode(tokens[cursor]);
    var end := ValueEnd(tokens, cursor + 2, 0);
    var text := FieldText(Slice(tokens, cursor + 2, end), decode);
    if name == None || text == None then None else Some((Field(name.value, text.value), end))
  }

  /** The fields once those from `cursor` on are added to `done`, and where the cursor ends. */
  function FieldsFrom(tokens: seq<string>, cursor: nat, decode: Decoder, done: seq<Field>): Option<(seq<Field>, nat)>
    decreases |tokens| - cursor
  {
    if cursor >= |tokens| - 1 then Some((done, cursor))
    else match FieldAt(tokens, cursor, decode)
      case None => None
      case Some((field, end)) => FieldsFrom(tokens, end + 1, decode, done + [field])
  }

  method ShowField(value: seq<string>, decode: Decoder) returns (text: Option<string>)
    ensures text == FieldText(value, decode)
  {
    if |value| == 1 && Quoted(value[0]) {
      var decoded := decode(value[0]);
      if decoded == None {
        return None;
      }
      if |decoded.value| > 0 {
        return decoded;
      }
    }
    text := FormatTokens(value);
  }

  /** The inner loop. */
  method FindValueEnd(tokens: seq<string>, start: nat) returns (cursor: nat)
    ensures cursor == ValueEnd(tokens, start, 0)
  {
    cursor := start;
    var depth := 0;
    while cursor < |tokens|
      invariant start <= cursor
      invariant ValueEnd(tokens, start, 0) == ValueEnd(tokens, cursor, depth)
      decreases |tokens| - cursor
    {
      var token := tokens[cursor];
      Literals(token);
      if depth == 0 && (token == "," || token == "}") {
        break;
      }
      if token == "{" || token == "[" {
        depth := depth + 1;
      } else if token == "}" || token == "]" {
        depth := depth - 1;
      }
      cursor := cursor + 1;
    }
  }

  /** The body of the outer loop. */
  method ReadField(tokens: seq<string>, cursor: nat, decode: Decoder) returns (field: Option<Field>, end: nat)
    requires cursor < |tokens|
    ensures FieldAt(tokens, cursor, decode) == if field.Some? then Some((field.value, end)) else None
    ensures end >= cursor
  {
    var name := decode(tokens[cursor]);
    if name == None {
      return None, cursor;
    }
    var start := cursor + 2;
    end := FindValueEnd(tokens, start);
    var text := ShowField(Slice(tokens, start, end), decode);
    field := if text == None then None else Some(Field(name.value, text.value));
  }

  /** Reads the field at the cursor, behind those read before. */
  method NextField(tokens: seq<string>, cursor: nat, decode: Decoder, ghost done: seq<Field>)
    returns (field: Option<Field>, end: nat)
    requires cursor < |tokens| - 1
    ensures FieldsFrom(tokens, cursor, decode, done) ==
            if field == None then None else FieldsFrom(tokens, end + 1, decode, done + [field.value])
    ensures end >= cursor
  {
    field, end := ReadField(tokens, cursor, decode);
  }

  method SplitFields(tokens: seq<string>, decode: Decoder) returns (fields: Option<seq<Field>>, cursor: nat)
    ensures match FieldsFrom(tokens, 1, decode, [])
            case None => fields == None
            case Some((fs, last)) => fields == Some(fs) && cursor == last
  {
    var done: seq<Field> := [];
    cursor := 1;
    while cursor < |tokens| - 1
      invariant FieldsFrom(tokens, 1, decode, []) == FieldsFrom(tokens, cursor, decode, done)
      invariant cursor >= 1
      decreases |tokens| - cursor
    {
      var field, end := NextField(tokens, cursor, decode, done);
      if field == None {
        return None, cursor;
      }
      done := done + [field.value];
      cursor := end + 1;
    }
    AllFieldsRead(tokens, cursor, decode, done);
    fields := Some(done);
  }

  lemma {:induction false} AllFieldsRead(tokens: seq<string>, cursor: nat, decode: Decoder, done: seq<Field>)
    requires cursor >= |tokens| - 1
    ensures FieldsFrom(tokens, cursor, decode, done) == Some((done, cursor))
  {
  }

  /** Scanning from `i` to `j` does not stop in between and keeps the nesting depth. */
  ghost predicate Skips(tokens: seq<string>, i: nat, j: nat, depth: nat) {
    i <= j <= |tokens| && ValueEnd(tokens, i, depth) == ValueEnd(tokens, j, depth)
  }

  lemma {:induction false} SkipsPlain(tokens: seq<string>, i: nat, depth: nat)
    requires i < |tokens| && !Opens(tokens[i]) && !Closes(tokens[i]) && (depth > 0 || !Is(tokens[i], ','))
    ensures Skips(tokens, i, i + 1, depth)
  {
  }

  lemma {:induction false} SkipsNest(tokens: seq<string>, i: nat, j: nat, depth: nat)
    requires i < j < |tokens| && Opens(tokens[i]) && Closes(tokens[j]) && Skips(tokens, i + 1, j, depth + 1)
    ensures Skips(tokens, i, j + 1, depth)
  {
  }

  lemma {:induction false} ScanValue(tokens: seq<string>, i: nat, v: Json, depth: nat)
    requires JsonOk(v) && At(tokens, i, Tokens(v))
    ensures Skips(tokens, i, i + |Tokens(v)|, depth)
    decreases v, 3
  {
    match v
    case Scalar(token) => AtHead(tokens, i, [token]); SkipsPlain(tokens, i, depth);
    case Arr(items) =>
      var inner := if items == [] then [] else ItemTokens(items);
      Bracketed(tokens, i, "[", inner, "]");
      if items != [] { ScanItems(tokens, i + 1, items, depth + 1); }
      SkipsNest(tokens, i, i + 1 + |inner|, depth);
    case Obj(members) =>
      var inner := if members == [] then [] else MemberTokens(members);
      Bracketed(tokens, i, "{", inner, "}");
      if members != [] { ScanMembers(tokens, i + 1, members, depth + 1); }
      SkipsNest(tokens, i, i + 1 + |inner|, depth);
  }

  lemma {:induction false} ScanItems(tokens: seq<string>, i: nat, items: seq<Json>, depth: nat)
    requires items != [] && ItemsOk(items) && At(tokens, i, ItemTokens(items)) && depth > 0
    ensures Skips(tokens, i, i + |ItemTokens(items)|, depth)
    decreases items, 0
  {
    var j := i + |Tokens(items[0])|;
    AtConcat(tokens, i, Tokens(items[0]), MoreItems(items[1..]));
    ScanValue(tokens, i, items[0], depth);
    if |items| > 1 {
      AtConcat(tokens, j, [","], ItemTokens(items[1..]));
      AtHead(tokens, j, [","]);
      SkipsPlain(tokens, j, depth);
      ScanItems(tokens, j + 1, items[1..], depth);
    }
  }

  lemma {:induction false} ScanMembers(tokens: seq<string>, i: nat, members: seq<Member>, depth: nat)
    requires members != [] && MembersOk(members) && At(tokens, i, MemberTokens(members)) && depth > 0
    ensures Skips(tokens, i, i + |MemberTokens(members)|, depth)
    decreases members, 0
  {
    var value := members[0].value;
    var j := i + 2 + |Tokens(value)|;
    PartsOf(tokens, i, members[0].name, Tokens(value), MoreMembers(members[1..]));
    SkipsPlain(tokens, i, depth);
    SkipsPlain(tokens, i + 1, depth);
    ScanValue(tokens, i + 2, value, depth);
    if |members| > 1 {
      AtConcat(tokens, j, [","], MemberTokens(members[1..]));
      AtHead(tokens, j, [","]);
      SkipsPlain(tokens, j, depth);
      ScanMembers(tokens, j + 1, members[1..], depth);
    }
  }

  /** A value is shown decoded when it is a non-empty string, indented otherwise. */
  function ValueText(v: Json, decode: Decoder): Option<string> {
    if v.Scalar? && "\"" <= v.token && decode(v.token) != Some("") then decode(v.token) else Some(Pretty(v, 0))
  }

  function MemberField(m: Member, decode: Decoder): Option<Field> {
    var name, text := decode(m.name), ValueText(m.value, decode);
    if name == None || text == None then None else Some(Field(name.value, text.value))
  }

  function MemberFields(members: seq<Member>, decode: Decoder): Option<seq<Field>> {
    if members == [] then Some([])
    else
      var first, more := MemberField(members[0], decode), MemberFields(members[1..], decode);
      if first == None || more == None then None else Some([first.value] + more.value)
  }

  lemma {:induction false} ValueShown(v: Json, decode: Decoder)
    requires JsonOk(v)
    ensures FieldText(Tokens(v), decode) == ValueText(v, decode)
  {
    JsonFormats(v);
    if |Tokens(v)| == 1 && "\"" <= Tokens(v)[0] {
      assert Tokens(v)[0][0] == '"';
    }
  }

  /** One field: its slice is exactly the member's value tokens, however deeply nested. */
  lemma {:induction false} MemberSlice(tokens: seq<string>, i: nat, v: Json)
    requires JsonOk(v) && i + |Tokens(v)| < |tokens| && At(tokens, i, Tokens(v))
    requires Is(tokens[i + |Tokens(v)|], ',') || Is(tokens[i + |Tokens(v)|], '}')
    ensures ValueEnd(tokens, i, 0) == i + |Tokens(v)|
    ensures Slice(tokens, i, i + |Tokens(v)|) == Tokens(v)
  {
    ScanValue(tokens, i, v, 0);
  }

  lemma {:induction false} MemberRead(tokens: seq<string>, i: nat, m: Member, decode: Decoder)
    requires JsonOk(m.value) && i + 2 + |Tokens(m.value)| < |tokens|
    requires tokens[i] == m.name && At(tokens, i + 2, Tokens(m.value))
    requires Is(tokens[i + 2 + |Tokens(m.value)|], ',') || Is(tokens[i + 2 + |Tokens(m.value)|], '}')
    ensures FieldAt(tokens, i, decode) ==
            match MemberField(m, decode)
            case None => None
            case Some(field) => Some((field, i + 2 + |Tokens(m.value)|))
  {
    MemberSlice(tokens, i + 2, m.value);
    ValueShown(m.value, decode);
  }

  /** What the member fields behind `done` and the final cursor come to together. */
  function Split(members: seq<Member>, decode: Decoder, last: nat, done: seq<Field>): Option<(seq<Field>, nat)> {
    var fields := MemberFields(members, decode);
    if fields == None then None else Some((done + fields.value, last))
  }

  lemma {:induction false} SplitCons(members: seq<Member>, decode: Decoder, last: nat, done: seq<Field>)
    requires members != []
    ensures Split(members, decode, last, done) ==
            match MemberField(members[0], decode)
            case None => None
            case Some(field) => Split(members[1..], decode, last, done + [field])
  {
    var first, more := MemberField(members[0], decode), MemberFields(members[1..], decode);
    if first.Some? && more.Some? { Assoc(done, [first.value], more.value); }
  }

  /** The members stand from `i` on, each followed by a comma or the closing brace. */
  ghost predicate MembersAt(tokens: seq<string>, i: nat, members: seq<Member>)
    decreases |members|
  {
    if members == [] then i == |tokens|
    else
      var j := i + 2 + |Tokens(members[0].value)|;
      && j < |tokens| && tokens[i] == members[0].name && JsonOk(members[0].value)
      && At(tokens, i + 2, Tokens(members[0].value)) && (Is(tokens[j], ',') || Is(tokens[j], '}'))
      && MembersAt(tokens, j + 1, members[1..])
  }

  lemma {:induction false} MembersStand(tokens: seq<string>, i: nat, members: seq<Member>)
    requires members != [] && MembersOk(members) && At(tokens, i, MemberTokens(members))
    requires |tokens| == i + |MemberTokens(members)| + 1 && Is(tokens[|tokens| - 1], '}')
    ensures MembersAt(tokens, i, members)
    decreases |members|
  {
    var j := NextMember(tokens, i, members);
    if |members| > 1 { MembersStand(tokens, j + 1, members[1..]); }
  }

  lemma {:induction false} MembersSplit(tokens: seq<string>, i: nat, members: seq<Member>, decode: Decoder,
                                        done: seq<Field>)
    requires MembersAt(tokens, i, members)
    ensures FieldsFrom(tokens, i, decode, done) == Split(members, decode, |tokens|, done)
    decreases |members|
  {
    if members != [] {
      MemberRead(tokens, i, members[0], decode);
      SplitCons(members, decode, |tokens|, done);
      var field := MemberField(members[0], decode);
      if field.Some? {
        MembersSplit(tokens, i + 3 + |Tokens(members[0].value)|, members[1..], decode, done + [field.value]);
      }
    } else {
      NoMembers(members, decode, |tokens|, done);
    }
  }

  lemma {:induction false} NoMembers(members: seq<Member>, decode: Decoder, last: nat, done: seq<Field>)
    requires members == []
    ensures Split(members, decode, last, done) == Some((done, last))
  {
    assert MemberFields(members, decode) == Some([]) && done + [] == done;
  }

  lemma {:induction false} FromNothing(members: seq<Member>, decode: Decoder, last: nat)
    ensures Split(members, decode, last, []) ==
            match MemberFields(members, decode)
            case None => None
            case Some(fields) => Some((fields, last))
  {
    var fields := MemberFields(members, decode);
    if fields.Some? { assert [] + fields.value == fields.value; }
  }

  /** Where the first member's value ends, and that the other members follow. */
  lemma {:induction false} NextMember(tokens: seq<string>, i: nat, members: seq<Member>) returns (j: nat)
    requires members != [] && MembersOk(members) && At(tokens, i, MemberTokens(members))
    requires |tokens| == i + |MemberTokens(members)| + 1 && Is(tokens[|tokens| - 1], '}')
    ensures j == i + 2 + |Tokens(members[0].value)| < |tokens|
    ensures tokens[i] == members[0].name && tokens[i + 1] == ":" && At(tokens, i + 2, Tokens(members[0].value))
    ensures if |members| == 1 then j == |tokens| - 1
            else && Is(tokens[j], ',') && MembersOk(members[1..]) && At(tokens, j + 1, MemberTokens(members[1..]))
                 && |tokens| == j + 1 + |MemberTokens(members[1..])| + 1
  {
    j := i + 2 + |Tokens(members[0].value)|;
    PartsOf(tokens, i, members[0].name, Tokens(members[0].value), MoreMembers(members[1..]));
    if |members| > 1 {
      AtConcat(tokens, j, [","], MemberTokens(members[1..]));
      AtHead(tokens, j, [","]);
    }
  }

  /** The tokens of any JSON object, duplicate names included, split into one field per member
      in order; the cursor ends past the closing brace unless there is no member. */
  lemma {:induction false} ObjectSplits(members: seq<Member>, decode: Decoder)
    requires MembersOk(members)
    ensures FieldsFrom(Tokens(Obj(members)), 1, decode, []) ==
            Split(members, decode, if members == [] then 1 else |Tokens(Obj(members))|, [])
  {
    var tokens := Tokens(Obj(members));
    if members != [] {
      Bracketed(tokens, 0, "{", MemberTokens(members), "}");
      MembersStand(tokens, 1, members);
      MembersSplit(tokens, 1, members, decode, []);
    } else {
      assert |tokens| == 2;
      NoMembers(members, decode, 1, []);
    }
  }

  // ----- the whole decoder ----------------------------------------------------------------------

  datatype Presentation = Fields(fields: seq<Field>) | Text(text: string)

  /** `parsed` is the verdict of `JSON.parse` on the input: nothing when it raises. */
  method ToolInputPresentation(input: string, parsed: Option<Json>, decode: Decoder) returns (r: Presentation)
    ensures r == if parsed == None || !parsed.value.Obj? then Text(input)
                 else match FieldsFrom(Lex(input), 1, decode, [])
                   case None => Text(input)
                   case Some((fields, _)) => Fields(fields)
  {
    if parsed == None || !parsed.value.Obj? {
      return Text(input);
    }
    var tokens := Lex(input);
    var fields, cursor := SplitFields(tokens, decode);
    r := if fields == None then Text(input) else Fields(fields.value);
  }

  /** For any text of a JSON object, with any white space, the fields are the members' fields. */
  lemma {:induction false} ObjectTextSplits(input: string, members: seq<Member>, decode: Decoder)
    requires MembersOk(members) && Spells(input, Tokens(Obj(members)))
    ensures Lex(input) == Tokens(Obj(members))
    ensures match FieldsFrom(Lex(input), 1, decode, [])
            case None => MemberFields(members, decode) == None
            case Some((fields, _)) => MemberFields(members, decode) == Some(fields)
  {
    JsonPunctuated(Obj(members));
    LexSpelling(input, Tokens(Obj(members)));
    ObjectSplits(members, decode);
    FromNothing(members, decode, if members == [] then 1 else |Tokens(Obj(members))|);
  }
}
