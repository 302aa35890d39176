/** Properties of the script lexer: round trips for integer literals, how
    keywords, comments and string literals are recognised, the behaviour of
    the token loop, and the examples the lexer is designed around. */
module ParseFacts {
  import opened Numbers
  import opened Parse

  /** A text whose first character differs from the first character of `t`
      does not start with `t`. */
  lemma FirstCharDecides(s: string, t: string)
    requires t != []
    requires s == [] || s[0] != t[0]
    ensures !StartsWith(s, t)
  {
    if |t| <= |s| {
      assert s[..|t|][0] == s[0];
    }
  }

  lemma PrefixChars(s: string, t: string)
    requires StartsWith(s, t)
    ensures forall i :: 0 <= i < |t| ==> s[i] == t[i]
  {
    assert forall i :: 0 <= i < |t| ==> s[..|t|][i] == s[i];
  }

  // ---------------------------------------------------------------------
  // Integer literals

  lemma ShowSpan(d: string, rest: string)
    requires AllDigits(d)
    requires rest == [] || !IsDigit(rest[0])
    ensures Span(d + rest, IsDigit) == |d|
  {
    var s := d + rest;
    assert forall i :: 0 <= i < |d| ==> IsDigit(s[i]);
    SpanIs(s, IsDigit, |d|);
  }

  /** The digits of a positive number, up to the first non-digit. */
  lemma ShowDigits(m: nat, rest: string)
    requires m > 0
    requires rest == [] || !IsDigit(rest[0])
    ensures DecDigits(Show(m) + rest) == Ok(m, rest)
  {
    var d := Show(m);
    ShowSpan(d, rest);
    assert (d + rest)[..|d|] == d && (d + rest)[|d|..] == rest;
  }
  /** A minus sign negates the digits after it, within the i64 range. */
  lemma DecIntNegative(t: string)
    requires DecDigits(t).Ok?
    ensures var v := -(DecDigits(t).value as int);
      DecInt("-" + t) == if I64_MIN <= v then Ok(v, DecDigits(t).rest) else Backtrack
  {
    var s := "-" + t;
    assert s[0] == '-' && SignLength(s) == 1;
    assert s[1..] == t;
  }
  /** Without a sign, the digits are the value, within the i64 range. */
  lemma DecIntPositive(t: string)
    requires DecDigits(t).Ok?
    ensures var v := DecDigits(t).value as int;
      DecInt(t) == if v <= I64_MAX then Ok(v, DecDigits(t).rest) else Backtrack
  {
    assert SignLength(t) == 0;
    assert t[0..] == t;
  }
  /** `dec_int` on the text of a negative number. */
  lemma NegativeText(m: nat, rest: string)
    requires m > 0
    requires rest == [] || !IsDigit(rest[0])
    ensures DecInt("-" + Show(m) + rest) == if I64_MIN <= -(m as int) then Ok(-(m as int), rest) else Backtrack
  {
    ShowDigits(m, rest);
    assert "-" + Show(m) + rest == "-" + (Show(m) + rest);
    DecIntNegative(Show(m) + rest);
  }
  /** `dec_int` on the text of a positive number. */
  lemma PositiveText(m: nat, rest: string)
    requires m > 0
    requires rest == [] || !IsDigit(rest[0])
    ensures DecInt(Show(m) + rest) == if m <= I64_MAX then Ok(m, rest) else Backtrack
  {
    ShowDigits(m, rest);
    DecIntPositive(Show(m) + rest);
  }
  /** `dec_int` reads back the decimal text of every i64 it can produce,
      stopping at the first character that is not a digit. */
  lemma DecIntRoundTrip(n: i64, rest: string)
    requires rest == [] || !IsDigit(rest[0])
    ensures DecInt(IntText(n) + rest) == Ok(n, rest)
  {
    if n == 0 {
      assert IntText(n) + rest == "0" + rest;
    } else if n < 0 {
      assert IntText(n) == "-" + Show(-(n as int));
      NegativeText(-(n as int), rest);
    } else {
      assert IntText(n) == Show(n);
      PositiveText(n, rest);
    }
  }
  /** The decimal text of a value outside i64 is not an integer to `dec_int`. */
  lemma DecIntRejectsOverflow(n: int, rest: string)
    requires n < I64_MIN || n > I64_MAX
    requires rest == [] || !IsDigit(rest[0])
    ensures DecInt(IntText(n) + rest) == Backtrack
  {
    if n < 0 {
      assert IntText(n) == "-" + Show(-n);
      NegativeText(-n, rest);
    } else {
      assert IntText(n) == Show(n);
      PositiveText(n, rest);
    }
  }
  /** Through `literal`, an i64 followed by anything but a digit, `.`, `e`
      or `E` is an integer token. */
  lemma IntLiteralRoundTrip(n: i64, rest: string)
    requires rest == [] || !(IsDigit(rest[0]) || StartsFloatTail(rest))
    ensures LexLiteral(IntText(n) + rest) == Ok(Lit(Int(n)), rest)
  {
    DecIntRoundTrip(n, rest);
    var s := IntText(n) + rest;
    NumberIsNotBool(s);
    assert AltFrom(LiteralAlternatives, 0, s) == AltFrom(LiteralAlternatives, 1, s);
  }

  /** An integer directly followed by `.`, `e` or `E` is left to the float
      recogniser, so `10.5` is one float and not an integer and a stray `.5`. */
  lemma IntBeforeFloatTail(s: string)
    requires DecInt(s).Ok? && StartsFloatTail(DecInt(s).rest)
    ensures LexInt(s) == Backtrack
  {
  }

  /** A run of digits with no fraction and no exponent is a float mantissa. */
  lemma MantissaOfDigits(d: string, rest: string)
    requires d != [] && AllDigits(d)
    requires rest == [] || !(IsDigit(rest[0]) || StartsFloatTail(rest))
    ensures LexMantissa(d + rest) == Ok(Mantissa(d, ""), rest)
    ensures LexExponent(rest) == Ok(0, rest)
  {
    ShowSpan(d, rest);
    assert (d + rest)[..|d|] == d && (d + rest)[|d|..] == rest;
  }

  /** A signed run of digits with no fraction and no exponent is a float. */
  lemma FloatOfDigits(s: string, d: string, rest: string)
    requires d != [] && AllDigits(d)
    requires rest == [] || !(IsDigit(rest[0]) || StartsFloatTail(rest))
    requires s[SignLength(s)..] == d + rest
    ensures LexFloat(s) == Ok(Lit(Float(Finite(FloatValue(SignLength(s) == 1 && s[0] == '-', Mantissa(d, ""), 0)))), rest)
  {
    MantissaOfDigits(d, rest);
  }

  lemma WholeFloatValue(negative: bool, d: string)
    requires AllDigits(d)
    ensures FloatValue(negative, Mantissa(d, ""), 0) == if negative then -(DigitsValue(d) as real) else DigitsValue(d) as real
  {
    assert DigitsValue("") == 0;
  }

  /** The float recogniser reads the decimal text of any integer as that integer. */
  lemma FloatOfIntText(n: int, rest: string)
    requires rest == [] || !(IsDigit(rest[0]) || StartsFloatTail(rest))
    ensures LexFloat(IntText(n) + rest) == Ok(Lit(Float(Finite(n as real))), rest)
  {
    var s := IntText(n) + rest;
    var m: nat := if n < 0 then -n else n;
    var d := Show(m);
    var k := SignLength(s);
    assert s[k..] == d + rest && (k == 1 && s[0] == '-' <==> n < 0) by {
      if n < 0 {
        assert s == "-" + (d + rest);
      } else {
        assert s == d + rest;
      }
    }
    FloatOfDigits(s, d, rest);
    WholeFloatValue(k == 1 && s[0] == '-', d);
  }

  /** Text that starts with a sign or a digit is not a boolean. */
  lemma NumberIsNotBool(s: string)
    requires s != [] && (s[0] == '-' || s[0] == '+' || IsDigit(s[0]))
    ensures LexBool(s) == Backtrack
  {
    FirstCharDecides(s, "true");
    FirstCharDecides(s, "false");
  }

  /** An integer literal outside i64 is read by the float recogniser instead,
      as the exact value of its digits. */
  lemma OverflowIsFloat(n: int, rest: string)
    requires n < I64_MIN || n > I64_MAX
    requires rest == [] || !(IsDigit(rest[0]) || StartsFloatTail(rest))
    ensures LexLiteral(IntText(n) + rest) == Ok(Lit(Float(Finite(n as real))), rest)
  {
    var s := IntText(n) + rest;
    DecIntRejectsOverflow(n, rest);
    FloatOfIntText(n, rest);
    NumberIsNotBool(s);
    assert AltFrom(LiteralAlternatives, 0, s) == AltFrom(LiteralAlternatives, 1, s);
    assert AltFrom(LiteralAlternatives, 1, s) == AltFrom(LiteralAlternatives, 2, s);
  }

  /** A word starting with `nan` or `inf` in any case is a float literal,
      whatever letters follow it: the literal recogniser comes before the
      identifier one and takes the first three letters only. */
  lemma SpecialFloatLiteral(s: string)
    requires SpecialFloatWord(s)
    ensures LexLiteral(s) == Ok(Lit(Float(if StartsCaseless(s, "nan") then NaN else Infinity)), s[3..])
  {
    assert Lower(s[0]) == 'n' || Lower(s[0]) == 'i';
    FirstCharDecides(s, "true");
    FirstCharDecides(s, "false");
    assert SignLength(s) == 0 && s[0..] == s;
    assert AltFrom(LiteralAlternatives, 0, s) == AltFrom(LiteralAlternatives, 1, s);
    assert AltFrom(LiteralAlternatives, 1, s) == AltFrom(LiteralAlternatives, 2, s);
  }

  /** `-0` and `+0` are not `dec_int` text, so a signed zero is read by the
      float recogniser. */
  lemma SignedZeroIsFloat(sign: char, rest: string)
    requires sign == '-' || sign == '+'
    requires rest == [] || !(IsDigit(rest[0]) || StartsFloatTail(rest))
    ensures LexLiteral([sign, '0'] + rest) == Ok(Lit(Float(Finite(0.0))), rest)
  {
    var s := [sign, '0'] + rest;
    assert s[1..] == "0" + rest;
    NumberIsNotBool(s);
    assert DecInt(s) == Backtrack;
    FloatOfDigits(s, "0", rest);
    WholeFloatValue(sign == '-', "0");
    assert DigitsValue("0") == 0;
    assert AltFrom(LiteralAlternatives, 0, s) == AltFrom(LiteralAlternatives, 1, s);
    assert AltFrom(LiteralAlternatives, 1, s) == AltFrom(LiteralAlternatives, 2, s);
  }

  // ---------------------------------------------------------------------
  // String literals

  /** A double-quoted non-empty alphanumeric word is a string literal. */
  lemma StringLiteralComplete(t: string, rest: string)
    requires t != [] && AllAlnum(t)
    ensures LexString("\"" + t + "\"" + rest) == Ok(Lit(String(t)), rest)
  {
    var s := "\"" + t + "\"" + rest;
    assert s[1..] == t + ("\"" + rest);
    assert forall i :: 0 <= i < |t| ==> IsAlnum(s[1..][i]);
    SpanIs(s[1..], IsAlnum, |t|);
    assert s[1..1 + |t|] == t;
    assert s[2 + |t|..] == rest;
  }

  /** ... and nothing else is: the literal is decided by its first character. */
  lemma StringLiteralSound(s: string)
    requires LexString(s).Ok?
    ensures s[0] == '"'
    ensures LexLiteral(s) == LexString(s)
  {
    var t := LexString(s).value.literal.text;
    assert s == "\"" + t + "\"" + LexString(s).rest;
    FirstCharDecides(s, "true");
    FirstCharDecides(s, "false");
    assert LexMantissa(s[SignLength(s)..]).Backtrack?;
    AltFirst(LiteralAlternatives, s, 0, 3);
  }

  // ---------------------------------------------------------------------
  // Keywords and the token loop

  predicate YieldsNext(s: string, tok: Token) {
    NextToken(s).Ok? && NextToken(s).value == tok
  }

  lemma LetRecognised(s: string)
    requires StartsWith(s, "let") && |s| > 3 && IsSpace(s[3])
    ensures YieldsNext(s, Let)
  {
    PrefixChars(s, "let");
    FirstCharDecides(s, "//");
    FirstCharDecides(s, "    ");
    ChainTo(s, 2);
  }

  lemma LetOnlyRecognised(s: string)
    requires YieldsNext(s, Let)
    ensures StartsWith(s, "let") && |s| > 3 && IsSpace(s[3])
  {
    var i := AltSome(TokenAlternatives, s, 0);
  }

  /** `let` is a keyword only when whitespace follows; the whitespace is consumed. */
  lemma LetKeyword(s: string)
    ensures YieldsNext(s, Let) <==> StartsWith(s, "let") && |s| > 3 && IsSpace(s[3])
  {
    if StartsWith(s, "let") && |s| > 3 && IsSpace(s[3]) {
      LetRecognised(s);
    }
    if YieldsNext(s, Let) {
      LetOnlyRecognised(s);
    }
  }

  lemma ExternRecognised(s: string)
    requires StartsWith(s, "extern") && |s| > 6 && IsSpace(s[6])
    ensures YieldsNext(s, Extern)
  {
    PrefixChars(s, "extern");
    FirstCharDecides(s, "//");
    FirstCharDecides(s, "    ");
    FirstCharDecides(s, "let");
    ChainTo(s, 3);
  }

  lemma ExternOnlyRecognised(s: string)
    requires YieldsNext(s, Extern)
    ensures StartsWith(s, "extern") && |s| > 6 && IsSpace(s[6])
  {
    var i := AltSome(TokenAlternatives, s, 0);
  }

  /** `extern` is a keyword only when whitespace follows: `externInt` is an identifier. */
  lemma ExternKeyword(s: string)
    ensures YieldsNext(s, Extern) <==> StartsWith(s, "extern") && |s| > 6 && IsSpace(s[6])
  {
    if StartsWith(s, "extern") && |s| > 6 && IsSpace(s[6]) {
      ExternRecognised(s);
    }
    if YieldsNext(s, Extern) {
      ExternOnlyRecognised(s);
    }
  }

  lemma PipeRecognised(s: string)
    requires StartsWith(s, "|>") && |s| > 2 && IsSpace(s[2])
    ensures YieldsNext(s, Pipe)
  {
    PrefixChars(s, "|>");
    FirstCharDecides(s, "//");
    FirstCharDecides(s, "    ");
    FirstCharDecides(s, "let");
    FirstCharDecides(s, "extern");
    ChainTo(s, 4);
  }

  lemma PipeOnlyRecognised(s: string)
    requires YieldsNext(s, Pipe)
    ensures StartsWith(s, "|>") && |s| > 2 && IsSpace(s[2])
  {
    var i := AltSome(TokenAlternatives, s, 0);
  }

  /** `|>` is a pipe only when whitespace follows. */
  lemma PipeKeyword(s: string)
    ensures YieldsNext(s, Pipe) <==> StartsWith(s, "|>") && |s| > 2 && IsSpace(s[2])
  {
    if StartsWith(s, "|>") && |s| > 2 && IsSpace(s[2]) {
      PipeRecognised(s);
    }
    if YieldsNext(s, Pipe) {
      PipeOnlyRecognised(s);
    }
  }

  /** An indent token needs four spaces at the cursor. */
  lemma IndentNeedsSpaces(s: string)
    requires YieldsNext(s, Indent)
    ensures StartsWith(s, "    ")
  {
    var i := AltSome(TokenAlternatives, s, 0);
    assert TokenAlternatives[i](s).Ok? && TokenAlternatives[i](s).value == Indent;
  }

  /** Only a word whose first letter is an `n` or an `i` of either case can
      be `nan` or `inf`. */
  lemma NotSpecialFloatWord(s: string)
    requires s == [] || (Lower(s[0]) != 'n' && Lower(s[0]) != 'i')
    ensures !SpecialFloatWord(s)
  {
  }

  /** Text whose first character cannot start a literal is not one. */
  lemma NotALiteral(s: string)
    requires s == [] || (!IsDigit(s[0]) && s[0] != '+' && s[0] != '-' && s[0] != '.' && s[0] != '"')
    requires !StartsWith(s, "true") && !StartsWith(s, "false") && !SpecialFloatWord(s)
    ensures LexLiteral(s) == Backtrack && LiteralThenSpace(s) == Backtrack
  {
    AltNone(LiteralAlternatives, s, 0);
  }

  lemma SpaceThen(gap: string, rest: string)
    requires AllSpace(gap) && (rest == [] || !IsSpace(rest[0]))
    ensures (gap + rest)[Span(gap + rest, IsSpace)..] == rest
  {
    var t := gap + rest;
    assert forall i :: 0 <= i < |gap| ==> IsSpace(t[i]);
    SpanIs(t, IsSpace, |gap|);
  }

  // The first character rules most alternatives out.

  lemma NotComment(s: string)
    requires s == [] || s[0] != '/'
    ensures LexComment(s) == Backtrack
  {
    FirstCharDecides(s, "//");
  }

  lemma NotIndent(s: string)
    requires s == [] || s[0] != ' '
    ensures LexIndent(s) == Backtrack
  {
    FirstCharDecides(s, "    ");
  }

  lemma NotLet(s: string)
    requires s == [] || s[0] != 'l'
    ensures LetThenSpace(s) == Backtrack
  {
    FirstCharDecides(s, "let");
  }

  lemma NotExtern(s: string)
    requires s == [] || s[0] != 'e'
    ensures ExternThenSpace(s) == Backtrack
  {
    FirstCharDecides(s, "extern");
  }

  lemma NotPipe(s: string)
    requires s == [] || s[0] != '|'
    ensures PipeThenSpace(s) == Backtrack
  {
    FirstCharDecides(s, "|>");
  }

  /** Every alternative tried before the `i`-th one backtracks on `s`. */
  predicate DeclinedBefore(s: string, i: nat) {
    && (0 < i ==> LexComment(s).Backtrack?)
    && (1 < i ==> LexIndent(s).Backtrack?)
    && (2 < i ==> LetThenSpace(s).Backtrack?)
    && (3 < i ==> ExternThenSpace(s).Backtrack?)
    && (4 < i ==> PipeThenSpace(s).Backtrack?)
    && (5 < i ==> LiteralThenSpace(s).Backtrack?)
    && (6 < i ==> LexAssign(s).Backtrack?)
  }

  /** The alternatives that decline are skipped. */
  lemma ChainTo(s: string, i: nat)
    requires i < |TokenAlternatives| && DeclinedBefore(s, i)
    ensures AltFrom(TokenAlternatives, 0, s) == AltFrom(TokenAlternatives, i, s)
  {
    if 0 < i { assert AltFrom(TokenAlternatives, 0, s) == AltFrom(TokenAlternatives, 1, s); }
    if 1 < i { assert AltFrom(TokenAlternatives, 1, s) == AltFrom(TokenAlternatives, 2, s); }
    if 2 < i { assert AltFrom(TokenAlternatives, 2, s) == AltFrom(TokenAlternatives, 3, s); }
    if 3 < i { assert AltFrom(TokenAlternatives, 3, s) == AltFrom(TokenAlternatives, 4, s); }
    if 4 < i { assert AltFrom(TokenAlternatives, 4, s) == AltFrom(TokenAlternatives, 5, s); }
    if 5 < i { assert AltFrom(TokenAlternatives, 5, s) == AltFrom(TokenAlternatives, 6, s); }
    if 6 < i { assert AltFrom(TokenAlternatives, 6, s) == AltFrom(TokenAlternatives, 7, s); }
  }

  /** The token loop takes the result of the first alternative that does not
      backtrack, then the whitespace after the token. */
  lemma NextTokenFrom(s: string, i: nat, t: Token, gap: string, rest: string)
    requires i < |TokenAlternatives| && DeclinedBefore(s, i)
    requires TokenAlternatives[i](s) == Ok(t, gap + rest)
    requires AllSpace(gap) && (rest == [] || !IsSpace(rest[0]))
    ensures NextToken(s) == Ok(t, rest)
  {
    ChainTo(s, i);
    assert AltFrom(TokenAlternatives, i, s) == Ok(t, gap + rest);
    SpaceThen(gap, rest);
  }

  lemma LetAlternative(gap: string, rest: string)
    requires gap != [] && AllSpace(gap) && (rest == [] || !IsSpace(rest[0]))
    ensures LetThenSpace("let" + gap + rest) == Ok(Let, "" + rest)
  {
    var s := "let" + gap + rest;
    assert s[3..] == gap + rest;
    SpaceThen(gap, rest);
  }

  /** `let`, whitespace, and what follows: one `Let` token. */
  lemma LetToken(gap: string, rest: string)
    requires gap != [] && AllSpace(gap) && (rest == [] || !IsSpace(rest[0]))
    ensures NextToken("let" + gap + rest) == Ok(Let, rest)
  {
    var s := "let" + gap + rest;
    LetAlternative(gap, rest);
    NotComment(s);
    NotIndent(s);
    NextTokenFrom(s, 2, Let, "", rest);
  }

  lemma ExternAlternative(gap: string, rest: string)
    requires gap != [] && AllSpace(gap) && (rest == [] || !IsSpace(rest[0]))
    ensures ExternThenSpace("extern" + gap + rest) == Ok(Extern, "" + rest)
  {
    var s := "extern" + gap + rest;
    assert s[6..] == gap + rest;
    SpaceThen(gap, rest);
  }

  /** `extern`, whitespace, and what follows: one `Extern` token. */
  lemma ExternToken(gap: string, rest: string)
    requires gap != [] && AllSpace(gap) && (rest == [] || !IsSpace(rest[0]))
    ensures NextToken("extern" + gap + rest) == Ok(Extern, rest)
  {
    var s := "extern" + gap + rest;
    ExternAlternative(gap, rest);
    NotComment(s);
    NotIndent(s);
    NotLet(s);
    NextTokenFrom(s, 3, Extern, "", rest);
  }

  lemma PipeAlternative(gap: string, rest: string)
    requires gap != [] && AllSpace(gap) && (rest == [] || !IsSpace(rest[0]))
    ensures PipeThenSpace("|>" + gap + rest) == Ok(Pipe, "" + rest)
  {
    var s := "|>" + gap + rest;
    assert s[2..] == gap + rest;
    SpaceThen(gap, rest);
  }

  /** `|>`, whitespace, and what follows: one `Pipe` token. */
  lemma PipeToken(gap: string, rest: string)
    requires gap != [] && AllSpace(gap) && (rest == [] || !IsSpace(rest[0]))
    ensures NextToken("|>" + gap + rest) == Ok(Pipe, rest)
  {
    var s := "|>" + gap + rest;
    PipeAlternative(gap, rest);
    assert s[0] == '|';
    NotComment(s);
    NotIndent(s);
    NotLet(s);
    NotExtern(s);
    NextTokenFrom(s, 4, Pipe, "", rest);
  }

  /** `=` and what follows, with or without whitespace between: one `Assign` token. */
  lemma AssignToken(gap: string, rest: string)
    requires AllSpace(gap) && (rest == [] || !IsSpace(rest[0]))
    ensures NextToken("=" + gap + rest) == Ok(Assign, rest)
  {
    var s := "=" + gap + rest;
    assert LexAssign(s) == Ok(Assign, gap + rest) by {
      assert s[1..] == gap + rest;
    }
    NotComment(s);
    NotIndent(s);
    NotLet(s);
    NotExtern(s);
    NotPipe(s);
    FirstCharDecides(s, "true");
    FirstCharDecides(s, "false");
    NotALiteral(s);
    NextTokenFrom(s, 6, Assign, gap, rest);
  }

  lemma IntAlternative(n: i64, gap: string, rest: string)
    requires AllSpace(gap) && (rest == [] || !IsSpace(rest[0]))
    requires gap != [] || rest == [] || !(IsDigit(rest[0]) || StartsFloatTail(rest))
    ensures LiteralThenSpace(IntText(n) + gap + rest) == Ok(Lit(Int(n)), "" + rest)
  {
    var u := gap + rest;
    assert u == [] || !(IsDigit(u[0]) || StartsFloatTail(u)) by {
      if gap != [] {
        assert u[0] == gap[0];
      } else {
        assert u == rest;
      }
    }
    assert IntText(n) + gap + rest == IntText(n) + u;
    IntLiteralRoundTrip(n, u);
    SpaceThen(gap, rest);
  }

  /** An i64 and what follows: one integer token, provided the digits end there. */
  lemma IntToken(n: i64, gap: string, rest: string)
    requires AllSpace(gap) && (rest == [] || !IsSpace(rest[0]))
    requires gap != [] || rest == [] || !(IsDigit(rest[0]) || StartsFloatTail(rest))
    ensures NextToken(IntText(n) + gap + rest) == Ok(Lit(Int(n)), rest)
  {
    var s := IntText(n) + gap + rest;
    IntAlternative(n, gap, rest);
    assert s[0] == IntText(n)[0];
    NotComment(s);
    NotIndent(s);
    NotLet(s);
    NotExtern(s);
    NotPipe(s);
    NextTokenFrom(s, 5, Lit(Int(n)), "", rest);
  }

  /** A word runs up to the first character that is not alphanumeric. */
  lemma WordSpan(name: string, after: string)
    requires AllAlnum(name) && (after == [] || !IsAlnum(after[0]))
    ensures Span(name + after, IsAlnum) == |name|
  {
    var s := name + after;
    assert forall i :: 0 <= i < |name| ==> IsAlnum(s[i]);
    assert |name| < |s| ==> s[|name|] == after[0];
    SpanIs(s, IsAlnum, |name|);
  }

  lemma IdentLexeme(name: string, after: string)
    requires name != [] && AllAlnum(name) && (after == [] || !IsAlnum(after[0]))
    ensures LexIdent(name + after) == Ok(Ident(name), after)
  {
    var s := name + after;
    WordSpan(name, after);
    assert s[..|name|] == name && s[|name|..] == after;
  }

  lemma IdentAlternative(name: string, gap: string, rest: string)
    requires name != [] && AllAlnum(name)
    requires AllSpace(gap) && (rest == [] || !IsSpace(rest[0]))
    requires gap != [] || rest == [] || !IsAlnum(rest[0])
    ensures IdentThenSpace(name + gap + rest) == Ok(Ident(name), "" + rest)
  {
    assert name + gap + rest == name + (gap + rest);
    IdentLexeme(name, gap + rest);
    SpaceThen(gap, rest);
  }

  /** No alternative before the identifier one accepts such a word. */
  lemma IdentDeclines(name: string, gap: string, rest: string)
    requires name != [] && AllAlnum(name) && !IsDigit(name[0])
    requires name != "let" && name != "extern"
    requires AllSpace(gap) && (gap != [] || rest == [] || !IsAlnum(rest[0]))
    requires !StartsWith(name + gap + rest, "true") && !StartsWith(name + gap + rest, "false")
    requires !SpecialFloatWord(name + gap + rest)
    ensures DeclinedBefore(name + gap + rest, 7)
    ensures LexComment(name + gap + rest).Backtrack? && LexIndent(name + gap + rest).Backtrack?
    ensures LetThenSpace(name + gap + rest).Backtrack? && ExternThenSpace(name + gap + rest).Backtrack?
    ensures PipeThenSpace(name + gap + rest).Backtrack? && LiteralThenSpace(name + gap + rest).Backtrack?
    ensures LexAssign(name + gap + rest).Backtrack?
  {
    var s := name + gap + rest;
    assert s[0] == name[0];
    assert s == name + (gap + rest);
    assert gap != [] ==> !IsAlnum(gap[0]);
    NotComment(s);
    NotIndent(s);
    KeywordsNeedSpace(name, gap + rest);
    NotPipe(s);
    NotALiteral(s);
  }

  /** A word that is neither a keyword nor a literal, and what follows: one
      identifier token. A word that merely starts with a keyword, such as
      `externInt`, is an identifier. */
  lemma IdentToken(name: string, gap: string, rest: string)
    requires name != [] && AllAlnum(name) && !IsDigit(name[0])
    requires name != "let" && name != "extern"
    requires AllSpace(gap) && (rest == [] || !IsSpace(rest[0]))
    requires gap != [] || rest == [] || !IsAlnum(rest[0])
    requires !StartsWith(name + gap + rest, "true") && !StartsWith(name + gap + rest, "false")
    requires !SpecialFloatWord(name + gap + rest)
    ensures NextToken(name + gap + rest) == Ok(Ident(name), rest)
  {
    var s := name + gap + rest;
    IdentAlternative(name, gap, rest);
    IdentDeclines(name, gap, rest);
    NextTokenFrom(s, 7, Ident(name), "", rest);
  }

  /** A word starting with `nan` or `inf` in any case, and what follows:
      the float token of its first three letters, then whatever comes after
      them, so `info` is a float and the identifier `o`. */
  lemma SpecialFloatToken(s: string, gap: string, rest: string)
    requires SpecialFloatWord(s) && s[3..] == gap + rest
    requires AllSpace(gap) && (rest == [] || !IsSpace(rest[0]))
    ensures NextToken(s) == Ok(Lit(Float(if StartsCaseless(s, "nan") then NaN else Infinity)), rest)
  {
    assert Lower(s[0]) == 'n' || Lower(s[0]) == 'i';
    NotComment(s);
    NotIndent(s);
    NotLet(s);
    NotExtern(s);
    NotPipe(s);
    SpecialFloatLiteral(s);
    SpaceThen(gap, rest);
    NextTokenFrom(s, 5, Lit(Float(if StartsCaseless(s, "nan") then NaN else Infinity)), "", rest);
  }

  lemma KeywordsAreWords()
    ensures AllAlnum("let") && AllAlnum("extern")
  {
  }

  /** A word followed by a non-alphanumeric character that starts with the
      word `t` followed by a non-alphanumeric character is `t`. */
  lemma SameWord(name: string, after: string, t: string)
    requires AllAlnum(name) && (after == [] || !IsAlnum(after[0])) && AllAlnum(t)
    requires StartsWith(name + after, t) && |name + after| > |t| && !IsAlnum((name + after)[|t|])
    ensures name == t
  {
    var s := name + after;
    WordSpan(name, after);
    PrefixChars(s, t);
    SpanIs(s, IsAlnum, |t|);
    assert s[..|name|] == name;
  }

  /** A word other than `let` and `extern` does not begin a keyword token. */
  lemma KeywordsNeedSpace(name: string, after: string)
    requires AllAlnum(name) && name != "let" && name != "extern"
    requires after == [] || !IsAlnum(after[0])
    ensures LetThenSpace(name + after) == Backtrack
    ensures ExternThenSpace(name + after) == Backtrack
  {
    var s := name + after;
    KeywordsAreWords();
    if StartsWith(s, "let") && |s| > 3 && IsSpace(s[3]) {
      SameWord(name, after, "let");
    }
    if StartsWith(s, "extern") && |s| > 6 && IsSpace(s[6]) {
      SameWord(name, after, "extern");
    }
  }

  lemma CommentAlternative(body: string, rest: string)
    requires forall i :: 0 <= i < |body| ==> NotLineEnd(body[i])
    requires rest == [] || StartsWith(rest, "\n") || StartsWith(rest, "\r\n")
    ensures LexComment("//" + body + rest) == Ok(Comment, rest)
  {
    var s := "//" + body + rest;
    assert s[..2] == "//";
    assert s[2..] == body + rest;
    assert forall i :: 0 <= i < |body| ==> NotLineEnd((body + rest)[i]);
    if rest != [] {
      assert rest[..1][0] == rest[0];
    }
    SpanIs(body + rest, NotLineEnd, |body|);
    assert (body + rest)[|body|..] == rest;
  }

  /** A comment runs to the end of its line and is a single token. */
  lemma CommentToken(body: string, rest: string)
    requires forall i :: 0 <= i < |body| ==> NotLineEnd(body[i])
    requires rest == [] || StartsWith(rest, "\n") || StartsWith(rest, "\r\n")
    ensures NextToken("//" + body + rest) == Ok(Comment, rest[Span(rest, IsSpace)..])
  {
    CommentAlternative(body, rest);
    AltFirst(TokenAlternatives, "//" + body + rest, 0, 0);
  }

  /** Nothing is recognised at the end of the input. */
  lemma NothingAtEnd()
    ensures NextToken("") == Backtrack
  {
    NotComment("");
    NotIndent("");
    NotLet("");
    NotExtern("");
    NotPipe("");
    NotALiteral("");
    AltNone(TokenAlternatives, "", 0);
  }

  /** How the token loop advances: one recognised token, then the rest. */
  lemma LexUnfold(s: string)
    ensures NextToken(s).Ok? ==>
      Lex(s) == ([NextToken(s).value] + Lex(NextToken(s).rest).0, Lex(NextToken(s).rest).1)
    ensures !NextToken(s).Ok? ==> Lex(s) == ([], s)
  {
    NextTokenProgresses();
  }

  /** Every token consumes the whitespace after it and the loop starts past
      the leading whitespace, so the token loop never yields `Indent`. */
  lemma {:induction false} LexNeverIndents(s: string)
    requires s == [] || !IsSpace(s[0])
    ensures Indent !in Lex(s).0
    decreases |s|
  {
    LexUnfold(s);
    var step := NextToken(s);
    if step.Ok? {
      if step.value == Indent {
        IndentNeedsSpaces(s);
        PrefixChars(s, "    ");
      }
      LexNeverIndents(step.rest);
    }
  }

  /** `full_program` never yields an `Indent` token, whatever the script. */
  lemma ProgramNeverIndents(input: string)
    ensures Indent !in Program(input).0
  {
    LexNeverIndents(input[Span(input, IsSpace)..]);
  }
}
