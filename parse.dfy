/** The script lexer: `full_program` turns script text into a flat token
    sequence. Each recogniser is a function from the remaining input to a
    parse result; `FullProgram` and `StripStart` are the two cursor loops. */
module Parse {
  import opened Numbers

  /** An f64 as the lexer can produce it: a finite value (an exact real, an
      idealisation of the binary64 value), positive infinity, or not-a-number. */
  datatype F64 = Finite(value: real) | Infinity | NaN

  /** A literal value. */
  datatype Literal =
    | String(text: string)
    | Int(intValue: i64)
    | Float(floatValue: F64)
    | Bool(boolValue: bool)

  datatype Token =
    | Let
    | Extern
    | Assign
    | Ident(name: string)
    | Pipe
    | Lit(literal: Literal)
    | Indent
    | Comment

  /** The outcome of one recogniser on the remaining input: a value and the
      input left after it, a recoverable failure (the next alternative is
      tried), or an unrecoverable one (alternation stops). */
  datatype PResult<T> = Ok(value: T, rest: string) | Backtrack | Cut

  // ---------------------------------------------------------------------
  // Character classes and cursor helpers

  /** winnow's multispace: space, tab, carriage return, line feed. */
  predicate IsSpace(c: char) {
    c == ' ' || c == '\t' || c == '\r' || c == '\n'
  }

  /** ASCII letters and digits (winnow's alphanumeric). */
  predicate IsAlnum(c: char) {
    'a' <= c <= 'z' || 'A' <= c <= 'Z' || IsDigit(c)
  }

  predicate NotLineEnd(c: char) {
    c != '\r' && c != '\n'
  }

  predicate AllSpace(s: string) {
    forall i :: 0 <= i < |s| ==> IsSpace(s[i])
  }

  predicate AllAlnum(s: string) {
    forall i :: 0 <= i < |s| ==> IsAlnum(s[i])
  }

  predicate StartsWith(s: string, t: string) {
    |t| <= |s| && s[..|t|] == t
  }

  predicate IsSuffix(t: string, s: string) {
    |t| <= |s| && t == s[|s| - |t|..]
  }

  /** A successful result consumed at least one character of `s`. */
  predicate Advances<T>(s: string, r: PResult<T>) {
    r.Ok? ==> |r.rest| < |s| && IsSuffix(r.rest, s)
  }

  /** Length of the longest prefix of `s` whose characters all satisfy `p`. */
  function Span(s: string, p: char -> bool): (n: nat)
    ensures n <= |s|
    ensures forall i :: 0 <= i < n ==> p(s[i])
    ensures n < |s| ==> !p(s[n])
  {
    if s == [] || !p(s[0]) then 0 else 1 + Span(s[1..], p)
  }

  /** The two conditions of Span's contract determine it. */
  lemma SpanIs(s: string, p: char -> bool, n: nat)
    requires n <= |s|
    requires forall i :: 0 <= i < n ==> p(s[i])
    requires n < |s| ==> !p(s[n])
    ensures Span(s, p) == n
  {
  }

  lemma SuffixTransitive(a: string, b: string, c: string)
    requires IsSuffix(a, b) && IsSuffix(b, c)
    ensures IsSuffix(a, c)
  {
    assert c[|c| - |b|..][|b| - |a|..] == c[|c| - |a|..];
  }

  // ---------------------------------------------------------------------
  // Combinators

  /** Ordered choice: the second alternative runs only when the first backtracks. */
  function Or<T>(first: PResult<T>, second: PResult<T>): PResult<T> {
    if first.Backtrack? then second else first
  }

  /** Matches the fixed text `t` and yields `tok`. */
  function Tag(s: string, t: string, tok: Token): (r: PResult<Token>)
    requires t != []
    ensures Advances(s, r)
    ensures r.Ok? <==> StartsWith(s, t)
    ensures r.Ok? ==> r.value == tok && s == t + r.rest
    ensures !r.Cut?
  {
    if StartsWith(s, t) then
      assert s == s[..|t|] + s[|t|..];
      Ok(tok, s[|t|..])
    else
      Backtrack
  }

  /** `ws0`: run the inner recogniser, then consume all following whitespace. */
  function Ws0<T>(r: PResult<T>): (w: PResult<T>)
    ensures !r.Ok? ==> w == r
    ensures r.Ok? ==> w.Ok? && w.value == r.value && IsSuffix(w.rest, r.rest)
    ensures r.Ok? ==> AllSpace(r.rest[..|r.rest| - |w.rest|])
    ensures w.Ok? ==> w.rest == [] || !IsSpace(w.rest[0])
  {
    if r.Ok? then Ok(r.value, r.rest[Span(r.rest, IsSpace)..]) else r
  }

  /** `ws1`: like `ws0`, but at least one whitespace character must follow. */
  function Ws1<T>(r: PResult<T>): (w: PResult<T>)
    ensures !r.Ok? ==> w == r
    ensures r.Ok? ==> (w.Ok? <==> r.rest != [] && IsSpace(r.rest[0]))
    ensures w.Ok? ==> w == Ws0(r)
    ensures r.Ok? && !w.Ok? ==> w.Backtrack?
  {
    if r.Ok? && r.rest != [] && IsSpace(r.rest[0]) then Ws0(r)
    else if r.Ok? then Backtrack
    else r
  }

  lemma Ws0Advances<T>(s: string, r: PResult<T>)
    requires Advances(s, r)
    ensures Advances(s, Ws0(r)) && Advances(s, Ws1(r))
  {
    if r.Ok? {
      SuffixTransitive(Ws0(r).rest, r.rest, s);
    }
  }

  // ---------------------------------------------------------------------
  // Recognisers

  function LexExtern(s: string): (r: PResult<Token>)
    ensures Advances(s, r) && !r.Cut?
    ensures r.Ok? <==> StartsWith(s, "extern")
    ensures r.Ok? ==> r == Ok(Extern, s[6..])
  {
    Tag(s, "extern", Extern)
  }

  function LexLet(s: string): (r: PResult<Token>)
    ensures Advances(s, r) && !r.Cut?
    ensures r.Ok? <==> StartsWith(s, "let")
    ensures r.Ok? ==> r == Ok(Let, s[3..])
  {
    Tag(s, "let", Let)
  }

  function LexAssign(s: string): (r: PResult<Token>)
    ensures Advances(s, r) && !r.Cut?
    ensures r.Ok? <==> s != [] && s[0] == '='
    ensures r.Ok? ==> r == Ok(Assign, s[1..])
  {
    Tag(s, "=", Assign)
  }

  function LexIndent(s: string): (r: PResult<Token>)
    ensures Advances(s, r) && !r.Cut?
    ensures r.Ok? <==> StartsWith(s, "    ")
    ensures r.Ok? ==> r == Ok(Indent, s[4..])
  {
    Tag(s, "    ", Indent)
  }

  function LexPipe(s: string): (r: PResult<Token>)
    ensures Advances(s, r) && !r.Cut?
    ensures r.Ok? <==> StartsWith(s, "|>")
    ensures r.Ok? ==> r == Ok(Pipe, s[2..])
  {
    Tag(s, "|>", Pipe)
  }

  /** An identifier is the longest non-empty run of ASCII alphanumerics. */
  function LexIdent(s: string): (r: PResult<Token>)
    ensures Advances(s, r) && !r.Cut?
    ensures r.Ok? <==> s != [] && IsAlnum(s[0])
    ensures r.Ok? ==> r.value.Ident? && s == r.value.name + r.rest
    ensures r.Ok? ==> AllAlnum(r.value.name) && (r.rest == [] || !IsAlnum(r.rest[0]))
  {
    var n := Span(s, IsAlnum);
    if n == 0 then Backtrack
    else
      assert s == s[..n] + s[n..];
      Ok(Ident(s[..n]), s[n..])
  }

  /** `//` up to (not including) the line ending. A lone carriage return
      that does not start "\r\n" makes the comment fail. */
  function LexComment(s: string): (r: PResult<Token>)
    ensures Advances(s, r) && !r.Cut?
    ensures r.Ok? ==> r.value == Comment && StartsWith(s, "//")
    ensures r.Ok? ==> forall i :: 2 <= i < |s| - |r.rest| ==> NotLineEnd(s[i])
    ensures r.Ok? ==> r.rest == [] || StartsWith(r.rest, "\n") || StartsWith(r.rest, "\r\n")
  {
    if !StartsWith(s, "//") then Backtrack
    else
      var body := s[2..];
      var n := Span(body, NotLineEnd);
      var rest := body[n..];
      if rest != [] && rest[0] == '\r' && !StartsWith(rest, "\r\n") then Backtrack
      else
        assert forall i :: 2 <= i < |s| - |rest| ==> s[i] == body[i - 2];
        Ok(Comment, rest)
  }

  /** A double quote, a non-empty ASCII-alphanumeric run, a double quote. */
  function LexString(s: string): (r: PResult<Token>)
    ensures Advances(s, r) && !r.Cut?
    ensures r.Ok? ==> r.value.Lit? && r.value.literal.String?
    ensures r.Ok? ==> var text := r.value.literal.text;
      text != [] && AllAlnum(text) && s == "\"" + text + "\"" + r.rest
  {
    if s == [] || s[0] != '"' then Backtrack
    else
      var n := Span(s[1..], IsAlnum);
      if n == 0 || 1 + n >= |s| || s[1 + n] != '"' then Backtrack
      else
        assert s == "\"" + s[1..1 + n] + "\"" + s[2 + n..];
        Ok(Lit(String(s[1..1 + n])), s[2 + n..])
  }

  function LexBool(s: string): (r: PResult<Token>)
    ensures Advances(s, r) && !r.Cut?
    ensures r.Ok? <==> StartsWith(s, "true") || StartsWith(s, "false")
    ensures r.Ok? ==> r == if StartsWith(s, "true") then Ok(Lit(Bool(true)), s[4..])
                           else Ok(Lit(Bool(false)), s[5..])
  {
    Or(Tag(s, "true", Lit(Bool(true))), Tag(s, "false", Lit(Bool(false))))
  }

  function SignLength(s: string): (k: nat)
    ensures k <= 1 && k <= |s|
    ensures k == 1 <==> s != [] && (s[0] == '+' || s[0] == '-')
  {
    if s != [] && (s[0] == '+' || s[0] == '-') then 1 else 0
  }

  /** The text of a signed decimal integer as `DecInt` reads it back:
      an optional minus sign and the digits of the magnitude. */
  function IntText(n: int): string {
    (if n < 0 then "-" else "") + Show(if n < 0 then -n else n)
  }

  /** A non-zero digit followed by more digits, and the number they denote. */
  function DecDigits(t: string): (r: PResult<nat>)
    ensures Advances(t, r) && !r.Cut?
  {
    if t == [] || !('1' <= t[0] <= '9') then Backtrack
    else
      var n := Span(t, IsDigit);
      Ok(DigitsValue(t[..n]), t[n..])
  }

  /** winnow's `dec_int`: an optional sign followed by a non-zero digit and
      more digits, or a lone unsigned `0`; a value outside i64 is rejected. */
  function DecInt(s: string): (r: PResult<i64>)
    ensures Advances(s, r) && !r.Cut?
  {
    if s != [] && s[0] == '0' then
      Ok(0, s[1..])
    else
      var k := SignLength(s);
      var digits := DecDigits(s[k..]);
      if !digits.Ok? then Backtrack
      else
        var v: int := if k == 1 && s[0] == '-' then -(digits.value as int) else digits.value;
        if v < I64_MIN || v > I64_MAX then Backtrack
        else
          SuffixTransitive(digits.rest, s[k..], s);
          Ok(v, digits.rest)
  }

  /** What `dec_int` consumes is the decimal text of the value it yields,
      with an optional leading `+`. */
  lemma DecIntReadsText(s: string)
    requires DecInt(s).Ok?
    ensures var r := DecInt(s); var consumed := s[..|s| - |r.rest|];
      consumed == IntText(r.value) || consumed == "+" + IntText(r.value)
  {
    if s != [] && s[0] == '0' {
      assert s[..1] == [s[0]];
    } else {
      var k := SignLength(s);
      var t := s[k..];
      var n := Span(t, IsDigit);
      var magnitude: int := DigitsValue(t[..n]);
      var v: int := if k == 1 && s[0] == '-' then -magnitude else magnitude;
      DecIntText(s, k, n, v);
    }
  }

  lemma DecIntText(s: string, k: nat, n: nat, v: int)
    requires k == SignLength(s)
    requires 0 < n <= |s| - k && AllDigits(s[k..][..n]) && s[k] != '0'
    requires v == if k == 1 && s[0] == '-' then -(DigitsValue(s[k..][..n]) as int) else DigitsValue(s[k..][..n])
    ensures s[..k + n] == IntText(v) || s[..k + n] == "+" + IntText(v)
  {
    var digits := s[k..][..n];
    assert digits[0] == s[k];
    LeadingDigitPositive(digits);
    ShowDigitsValue(digits);
    if k == 1 {
      assert s[..k + n] == [s[0]] + digits;
    } else {
      assert s[..k + n] == digits;
    }
  }

  /** `int_literal`: a decimal integer that is not immediately followed by
      `.`, `e` or `E` (such text is left to the float recogniser). */
  function LexInt(s: string): (r: PResult<Token>)
    ensures Advances(s, r) && !r.Cut?
    ensures r.Ok? <==> DecInt(s).Ok? && !StartsFloatTail(DecInt(s).rest)
    ensures r.Ok? ==> r == Ok(Lit(Int(DecInt(s).value)), DecInt(s).rest)
  {
    match DecInt(s)
    case Ok(n, rest) => if StartsFloatTail(rest) then Backtrack else Ok(Lit(Int(n)), rest)
    case _ => Backtrack
  }

  predicate StartsFloatTail(s: string) {
    s != [] && (s[0] == '.' || s[0] == 'e' || s[0] == 'E')
  }

  /** The digits before and after the decimal point of a float lexeme. */
  datatype Mantissa = Mantissa(whole: string, fraction: string)

  /** Text cut at a decimal point and again `m` characters after it. */
  lemma DotSplit(t: string, n: nat, m: nat)
    requires n < |t| && t[n] == '.' && n + 1 + m <= |t|
    ensures t == t[..n] + "." + t[n + 1..][..m] + t[n + 1 + m..]
    ensures t[n + 1 + m..] == t[n + 1..][m..]
  {
    assert t[n..] == "." + t[n + 1..];
    assert t[n + 1..] == t[n + 1..][..m] + t[n + 1 + m..];
  }

  /** `digits ['.' [digits]]` or `'.' digits`. */
  function LexMantissa(t: string): (r: PResult<Mantissa>)
    ensures Advances(t, r) && !r.Cut?
    ensures r.Ok? ==> AllDigits(r.value.whole) && AllDigits(r.value.fraction)
    ensures r.Ok? ==> r.value.whole != [] || r.value.fraction != []
  {
    var n := Span(t, IsDigit);
    if n > 0 then
      if n < |t| && t[n] == '.' then
        var m := Span(t[n + 1..], IsDigit);
        Ok(Mantissa(t[..n], t[n + 1..][..m]), t[n + 1 + m..])
      else
        Ok(Mantissa(t[..n], ""), t[n..])
    else if 1 < |t| && t[0] == '.' && IsDigit(t[1]) then
      var m := Span(t[1..], IsDigit);
      Ok(Mantissa("", t[1..][..m]), t[1 + m..])
    else
      Backtrack
  }

  /** A mantissa is the text it was read from: the whole digits, or the whole
      digits, the point and the fraction digits; no digit follows it. */
  lemma MantissaSplits(t: string)
    requires LexMantissa(t).Ok?
    ensures var r := LexMantissa(t);
      t == r.value.whole + r.rest || t == r.value.whole + "." + r.value.fraction + r.rest
    ensures var r := LexMantissa(t); r.rest == [] || !IsDigit(r.rest[0])
  {
    var n := Span(t, IsDigit);
    if n > 0 && n < |t| && t[n] == '.' {
      var m := Span(t[n + 1..], IsDigit);
      FractionRest(t, n, m);
      assert LexMantissa(t) == Ok(Mantissa(t[..n], t[n + 1..][..m]), t[n + 1 + m..]);
    } else if n > 0 {
      assert t == t[..n] + t[n..];
      assert LexMantissa(t) == Ok(Mantissa(t[..n], ""), t[n..]);
    } else {
      var m := Span(t[1..], IsDigit);
      FractionRest(t, 0, m);
      assert LexMantissa(t) == Ok(Mantissa("", t[1..][..m]), t[1 + m..]);
    }
  }

  /** The fraction digits after a decimal point end where the digits do. */
  lemma FractionRest(t: string, n: nat, m: nat)
    requires n < |t| && t[n] == '.' && m == Span(t[n + 1..], IsDigit)
    ensures t == t[..n] + "." + t[n + 1..][..m] + t[n + 1 + m..]
    ensures t[n + 1 + m..] == [] || !IsDigit(t[n + 1 + m..][0])
  {
    DotSplit(t, n, m);
  }

  /** The optional exponent `[eE] [+-] digits`; once `e` or `E` is seen,
      missing digits are an unrecoverable failure. Yields 0 when absent. */
  function LexExponent(u: string): (r: PResult<int>)
    ensures r.Ok? ==> IsSuffix(r.rest, u)
    ensures r.Cut? <==> u != [] && (u[0] == 'e' || u[0] == 'E')
                        && var v := u[1..][SignLength(u[1..])..]; (v == [] || !IsDigit(v[0]))
    ensures r.Ok? && r.rest == u ==> r.value == 0
    ensures !r.Backtrack?
  {
    if u != [] && (u[0] == 'e' || u[0] == 'E') then
      var w := u[1..];
      var k := SignLength(w);
      var v := w[k..];
      var m := Span(v, IsDigit);
      if m == 0 then Cut
      else
        var e: int := DigitsValue(v[..m]);
        assert IsSuffix(v[m..], u) by {
          assert v[m..] == u[1 + k + m..];
        }
        Ok(if k == 1 && w[0] == '-' then -e else e, v[m..])
    else
      Ok(0, u)
  }

  /** 10 raised to an integer power, as a real. */
  function Pow10Real(e: int): (p: real)
    ensures p > 0.0
    ensures e == 0 ==> p == 1.0
  {
    if e >= 0 then Pow10(e) as real else 1.0 / (Pow10(-e) as real)
  }

  /** Each step up in the exponent multiplies by ten, so with `Pow10Real(0) == 1`
      the function is exactly 10^e on all integers. */
  lemma Pow10RealStep(e: int)
    ensures Pow10Real(e + 1) == 10.0 * Pow10Real(e)
  {
    if e < -1 {
      var q := Pow10(-e - 1) as real;
      assert Pow10(-e) as real == 10.0 * q;
      assert 1.0 / q == 10.0 * (1.0 / (10.0 * q));
    }
  }

  /** The exact value a float lexeme denotes. */
  function FloatValue(negative: bool, m: Mantissa, exponent: int): real
    requires AllDigits(m.whole) && AllDigits(m.fraction)
  {
    var magnitude := (DigitsValue(m.whole) as real
                      + DigitsValue(m.fraction) as real / Pow10(|m.fraction|) as real)
                     * Pow10Real(exponent);
    if negative then -magnitude else magnitude
  }

  /** ASCII lower case. */
  function Lower(c: char): char {
    if 'A' <= c <= 'Z' then (c as int + 32) as char else c
  }

  /** `s` begins with the lower-case word `t`, letters compared without case. */
  predicate StartsCaseless(s: string, t: string) {
    |t| <= |s| && forall i :: 0 <= i < |t| ==> Lower(s[i]) == t[i]
  }

  /** Text the float recogniser reads as infinity or not-a-number. */
  predicate SpecialFloatWord(s: string) {
    StartsCaseless(s, "nan") || StartsCaseless(s, "inf")
  }

  /** The words `float` accepts when the numeric form backtracks: `nan`, then
      `inf`, then `infinity`, each without case and without a sign. Text that
      starts with `infinity` starts with `inf`, which is tried first, so the
      third word is never reached. */
  function LexSpecialFloat(s: string): (r: PResult<F64>)
    ensures !r.Cut?
    ensures r.Ok? <==> SpecialFloatWord(s)
    ensures r.Ok? ==> r.rest == s[3..]
    ensures r.Ok? ==> (r.value == NaN <==> StartsCaseless(s, "nan"))
    ensures r.Ok? ==> (r.value == Infinity <==> !StartsCaseless(s, "nan"))
  {
    if StartsCaseless(s, "nan") then Ok(NaN, s[3..])
    else if StartsCaseless(s, "inf") then Ok(Infinity, s[3..])
    else Backtrack
  }

  /** `float_literal`: an optional sign, a mantissa and an optional exponent;
      failing that, one of the words infinity and not-a-number. */
  function LexFloat(s: string): (r: PResult<Token>)
    ensures Advances(s, r)
    ensures r.Ok? ==> r.value.Lit? && r.value.literal.Float?
  {
    var k := SignLength(s);
    match LexMantissa(s[k..])
    case Ok(m, u) =>
      (match LexExponent(u)
       case Ok(e, rest) =>
         SuffixTransitive(rest, u, s[k..]);
         SuffixTransitive(rest, s[k..], s);
         Ok(Lit(Float(Finite(FloatValue(k == 1 && s[0] == '-', m, e)))), rest)
       case Cut => Cut
       case Backtrack => Backtrack)
    case _ =>
      match LexSpecialFloat(s)
      case Ok(f, rest) => Ok(Lit(Float(f)), rest)
      case _ => Backtrack
  }

  /** `literal`: bool, then int, then float, then string. */
  const LiteralAlternatives: seq<Recogniser> := [LexBool, LexInt, LexFloat, LexString]

  function LexLiteral(s: string): (r: PResult<Token>)
    ensures Advances(s, r)
    ensures r.Ok? ==> r.value.Lit?
  {
    AltKeeps(LiteralAlternatives, s, 0, (t: Token) => t.Lit?);
    Alt(LiteralAlternatives, s)
  }

  // ---------------------------------------------------------------------
  // The program loop

  /** A recogniser of one token: from the remaining input to a parse result. */
  type Recogniser = string -> PResult<Token>

  /** winnow's `alt`: the alternatives are tried in order on the same input,
      and the first result that is not a backtrack is the result. */
  function Alt(alternatives: seq<Recogniser>, s: string): PResult<Token> {
    AltFrom(alternatives, 0, s)
  }

  /** `Alt` over the alternatives from index `k` on. */
  function AltFrom(alternatives: seq<Recogniser>, k: nat, s: string): PResult<Token>
    decreases |alternatives| - k
  {
    if k >= |alternatives| then Backtrack
    else Or(alternatives[k](s), AltFrom(alternatives, k + 1, s))
  }

  /** A backtracking alternative passes the choice on to the next one. */
  lemma AltSkip(alternatives: seq<Recogniser>, k: nat, s: string)
    requires k < |alternatives| && alternatives[k](s).Backtrack?
    ensures AltFrom(alternatives, k, s) == AltFrom(alternatives, k + 1, s)
  {
  }

  /** `Alt` yields the result of the first alternative that does not backtrack. */
  lemma {:induction false} AltFirst(alternatives: seq<Recogniser>, s: string, k: nat, i: nat)
    requires k <= i < |alternatives| && !alternatives[i](s).Backtrack?
    requires forall j :: k <= j < i ==> alternatives[j](s).Backtrack?
    ensures AltFrom(alternatives, k, s) == alternatives[i](s)
    decreases i - k
  {
    if k < i {
      AltFirst(alternatives, s, k + 1, i);
    }
  }

  /** `Alt` backtracks exactly when every alternative does. */
  lemma {:induction false} AltNone(alternatives: seq<Recogniser>, s: string, k: nat)
    ensures AltFrom(alternatives, k, s).Backtrack?
            <==> forall j :: k <= j < |alternatives| ==> alternatives[j](s).Backtrack?
    decreases |alternatives| - k
  {
    if k < |alternatives| {
      AltNone(alternatives, s, k + 1);
    }
  }

  /** Whatever `Alt` yields, other than a backtrack, is what some alternative
      yields when all the earlier ones backtrack. */
  lemma {:induction false} AltSome(alternatives: seq<Recogniser>, s: string, k: nat) returns (i: nat)
    requires !AltFrom(alternatives, k, s).Backtrack?
    ensures k <= i < |alternatives| && AltFrom(alternatives, k, s) == alternatives[i](s)
    ensures forall j :: k <= j < i ==> alternatives[j](s).Backtrack?
    decreases |alternatives| - k
  {
    if alternatives[k](s).Backtrack? {
      i := AltSome(alternatives, s, k + 1);
    } else {
      i := k;
    }
  }

  /** `Alt` keeps what all its alternatives guarantee: consuming input and
      producing a token of a given kind. */
  lemma {:induction false} AltKeeps(alternatives: seq<Recogniser>, s: string, k: nat, p: Token -> bool)
    requires forall i :: k <= i < |alternatives| ==>
      Advances(s, alternatives[i](s)) && (alternatives[i](s).Ok? ==> p(alternatives[i](s).value))
    ensures Advances(s, AltFrom(alternatives, k, s))
    ensures AltFrom(alternatives, k, s).Ok? ==> p(AltFrom(alternatives, k, s).value)
    decreases |alternatives| - k
  {
    if k < |alternatives| {
      assert Advances(s, alternatives[k](s));
      AltKeeps(alternatives, s, k + 1, p);
    }
  }

  /** `ws1(let_keyword)`. */
  function LetThenSpace(s: string): (r: PResult<Token>)
    ensures Advances(s, r) && !r.Cut?
    ensures r.Ok? <==> StartsWith(s, "let") && |s| > 3 && IsSpace(s[3])
    ensures r.Ok? ==> r.value == Let
  {
    Ws0Advances(s, LexLet(s));
    Ws1(LexLet(s))
  }

  /** `ws1(extern_keyword)`. */
  function ExternThenSpace(s: string): (r: PResult<Token>)
    ensures Advances(s, r) && !r.Cut?
    ensures r.Ok? <==> StartsWith(s, "extern") && |s| > 6 && IsSpace(s[6])
    ensures r.Ok? ==> r.value == Extern
  {
    Ws0Advances(s, LexExtern(s));
    Ws1(LexExtern(s))
  }

  /** `ws1(pipe)`. */
  function PipeThenSpace(s: string): (r: PResult<Token>)
    ensures Advances(s, r) && !r.Cut?
    ensures r.Ok? <==> StartsWith(s, "|>") && |s| > 2 && IsSpace(s[2])
    ensures r.Ok? ==> r.value == Pipe
  {
    Ws0Advances(s, LexPipe(s));
    Ws1(LexPipe(s))
  }

  /** `ws0(literal)`. */
  function LiteralThenSpace(s: string): (r: PResult<Token>)
    ensures Advances(s, r)
    ensures r.Ok? ==> r.value.Lit?
    ensures !r.Ok? ==> r == LexLiteral(s)
  {
    Ws0Advances(s, LexLiteral(s));
    Ws0(LexLiteral(s))
  }

  /** `ws0(ident)`. */
  function IdentThenSpace(s: string): (r: PResult<Token>)
    ensures Advances(s, r) && !r.Cut?
    ensures r.Ok? <==> s != [] && IsAlnum(s[0])
    ensures r.Ok? ==> r.value == Ident(s[..Span(s, IsAlnum)])
  {
    Ws0Advances(s, LexIdent(s));
    Ws0(LexIdent(s))
  }

  /** The alternatives of the `full_program` loop in priority order. */
  const TokenAlternatives: seq<Recogniser> := [
    LexComment,
    LexIndent,
    LetThenSpace,
    ExternThenSpace,
    PipeThenSpace,
    LiteralThenSpace,
    LexAssign,
    IdentThenSpace
  ]

  /** Every alternative that succeeds consumes input. */
  lemma AlternativesAdvance(s: string)
    ensures forall i :: 0 <= i < |TokenAlternatives| ==> Advances(s, TokenAlternatives[i](s))
  {
  }

  /** One iteration of the `full_program` loop: the first alternative that
      does not backtrack, then all whitespace after the token. */
  function NextToken(s: string): (r: PResult<Token>)
    ensures Advances(s, r)
    ensures r.Ok? ==> r.rest == [] || !IsSpace(r.rest[0])
  {
    AlternativesAdvance(s);
    AltKeeps(TokenAlternatives, s, 0, (t: Token) => true);
    Ws0Advances(s, Alt(TokenAlternatives, s));
    Ws0(Alt(TokenAlternatives, s))
  }

  /** Every success of `next` consumes input, so repeating it terminates. */
  ghost predicate Progresses(next: string -> PResult<Token>) {
    forall s :: Advances(s, next(s))
  }

  /** The tokens `next` recognises one after another from `s`, up to the first
      position where it does not succeed, and the input left at that position. */
  function Repeat(next: string -> PResult<Token>, s: string): (r: (seq<Token>, string))
    requires Progresses(next)
    ensures IsSuffix(r.1, s)
    ensures |r.0| <= |s| - |r.1|
    decreases |s|
  {
    match next(s)
    case Ok(t, rest) =>
      assert Advances(s, next(s));
      var (ts, end) := Repeat(next, rest);
      SuffixTransitive(end, rest, s);
      ([t] + ts, end)
    case _ => ([], s)
  }

  /** The repetition ends where `next` does not succeed. */
  lemma {:induction false} RepeatStops(next: string -> PResult<Token>, s: string)
    requires Progresses(next)
    ensures !next(Repeat(next, s).1).Ok?
    decreases |s|
  {
    if next(s).Ok? {
      assert Advances(s, next(s));
      RepeatStops(next, next(s).rest);
    }
  }

  lemma NextTokenProgresses()
    ensures Progresses(NextToken)
  {
    forall s: string ensures Advances(s, NextToken(s)) {
    }
  }

  /** The token loop of `full_program` on input already stripped of leading whitespace. */
  function Lex(s: string): (r: (seq<Token>, string))
    ensures IsSuffix(r.1, s)
    ensures |r.0| <= |s| - |r.1|
  {
    NextTokenProgresses();
    Repeat(NextToken, s)
  }

  /** The token loop stops at the first position where no token is recognised. */
  lemma LexStops(s: string)
    ensures !NextToken(Lex(s).1).Ok?
  {
    NextTokenProgresses();
    RepeatStops(NextToken, s);
  }

  /** What `full_program` returns for a whole script: leading whitespace is
      stripped, then the tokens are lexed. */
  function Program(input: string): (seq<Token>, string) {
    Lex(input[Span(input, IsSpace)..])
  }

  /** One `alt((line_ending, multispace1))` step of `strip_start`. */
  function Stripper(s: string): (r: PResult<string>)
    ensures Advances(s, r) && !r.Cut?
    ensures r.Ok? <==> s != [] && IsSpace(s[0])
  {
    if StartsWith(s, "\n") then Ok("\n", s[1..])
    else if StartsWith(s, "\r\n") then Ok("\r\n", s[2..])
    else
      var n := Span(s, IsSpace);
      if n > 0 then Ok(s[..n], s[n..]) else Backtrack
  }

  /** What one stripper step consumes is whitespace. */
  lemma StripperConsumesSpace(s: string)
    requires Stripper(s).Ok?
    ensures forall i :: 0 <= i < |s| - |Stripper(s).rest| ==> IsSpace(s[i])
  {
    if StartsWith(s, "\r\n") {
      assert s[1] == s[..2][1];
    }
  }

  method StripStart(input: string) returns (rest: string)
    ensures rest == input[Span(input, IsSpace)..]
  {
    rest := input;
    ghost var k := 0;
    while Stripper(rest).Ok?
      invariant 0 <= k <= |input| && rest == input[k..]
      invariant forall i :: 0 <= i < k ==> IsSpace(input[i])
      decreases |rest|
    {
      var step := Stripper(rest);
      ghost var n := |rest| - |step.rest|;
      StripperConsumesSpace(rest);
      assert forall i :: k <= i < k + n ==> input[i] == rest[i - k];
      k := k + n;
      rest := step.rest;
    }
    SpanIs(input, IsSpace, k);
  }

  lemma AppendAssoc(a: seq<Token>, v: Token, b: seq<Token>)
    ensures a + ([v] + b) == (a + [v]) + b
  {
  }

  /** Runs `next` from `start` while it succeeds, collecting its tokens. */
  method RepeatLoop(next: string -> PResult<Token>, start: string) returns (tokens: seq<Token>, rest: string)
    requires Progresses(next)
    ensures (tokens, rest) == Repeat(next, start)
  {
    var cursor := start;
    tokens := [];
    var step := next(cursor);
    while step.Ok?
      invariant step == next(cursor)
      invariant tokens + Repeat(next, cursor).0 == Repeat(next, start).0
      invariant Repeat(next, cursor).1 == Repeat(next, start).1
      decreases |cursor|
    {
      assert Advances(cursor, step);
      AppendAssoc(tokens, step.value, Repeat(next, step.rest).0);
      tokens := tokens + [step.value];
      cursor := step.rest;
      step := next(cursor);
    }
    assert tokens + [] == tokens;
    rest := cursor;
  }

  /** `full_program`: strip the leading whitespace, then push tokens while
      the next one is recognised. It never fails. */
  method FullProgram(input: string) returns (tokens: seq<Token>, rest: string)
    ensures (tokens, rest) == Program(input)
  {
    var start := StripStart(input);
    NextTokenProgresses();
    tokens, rest := RepeatLoop(NextToken, start);
  }
}
