# imglang in Dafny

imglang is a small language for drawing images. A script is lexed into tokens.
It is evaluated by a script engine against a library of scene built-ins: a
canvas, circles, strokes, transforms and externally supplied inputs. The
canvas the script produces is rendered to SVG. This project models five parts
of that pipeline and proves what each of them promises:

- **The lexer** (`Parse`, `ParseFacts`, `ParseExamples`):
  - `full_program` strips leading whitespace, then repeatedly tries a fixed
    priority list of recognisers: comment, indent, `let`, `extern`, `|>`,
    literal, `=`, identifier.
  - It eats the whitespace after every token and stops at the first position
    where nothing matches.
  - The parser-combinator semantics is modelled as a three-way result
    (`Ok(value, rest)`, `Backtrack`, `Cut`).
  - The two driving loops, `strip_start` and the token loop, are methods with
    `while` loops. They are proved equal to the recursive specifications
    `Span` and `Repeat`.
  - The lexer's three unit-test scripts are proved to lex to exactly the
    expected token lists.
- **The scene built-ins** (`ImgStd`, with the data types in `ImgGeometry`,
  `ImgStyle` and `ImgInput`):
  - `Context` is a class whose `Draw` appends to a sequence field.
  - The other built-ins are constructors with exact contracts.
- **Transforms and shapes** (`ImgTransform`, `ImgShape`):
  - Affine maps follow kurbo's `[a, b, c, d, e, f]` convention over exact reals.
  - `Mul` applies its right operand first. It is proved associative, with
    `IDENTITY` neutral on both sides.
  - The canvas pre-transform is proved to send `(x, y)` to `(x + w/2, h/2 - y)`.
- **Rendering** (`ContextArtist`):
  - `draw_context_to_svg` is a method over a render-context class that records
    drawing commands.
  - It is proved to issue exactly `Rendering(w, h, shapes)`: one white
    background fill, then one stroke per entry, in order. Each stroke carries
    its entry's own colour and width and its shape moved by the shared
    pre-transform.
  - `write` is a `write_all` of the header, the renderer's own write of its
    SVG body, and a `write_all` of the footer, with early return, into a
    bounded-capacity sink. The renderer's write is modelled as one
    all-or-prefix write of the body text. The document is header, body,
    footer, and a failed write leaves exactly the prefix that fitted.
  - The header is proved to determine the canvas size it states.
- **The solver** (`Solving`):
  - The frame counter is a `u32` with wrapping increment.
  - `solve` installs a resolver over the inputs and binds `TIME` to the
    counter widened to i64. It hands both to a script engine, which is a
    function parameter, and renders the canvas the engine returns.

The lexer is built on winnow 0.5. The model takes its recognisers to behave
as follows:

- `dec_int` is an optional sign followed by a non-zero digit and more digits,
  or a lone unsigned `0`, and a value outside i64 backtracks. So `-0` and `+0`
  are not `dec_int` text.
- `float` is a decimal float (digits, an optional fraction, an optional
  exponent), or else, without a sign, the words `nan`, `inf` and `infinity`
  in any case, tried in that order. `infinity` is never reached, because
  `inf` matches its first three letters.
- `till_line_ending` stops before `\n` or `\r\n` and fails on a `\r` that is
  not followed by `\n`.

Some consequences of the lexer as written (with the lemma that states each, where there is one):

- An integer outside the i64 range is read as a float (`OverflowIsFloat`).
- `-0` is read as a float (`SignedZeroIsFloat`, `NegativeZeroIsFloat`).
- A word starting with `inf` or `nan` in any case is a float followed by the
  rest of the word, because the literal recogniser is tried before the
  identifier one: `let info = 1` lexes as Let, the infinite float, Ident `o`,
  Assign, Int 1 (`SpecialFloatToken`, `InfoIsSplit`).
- `externInt` is an identifier, because a keyword needs whitespace after it
  (`ExternKeyword`, `InputDeclaration`).
- `trueColor` lexes as the boolean `true` followed by the identifier `Color`,
  because the boolean recogniser matches a prefix.
- `1e` aborts the token loop: the float exponent demands digits once `e` is
  seen (`LexExponent`).
- `full_program` never produces an `Indent` token (`ProgramNeverIndents`).
  The whitespace after every token, and at the start of the script, is
  consumed before the indent recogniser could see four spaces.

## Model

| member | source | states |
|---|---|---|
| `Numbers.Show` | src/context_artist.rs:90-101 | Decimal formatting used for `{}`: nonempty, all digits, denotes exactly `n`, no leading zero |
| `Parse.Span` | src/parse.rs:104-116 | The length of the longest prefix satisfying a predicate: every character before it satisfies it and the next one does not |
| `Parse.SpanIs` | src/parse.rs:104-116 | Those two conditions determine the span uniquely |
| `Parse.Tag` | src/parse.rs:36-48 | A fixed-text matcher succeeds iff the input starts with the text, and then yields the token with the text removed; it never cuts |
| `Parse.Ws0` | src/parse.rs:104-109 | `ws0` keeps the inner result's value, consumes only whitespace after it, and leaves no whitespace at the cursor; failures pass through unchanged |
| `Parse.Ws0Advances` | src/parse.rs:104-116 | Wrapping a recogniser that consumes input in `ws0` or `ws1` still consumes input |
| `Parse.LexExtern` | src/parse.rs:36-39 | Succeeds iff the input starts with `extern`, yielding `Extern` and the input after the six letters |
| `Parse.LexLet` | src/parse.rs:41-44 | Succeeds iff the input starts with `let`, yielding `Let` and the input after it |
| `Parse.LexAssign` | src/parse.rs:46-48 | Succeeds iff the first character is `=`, yielding `Assign` and the rest |
| `Parse.LexIndent` | src/parse.rs:94-96 | Succeeds iff the input starts with four spaces, yielding `Indent` and the input after them |
| `Parse.LexPipe` | src/parse.rs:98-100 | Succeeds iff the input starts with the pipe operator, yielding `Pipe` and the rest |
| `Parse.LexIdent` | src/parse.rs:50-52 | Succeeds iff the first character is ASCII alphanumeric; the name is the whole alphanumeric run, and what follows it is not alphanumeric |
| `Parse.LexComment` | src/parse.rs:54-57 | A success starts with `//`, consumes only non-line-ending characters after it, and stops at the end of input or at a `\n` / `\r\n` line ending |
| `Parse.LexString` | src/parse.rs:59-64 | A success is a quote, a nonempty alphanumeric run and a quote, and the token holds the run without the quotes |
| `Parse.LexBool` | src/parse.rs:66-74 | Succeeds iff the input starts with `true` or `false`, yielding that boolean and the input after the word |
| `Parse.SignLength` | src/parse.rs:76-77 | The optional sign is at most one character, and is one exactly when the input starts with `+` or `-` |
| `Parse.DecInt` | src/parse.rs:76-77 | `dec_int` never cuts and consumes input when it succeeds; what it reads is stated by `DecIntReadsText`, `DecIntRoundTrip` and `DecIntRejectsOverflow` |
| `Parse.DecIntReadsText` | src/parse.rs:76-77 | What the integer reader consumes is exactly the decimal text of the value it yields, optionally preceded by `+` |
| `Parse.DecIntText` | src/parse.rs:76-77 | A signed digit run without a leading zero is the decimal text of the value it denotes |
| `Parse.LexInt` | src/parse.rs:76-83 | Succeeds iff the integer reader succeeds and the next character is not `.`, `e` or `E`, yielding that integer as a literal |
| `Parse.LexMantissa` | src/parse.rs:85-87 | A float mantissa is digits and optional fraction digits, not both empty |
| `Parse.MantissaSplits` | src/parse.rs:85-87 | The input is the whole digits, then the rest or a `.`, the fraction digits and the rest; the rest does not start with a digit |
| `Parse.LexExponent` | src/parse.rs:85-87 | The exponent never backtracks; it cuts iff `e`/`E` (with an optional sign) is not followed by a digit, and yields 0 when there is no exponent |
| `Parse.Pow10Real` | src/parse.rs:85-87 | Powers of ten on reals are positive, and the zeroth power is 1 |
| `Parse.Pow10RealStep` | src/parse.rs:85-87 | Each power of ten is ten times the one before it, for negative exponents too |
| `Parse.LexSpecialFloat` | src/parse.rs:85-87 | Succeeds iff the input starts with `nan` or `inf` in any case, consuming three letters; `nan` gives not-a-number and `inf` infinity; never cuts |
| `Parse.LexFloat` | src/parse.rs:85-87 | A success is a float literal and consumes input |
| `Parse.LexLiteral` | src/parse.rs:89-92 | `literal` only ever yields literal tokens and consumes input on success |
| `Parse.AltSkip` | src/parse.rs:89-92 | A backtracking alternative passes the choice on to the next one |
| `Parse.AltFirst` | src/parse.rs:89-92 | Ordered choice yields the result of the first alternative that does not backtrack |
| `Parse.AltNone` | src/parse.rs:89-92 | Ordered choice backtracks exactly when every alternative does |
| `Parse.AltSome` | src/parse.rs:89-92 | Any non-backtrack outcome of ordered choice is some alternative's outcome, with all earlier ones backtracking |
| `Parse.AltKeeps` | src/parse.rs:89-92 | Ordered choice keeps what all its alternatives guarantee about their tokens and about consuming input |
| `Parse.Alt` | src/parse.rs:89-92 | winnow's `alt`: the first alternative that does not backtrack decides, as `AltFirst`, `AltNone` and `AltSome` state |
| `Parse.Ws1` | src/parse.rs:111-116 | `ws1` succeeds iff the inner recogniser does and whitespace follows; it then eats that whitespace as `ws0` does; a missing space is a backtrack and other failures pass through |
| `Parse.LetThenSpace` | src/parse.rs:143 | `ws1(let_keyword)` succeeds iff `let` is followed by at least one whitespace character |
| `Parse.ExternThenSpace` | src/parse.rs:144 | `ws1(extern_keyword)` succeeds iff `extern` is followed by whitespace |
| `Parse.PipeThenSpace` | src/parse.rs:145 | `ws1(pipe)` succeeds iff the pipe operator is followed by whitespace |
| `Parse.LiteralThenSpace` | src/parse.rs:146 | `ws0(literal)` yields literals, and its failures are the failures of `literal` |
| `Parse.IdentThenSpace` | src/parse.rs:148 | `ws0(ident)` succeeds iff the first character is alphanumeric, and yields the whole alphanumeric run |
| `Parse.AlternativesAdvance` | src/parse.rs:140-149 | Every alternative of the token loop consumes input when it succeeds |
| `Parse.NextToken` | src/parse.rs:140-150 | One loop step consumes input and leaves no whitespace at the cursor |
| `Parse.Repeat` | src/parse.rs:140-153 | The repetition ends on a suffix of the input and yields at most one token per consumed character |
| `Parse.RepeatStops` | src/parse.rs:140-153 | The repetition stops exactly where the step no longer succeeds |
| `Parse.NextTokenProgresses` | src/parse.rs:140-153 | The token step always makes progress, so the loop terminates |
| `Parse.Lex` | src/parse.rs:140-153 | The token loop ends on a suffix of its input |
| `Parse.LexStops` | src/parse.rs:140-153 | The token loop stops at the first position where no token is recognised |
| `Parse.Stripper` | src/parse.rs:119-122 | One stripper step succeeds iff the cursor is at whitespace |
| `Parse.StripperConsumesSpace` | src/parse.rs:119-122 | One stripper step consumes only whitespace |
| `Parse.StripStart` | src/parse.rs:118-128 | The stripping loop removes exactly the leading whitespace |
| `Parse.RepeatLoop` | src/parse.rs:140-153 | The `while let` loop collects exactly the tokens of the recursive repetition, in source order, and stops at the same place |
| `Parse.FullProgram` | src/parse.rs:134-156 | `full_program` returns exactly `Program(input)`: strip, then the token loop, never failing |
| `Parse.Program` | src/parse.rs:134-156 | The tokens of a whole script: the stripping loop, then the token loop; the loops are proved equal to it by `FullProgram`, and it never yields `Indent` by `ProgramNeverIndents` |
| `ParseFacts.DecIntNegative` | src/parse.rs:76-77 | A minus sign before a digit run negates its value when the result is within i64 and backtracks otherwise |
| `ParseFacts.DecIntPositive` | src/parse.rs:76-77 | An unsigned digit run is its value when that is within i64 and backtracks otherwise |
| `ParseFacts.ShowDigits` | src/parse.rs:76-77 | The digit reader reads back the decimal text of every positive number |
| `ParseFacts.NegativeText` | src/parse.rs:76-77 | The integer reader on `-` and a decimal text: the negated value if it is within i64, else a backtrack |
| `ParseFacts.PositiveText` | src/parse.rs:76-77 | The integer reader on a decimal text: the value if it is within i64, else a backtrack |
| `ParseFacts.DecIntRoundTrip` | src/parse.rs:76-77 | The integer reader reads back the decimal text of every i64 |
| `ParseFacts.DecIntRejectsOverflow` | src/parse.rs:76-77 | The decimal text of a value outside i64 is not an integer to the reader |
| `ParseFacts.IntLiteralRoundTrip` | src/parse.rs:76-92 | Through `literal`, every i64's decimal text followed by a non-digit, non-`.`/`e`/`E` is that integer literal |
| `ParseFacts.IntBeforeFloatTail` | src/parse.rs:79-80 | An integer directly followed by `.`, `e` or `E` backtracks in the integer recogniser |
| `ParseFacts.MantissaOfDigits` | src/parse.rs:85-87 | A bare digit run is a mantissa with no fraction and no exponent |
| `ParseFacts.FloatOfDigits` | src/parse.rs:85-87 | A signed bare digit run is a float with the value of its digits |
| `ParseFacts.WholeFloatValue` | src/parse.rs:85-87 | A float with no fraction and no exponent denotes its digits' value, negated under `-` |
| `ParseFacts.FloatOfIntText` | src/parse.rs:85-87 | The float recogniser reads the decimal text of any integer as that integer |
| `ParseFacts.NumberIsNotBool` | src/parse.rs:66-74 | Text starting with a sign or a digit is not a boolean |
| `ParseFacts.OverflowIsFloat` | src/parse.rs:76-92 | An integer outside i64 is lexed by `literal` as a float of the same value |
| `ParseFacts.SpecialFloatLiteral` | src/parse.rs:85-92 | A word starting with `nan` or `inf` in any case is, through `literal`, the float not-a-number or infinity, consuming three letters |
| `ParseFacts.SignedZeroIsFloat` | src/parse.rs:76-92 | `-0` or `+0` followed by a non-digit, non-`.`/`e`/`E` is the float 0 through `literal` |
| `ParseFacts.StringLiteralComplete` | src/parse.rs:59-64 | Every quoted nonempty alphanumeric word is a string literal holding the word |
| `ParseFacts.StringLiteralSound` | src/parse.rs:59-92 | A string literal starts with a quote, and `literal` gives it to the string recogniser unchanged |
| `ParseFacts.LetRecognised` | src/parse.rs:143 | `let` followed by whitespace is the next token `Let` |
| `ParseFacts.LetOnlyRecognised` | src/parse.rs:140-149 | The loop yields `Let` only for `let` followed by whitespace |
| `ParseFacts.LetKeyword` | src/parse.rs:140-149 | Both directions: `Let` is next iff `let` is followed by whitespace |
| `ParseFacts.ExternRecognised` | src/parse.rs:144 | `extern` followed by whitespace is the next token `Extern` |
| `ParseFacts.ExternOnlyRecognised` | src/parse.rs:140-149 | The loop yields `Extern` only for `extern` followed by whitespace |
| `ParseFacts.ExternKeyword` | src/parse.rs:140-149 | Both directions: `Extern` is next iff `extern` is followed by whitespace |
| `ParseFacts.PipeRecognised` | src/parse.rs:145 | The pipe operator followed by whitespace is the next token `Pipe` |
| `ParseFacts.PipeOnlyRecognised` | src/parse.rs:140-149 | The loop yields `Pipe` only for the pipe operator followed by whitespace |
| `ParseFacts.PipeKeyword` | src/parse.rs:140-149 | Both directions: `Pipe` is next iff the pipe operator is followed by whitespace |
| `ParseFacts.IndentNeedsSpaces` | src/parse.rs:140-149 | An `Indent` token needs four spaces at the cursor |
| `ParseFacts.NotALiteral` | src/parse.rs:89-92 | Text whose first character cannot start a literal, which is not `true`, `false`, `nan` or `inf`, is not a literal |
| `ParseFacts.NotComment` | src/parse.rs:54-57 | Without `/` first there is no comment |
| `ParseFacts.NotIndent` | src/parse.rs:94-96 | Without a space first there is no indent |
| `ParseFacts.NotLet` | src/parse.rs:143 | Without `l` first there is no `let` |
| `ParseFacts.NotExtern` | src/parse.rs:144 | Without `e` first there is no `extern` |
| `ParseFacts.NotPipe` | src/parse.rs:145 | Without a vertical bar first there is no pipe |
| `ParseFacts.NextTokenFrom` | src/parse.rs:140-150 | When the earlier alternatives all decline, the loop step is the first accepting alternative's token, with the whitespace after it eaten |
| `ParseFacts.LetToken` | src/parse.rs:140-150 | `let`, whitespace and the rest give one `Let` token |
| `ParseFacts.ExternToken` | src/parse.rs:140-150 | `extern`, whitespace and the rest give one `Extern` token |
| `ParseFacts.PipeToken` | src/parse.rs:140-150 | The pipe operator, whitespace and the rest give one `Pipe` token |
| `ParseFacts.AssignToken` | src/parse.rs:140-150 | `=` gives one `Assign` token, with or without whitespace after it |
| `ParseFacts.IntToken` | src/parse.rs:140-150 | An i64's decimal text gives one integer token, provided the digits end there |
| `ParseFacts.IdentLexeme` | src/parse.rs:50-52 | An alphanumeric word followed by a non-alphanumeric character is that identifier |
| `ParseFacts.IdentDeclines` | src/parse.rs:140-147 | No alternative tried before the identifier accepts a word that is not a keyword and does not start with `true`, `false`, `nan` or `inf` |
| `ParseFacts.IdentToken` | src/parse.rs:140-150 | Such a word gives one identifier token |
| `ParseFacts.SpecialFloatToken` | src/parse.rs:140-150 | A word starting with `nan` or `inf` in any case gives a float token for its first three letters, and lexing goes on after them |
| `ParseFacts.KeywordsNeedSpace` | src/parse.rs:143-144 | A word other than `let`/`extern` never begins a keyword token, so `externInt` is not `extern` |
| `ParseFacts.CommentAlternative` | src/parse.rs:54-57 | `//`, a body without line endings and a line ending give a comment ending where the line does |
| `ParseFacts.CommentToken` | src/parse.rs:140-141 | A comment is tried first and is one `Comment` token, with the line ending eaten after it |
| `ParseFacts.NothingAtEnd` | src/parse.rs:140-150 | Nothing is recognised at the end of input |
| `ParseFacts.LexUnfold` | src/parse.rs:140-153 | The loop is one recognised token followed by the tokens of the rest, or nothing when no token is recognised |
| `ParseFacts.LexNeverIndents` | src/parse.rs:140-153 | From a non-whitespace position, the token loop never yields `Indent` |
| `ParseFacts.ProgramNeverIndents` | src/parse.rs:134-156 | `full_program` never yields `Indent`, whatever the script |
| `ParseExamples.HelloIsString` | src/parse.rs:164-168 | `"Hello"` with quotes is the string literal `Hello` |
| `ParseExamples.FractionIsFloat` | src/parse.rs:170-174 | `0.1234` is the float literal 0.1234 |
| `ParseExamples.NegativeIsInt` | src/parse.rs:176-180 | `-12` is the integer literal -12 |
| `ParseExamples.TrueIsBool` | src/parse.rs:182-186 | `true` is the boolean literal `true` |
| `ParseExamples.NoLeadingSpace` | src/parse.rs:118-138 | Text that starts with a non-space is lexed from its start |
| `ParseExamples.InputDeclaration` | src/parse.rs:190-203 | `let extern r = externInt 10 15` gives exactly the seven tokens Let, Extern, Ident r, Assign, Ident externInt, Int 10, Int 15, and consumes everything |
| `ParseExamples.Declaration` | src/parse.rs:206-222 | `let canvas = canvasWidthHeight 300 400` gives exactly Let, Ident canvas, Assign, Ident canvasWidthHeight, Int 300, Int 400 |
| `ParseExamples.PipeChain` | src/parse.rs:225-246 | The multi-line pipe script gives exactly Ident canvas, Pipe, Ident draw, Ident circle, Ident circleStroke, Pipe, Ident out |
| `ParseExamples.InfoIsSplit` | src/parse.rs:134-156 | `let info = 1` gives exactly Let, the infinite float, Ident o, Assign, Int 1 |
| `ParseExamples.NegativeZeroIsFloat` | src/parse.rs:76-92 | `-0` is the float literal 0, not an integer |
| `ImgTransform.GetPreTransform` | src/imgstd/transform.rs:11-18 | The canvas pre-transform, whose action `GetPreTransformMaps` states |
| `ImgTransform.Translate` | src/imgstd/transform.rs:20-24 | The translation by `(x, y)`, as `TranslateMaps` states |
| `ImgTransform.Mul` | src/imgstd/transform.rs:27-35 | The product of transforms, which applies its right operand first (`MulMaps`) and is associative (`MulAssociative`) |
| `ImgTransform.ComposeApplies` | src/imgstd/transform.rs:27-35 | The product of two affine maps applies the right one first |
| `ImgTransform.AffineExtensional` | src/imgstd/transform.rs:1-4 | An affine map is determined by where it sends every point |
| `ImgTransform.TransformExtensional` | src/imgstd/transform.rs:1-4 | Transforms that move every point alike are equal |
| `ImgTransform.GetPreTransformMaps` | src/imgstd/transform.rs:11-18 | The canvas pre-transform sends `(x, y)` to `(x + w/2, h/2 - y)` |
| `ImgTransform.TranslateMaps` | src/imgstd/transform.rs:20-24 | `translate(x, y)` moves every point by `(x, y)` |
| `ImgTransform.MulMaps` | src/imgstd/transform.rs:27-35 | `(A * B)(p) = A(B(p))` |
| `ImgTransform.IdentityFixesPoints` | src/imgstd/transform.rs:7-9 | `IDENTITY` maps every point to itself |
| `ImgTransform.IdentityIsNeutral` | src/imgstd/transform.rs:7-35 | `IDENTITY * t = t = t * IDENTITY` |
| `ImgTransform.MulAssociative` | src/imgstd/transform.rs:27-35 | `*` is associative |
| `ImgTransform.TranslationsAdd` | src/imgstd/transform.rs:20-35 | `translate(a, b) * translate(c, d) = translate(a + c, b + d)` |
| `ImgTransform.PreTransformCentres` | src/imgstd/transform.rs:11-18 | The pre-transform sends the origin to the canvas centre |
| `ImgTransform.PreTransformIsTranslatedMirror` | src/imgstd/transform.rs:11-18 | The pre-transform is the centring translation times the y mirror |
| `ImgShape.WithGeometry` | src/imgstd/shape.rs:10-15 | Stores the geometry under a transform that fixes every point |
| `ImgShape.New` | src/imgstd/shape.rs:25-30 | Stores exactly the given geometry and transform |
| `ImgShape.PreTransform` | src/imgstd/shape.rs:32-34 | The shape with `pre` applied after its transform, as `PreTransformMaps` states |
| `ImgShape.PreTransformMaps` | src/imgstd/shape.rs:32-34 | Pre-transforming keeps the geometry and applies `pre` after the old transform |
| `ImgShape.PreTransformTwice` | src/imgstd/shape.rs:32-34 | Pre-transforming by `p` then `q` is pre-transforming by `q * p`, leaving the transform `(q * p) * old` |
| `ImgShape.PreTransformIdentity` | src/imgstd/shape.rs:32-34 | Pre-transforming by `IDENTITY` changes nothing |
| `ImgStd.Context.CanvasWidthHeight` | src/imgstd/mod.rs:37-43 | A canvas of exactly the given dimensions with nothing drawn |
| `ImgStd.Context.Draw` | src/imgstd/mod.rs:70-72 | Appends exactly `(shape, stroke)` after the earlier entries; the dimensions do not change |
| `ImgStd.Context.Out` | src/imgstd/mod.rs:76-78 | Returns the drawn entries in draw order |
| `ImgStd.DrawTwiceThenOut` | src/imgstd/mod.rs:37-78 | A fresh canvas drawn on twice gives back exactly both entries, in order |
| `ImgStd.Stroke` | src/imgstd/mod.rs:45-47 | Stores exactly its width and colour |
| `ImgStd.Circle` | src/imgstd/mod.rs:49-51 | A circle of the given radius under a transform that fixes every point |
| `ImgStd.CircleAt` | src/imgstd/mod.rs:53-60 | A radius-`r` circle moved by `(x, y)`, as `CircleAtMaps` and `CircleAtIsTranslatedCircle` state |
| `ImgStd.Translation` | src/imgstd/mod.rs:62-64 | The translation by `(x, y)`, as `TranslationMaps` states |
| `ImgStd.TransformShape` | src/imgstd/mod.rs:66-68 | The shape with its transform replaced, as `TransformReplaces` states |
| `ImgStd.CircleAtMaps` | src/imgstd/mod.rs:53-60 | `circle_at(r, x, y)` is a radius-`r` circle moved by `(x, y)` |
| `ImgStd.CircleAtIsTranslatedCircle` | src/imgstd/mod.rs:53-68 | `circle_at(r, x, y) = transform(circle(r), translation(x, y))` |
| `ImgStd.TransformReplaces` | src/imgstd/mod.rs:66-68 | `transform` keeps the geometry and replaces the transform: it maps as `t` alone and is idempotent |
| `ImgStd.TranslationMaps` | src/imgstd/mod.rs:62-64 | `translation(x, y)` moves every point by `(x, y)` |
| `ImgStd.ExternInt` | src/imgstd/mod.rs:80-83 | An integer input with exactly the given bounds, unchecked |
| `ImgStd.ExternFloat` | src/imgstd/mod.rs:85-88 | A float input with exactly the given bounds, unchecked |
| `ContextArtist.IntoPietColor` | src/context_artist.rs:13-21 | The renderer colour of the same name, as `IntoPietColorNames` and `IntoPietColorInjective` state |
| `ContextArtist.IntoPiet` | src/context_artist.rs:4-11 | The renderer shape of a shape, placed as `IntoPietPlaces` states |
| `ContextArtist.IntoPietColorNames` | src/context_artist.rs:13-21 | Each colour becomes the renderer colour of the same name, in both directions |
| `ContextArtist.IntoPietColorInjective` | src/context_artist.rs:13-21 | Different colours never become the same renderer colour |
| `ContextArtist.IntoPietPlaces` | src/context_artist.rs:4-11 | A circle shape becomes a radius-`r` circle at the origin under a map that moves points as the shape's transform does |
| `ContextArtist.RenderContext.constructor` | src/context_artist.rs:26 | A render context of the given size with no commands |
| `ContextArtist.RenderContext.Fill` | src/context_artist.rs:30-33 | Appends exactly one fill command |
| `ContextArtist.RenderContext.Stroke` | src/context_artist.rs:38-42 | Appends exactly one stroke command |
| `ContextArtist.StrokeFor` | src/context_artist.rs:35-43 | The stroke command of one entry, whose colour, width and placement `RenderingOrder` and `RenderingPlaces` state |
| `ContextArtist.Rendering` | src/context_artist.rs:23-46 | The drawing commands of a canvas, as `RenderingOrder`, `RenderingPlaces` and `RenderingOfDraw` state; `DrawContextToSvg` issues exactly these |
| `ContextArtist.RenderingOrder` | src/context_artist.rs:30-43 | The white background fill of `Rect(0, 0, w, h)` comes first, then exactly one stroke per entry, in entry order, each with the entry's own colour and width |
| `ContextArtist.RenderingPlaces` | src/context_artist.rs:28-37 | Every stroke's shape moves points by the entry's transform followed by the shared pre-transform |
| `ContextArtist.RenderingOfDraw` | src/context_artist.rs:35-43 | Rendering one more entry adds exactly its stroke at the end |
| `ContextArtist.CircleAtCentre` | src/context_artist.rs:28-43 | A `circle_at(r, x, y)` circle is centred at `(x + w/2, h/2 - y)` on the canvas |
| `ContextArtist.DrawContextToSvg` | src/context_artist.rs:23-46 | The writer's render context has the canvas size and holds exactly `Rendering(w, h, shapes)` |
| `ContextArtist.Sink.constructor` | src/context_artist.rs:106 | An empty sink of the given capacity |
| `ContextArtist.Sink.WriteAll` | src/context_artist.rs:107-109 | `write_all` succeeds iff the data fits; on failure exactly the fitting prefix is written |
| `ContextArtist.AsU64` | src/context_artist.rs:113-119 | Rust's float-to-u64 cast: truncation toward zero, 0 below zero, `u64::MAX` above the range |
| `ContextArtist.ShowThenNonDigit` | src/context_artist.rs:89-102 | A decimal number followed by a non-digit can be read back uniquely |
| `ContextArtist.ClippingHeader` | src/context_artist.rs:89-102 | The header text for a size, which states that size (`ClippingHeaderDeterminesSize`) |
| `ContextArtist.SvgImageWriter.GetClippingHeader` | src/context_artist.rs:89-102 | The header for the writer's own width and height |
| `ContextArtist.SvgImageWriter.Width` | src/context_artist.rs:113-115 | The canvas width cast to u64 with `AsU64` |
| `ContextArtist.SvgImageWriter.Height` | src/context_artist.rs:117-119 | The canvas height cast to u64 with `AsU64` |
| `ContextArtist.ClippingHeaderDeterminesSize` | src/context_artist.rs:89-102 | Different canvas sizes give different clipping headers: the header states its width and height |
| `ContextArtist.SvgImageWriter.constructor` | src/context_artist.rs:45 | The writer wraps exactly the given render context |
| `ContextArtist.SvgImageWriter.Write` | src/context_artist.rs:87-111 | Writes the header with the writer's width and height, then the body, then `</svg>`; succeeds iff the whole document fits; on failure leaves exactly the prefix that fitted |
| `ContextArtist.WriteDocument` | src/context_artist.rs:106-111 | The header's `write_all`, the body write and the footer's `write_all`, with early return, write the concatenation, or exactly its fitting prefix |
| `Solving.Resolve` | src/solver.rs:42-52 | Absent names are unresolved (both directions); Int and Float inputs are answered with their values; Color inputs, and only they, hit the unimplemented case |
| `Solving.Resolver` | src/solver.rs:42-52 | The closure `solve` installs, answering every name as `Resolve` states |
| `Solving.TimeConstant` | src/solver.rs:54-55 | `TIME` equals the frame counter and lies in `[0, 2^32)` |
| `Solving.WrappingIncrement` | src/solver.rs:63-65 | `wrapping_add(1)`: one more below `u32::MAX`, 0 at `u32::MAX` |
| `Solving.Solver.constructor` | src/solver.rs:28-33 | The frame counter starts at 0, with no resolver installed |
| `Solving.Solver.Solve` | src/solver.rs:35-61 | Installs the resolver for the inputs and keeps the frame counter; the engine sees `TIME` equal to the counter; an evaluation error is returned unchanged; otherwise the result is a new writer whose render context has the evaluated canvas's width and height and holds exactly its drawing commands |
| `Solving.Solver.AdvanceTime` | src/solver.rs:63-65 | The counter becomes its wrapping increment; nothing else changes |
| `Solving.Solver.ResetTime` | src/solver.rs:67-69 | The counter becomes 0; nothing else changes |
| `Solving.Solver.GetTime` | src/solver.rs:71-73 | Returns the counter and changes nothing |
| `Solving.CountFrames` | src/solver.rs:28-73 | A new solver reads 0, then 1 after one advance, and an advance from `u32::MAX` wraps to 0 |

## Left out

- The script engine: evaluating a script is the `engine` parameter of
  `Solving.Solver.Solve`, a function from the script, the resolver and `TIME`
  to a canvas or an error message. The engine's own
  `on_var`/`eval_with_scope` semantics are not modelled.
- `Solving.Resolve`: the `todo!()` on a Color input is a panic in the program.
  Here it is the result `Unimplemented`, and what the engine then does is up
  to the `engine` parameter.
- The input map validation in `solve` is commented out in the program and is
  not modelled. `InputMap`, the input extractor and the frame cache are not
  part of this model. `Inputs` is an abstract map from name to value.
- Floating point: every `f64` is an exact real. This covers transform
  coefficients, radii, stroke widths, float literals and the canvas size.
  The `i64 as f64` conversion of the canvas size is exact here, so rounding
  above 2^53 is not modelled.
- `Parse.LexFloat`: its contract states only that a success is a float
  literal. The values are pinned down by `FloatOfIntText`, `FloatOfDigits`,
  `SpecialFloatLiteral`, `SignedZeroIsFloat` and `FractionIsFloat`. Float
  values are exact reals, infinity or not-a-number: the sign of a zero and
  rounding to the nearest `f64` are not modelled. A signed infinity and the
  whole word `infinity` are not floats here, following the reading of
  `float` stated above.
- After a `Cut` the modelled token loop stops and returns what it has. Where
  the real cursor is left after a cut is not modelled, because nothing reads
  it.
- The renderer's SVG body serialisation is a parameter string `body` of
  `ContextArtist.SvgImageWriter.Write`. Drawing commands are an abstract
  list, not the SVG text.
- The renderer colours `BLACK`, `WHITE` and `RED` are represented by their
  RGBA8 values. The rendering library is not part of this model.
- The `color` module is not part of this model. `Color` has the three
  variants `From<Color>` matches.
- `Write`: I/O errors are modelled as a bounded sink, where `write_all` fails
  when the data does not fit. Other error sources are not modelled.
- `ImgShape.PreTransform`: `Shape` is a `Copy` value, so the in-place
  `pre_transform(&mut self)` becomes a function returning the updated value.
  `DrawContextToSvg` uses that value in place of the loop-local copy.
- The getters `Shape::geometry()` and `Shape::transform()` are the datatype
  fields `geometry` and `transform`.
- The `point`, `point_polar`, `line` and accessor built-ins are left out,
  along with `pi`, `phi`, `rho`, the step-function built-ins and the `BLACK`
  constant of the scene module. They rest on trigonometry or on geometry
  kinds the `Geometry` type does not have.
- The GUI, the command line and file I/O are left out.
- The interpreter and abstract syntax tree modules are left out, because they
  are unfinished stubs.
