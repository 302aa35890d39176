/** The lexer's own unit tests, stated as facts about the model. */
module ParseExamples {
  import opened Numbers
  import opened Parse
  import opened ParseFacts

  /** A quoted word is a string literal. */
  lemma HelloIsString()
    ensures LexLiteral("\"Hello\"") == Ok(Lit(String("Hello")), "")
  {
    StringLiteralComplete("Hello", "");
    assert "\"" + "Hello" + "\"" + "" == "\"Hello\"";
    StringLiteralSound("\"Hello\"");
  }

  lemma FractionMantissa()
    ensures LexMantissa("0.1234") == Ok(Mantissa("0", "1234"), "")
  {
    var t := "0.1234";
    SpanIs(t, IsDigit, 1);
    SpanIs(t[2..], IsDigit, 4);
    assert t[..1] == "0" && t[2..][..4] == "1234" && t[6..] == "";
  }

  lemma FractionValue()
    ensures FloatValue(false, Mantissa("0", "1234"), 0) == 0.1234
  {
    assert DigitsValue("0") == 0;
    assert DigitsValue("1234") == 1234 by {
      assert "1234"[..3] == "123" && "123"[..2] == "12" && "12"[..1] == "1" && "1"[..0] == "";
    }
    assert Pow10(4) == 10000;
  }

  lemma FractionFloat()
    ensures LexFloat("0.1234") == Ok(Lit(Float(Finite(0.1234))), "")
  {
    var s := "0.1234";
    assert SignLength(s) == 0 && s[0..] == s;
    FractionMantissa();
    FractionValue();
  }

  /** `0.1234` is a float: the integer recogniser leaves a number followed
      by `.` to the float recogniser. */
  lemma FractionIsFloat()
    ensures LexLiteral("0.1234") == Ok(Lit(Float(Finite(0.1234))), "")
  {
    var s := "0.1234";
    NumberIsNotBool(s);
    assert DecInt(s) == Ok(0, s[1..]);
    assert LexInt(s) == Backtrack;
    FractionFloat();
    assert AltFrom(LiteralAlternatives, 0, s) == AltFrom(LiteralAlternatives, 1, s);
    assert AltFrom(LiteralAlternatives, 1, s) == AltFrom(LiteralAlternatives, 2, s);
  }

  /** `-12` is an integer literal. */
  lemma NegativeIsInt()
    ensures LexLiteral("-12") == Ok(Lit(Int(-12)), "")
  {
    assert Show(1) == "1" && DigitChar(2) == '2';
    assert Show(12) == "12";
    assert IntText(-12) + "" == "-12";
    IntLiteralRoundTrip(-12, "");
  }

  /** `true` is a boolean literal. */
  lemma TrueIsBool()
    ensures LexLiteral("true") == Ok(Lit(Bool(true)), "")
  {
    assert StartsWith("true", "true");
  }

  /** One token, then the tokens of the rest. */
  lemma LexStep(s: string, t: Token, rest: string)
    requires NextToken(s) == Ok(t, rest)
    ensures Lex(s) == ([t] + Lex(rest).0, Lex(rest).1)
  {
    LexUnfold(s);
  }

  /** Text starting with something other than whitespace is lexed from its start. */
  lemma NoLeadingSpace(input: string)
    requires input != [] && !IsSpace(input[0])
    ensures Program(input) == Lex(input)
  {
    SpanIs(input, IsSpace, 0);
  }

  lemma EndOfInput()
    ensures Lex("") == ([], "")
  {
    NothingAtEnd();
    LexUnfold("");
  }

  /** `let extern r = externInt 10 15`, split where its tokens end: seven tokens, `externInt` being an identifier. */
  const InputDeclarationTokens := [Let, Extern, Ident("r"), Assign, Ident("externInt"), Lit(Int(10)), Lit(Int(15))]
  const InputDeclarationScript := "let" + " " + InputDeclaration1
  const InputDeclaration1 := "extern" + " " + InputDeclaration2
  const InputDeclaration2 := "r" + " " + InputDeclaration3
  const InputDeclaration3 := "=" + " " + InputDeclaration4
  const InputDeclaration4 := "externInt" + " " + InputDeclaration5
  const InputDeclaration5 := "10" + " " + InputDeclaration6
  const InputDeclaration6 := "15"

  lemma InputDeclarationStep1()
    ensures Lex(InputDeclarationScript) == ([Let] + ([Extern] + ([Ident("r")] + ([Assign] + ([Ident("externInt")] + ([Lit(Int(10))] + ([Lit(Int(15))] + [])))))), "")
  {
    LetToken(" ", InputDeclaration1);
    InputDeclarationStep2();
    LexStep(InputDeclarationScript, Let, InputDeclaration1);
  }

  lemma InputDeclarationStep2()
    ensures Lex(InputDeclaration1) == ([Extern] + ([Ident("r")] + ([Assign] + ([Ident("externInt")] + ([Lit(Int(10))] + ([Lit(Int(15))] + []))))), "")
  {
    ExternToken(" ", InputDeclaration2);
    InputDeclarationStep3();
    LexStep(InputDeclaration1, Extern, InputDeclaration2);
  }

  lemma InputDeclarationStep3()
    ensures Lex(InputDeclaration2) == ([Ident("r")] + ([Assign] + ([Ident("externInt")] + ([Lit(Int(10))] + ([Lit(Int(15))] + [])))), "")
  {
    FirstCharDecides(InputDeclaration2, "true");
    FirstCharDecides(InputDeclaration2, "false");
    NotSpecialFloatWord("r" + " " + InputDeclaration3);
    IdentToken("r", " ", InputDeclaration3);
    InputDeclarationStep4();
    LexStep(InputDeclaration2, Ident("r"), InputDeclaration3);
  }

  lemma InputDeclarationStep4()
    ensures Lex(InputDeclaration3) == ([Assign] + ([Ident("externInt")] + ([Lit(Int(10))] + ([Lit(Int(15))] + []))), "")
  {
    AssignToken(" ", InputDeclaration4);
    InputDeclarationStep5();
    LexStep(InputDeclaration3, Assign, InputDeclaration4);
  }

  lemma InputDeclarationStep5()
    ensures Lex(InputDeclaration4) == ([Ident("externInt")] + ([Lit(Int(10))] + ([Lit(Int(15))] + [])), "")
  {
    FirstCharDecides(InputDeclaration4, "true");
    FirstCharDecides(InputDeclaration4, "false");
    NotSpecialFloatWord("externInt" + " " + InputDeclaration5);
    IdentToken("externInt", " ", InputDeclaration5);
    InputDeclarationStep6();
    LexStep(InputDeclaration4, Ident("externInt"), InputDeclaration5);
  }

  lemma InputDeclarationStep6()
    ensures Lex(InputDeclaration5) == ([Lit(Int(10))] + ([Lit(Int(15))] + []), "")
  {
    assert Show(1) == "1" && Show(10) == "10";
    assert InputDeclaration5 == IntText(10) + " " + InputDeclaration6;
    IntToken(10, " ", InputDeclaration6);
    InputDeclarationStep7();
    LexStep(InputDeclaration5, Lit(Int(10)), InputDeclaration6);
  }

  lemma InputDeclarationStep7()
    ensures Lex(InputDeclaration6) == ([Lit(Int(15))] + [], "")
  {
    assert Show(1) == "1" && Show(15) == "15";
    assert InputDeclaration6 == IntText(15) + "" + "";
    IntToken(15, "", "");
    EndOfInput();
    LexStep(InputDeclaration6, Lit(Int(15)), "");
  }

  lemma InputDeclarationInOrder()
    ensures [Let] + ([Extern] + ([Ident("r")] + ([Assign] + ([Ident("externInt")] + ([Lit(Int(10))] + ([Lit(Int(15))] + [])))))) == InputDeclarationTokens
  {
  }

  lemma InputDeclaration()
    ensures Program(InputDeclarationScript) == (InputDeclarationTokens, "")
  {
    SpanIs(InputDeclarationScript, IsSpace, 0);
    InputDeclarationStep1();
    InputDeclarationInOrder();
  }

  /** `let canvas = canvasWidthHeight 300 400`, split where its tokens end: six tokens. */
  const DeclarationTokens := [Let, Ident("canvas"), Assign, Ident("canvasWidthHeight"), Lit(Int(300)), Lit(Int(400))]
  const DeclarationScript := "let" + " " + Declaration1
  const Declaration1 := "canvas" + " " + Declaration2
  const Declaration2 := "=" + " " + Declaration3
  const Declaration3 := "canvasWidthHeight" + " " + Declaration4
  const Declaration4 := "300" + " " + Declaration5
  const Declaration5 := "400"

  lemma DeclarationStep1()
    ensures Lex(DeclarationScript) == ([Let] + ([Ident("canvas")] + ([Assign] + ([Ident("canvasWidthHeight")] + ([Lit(Int(300))] + ([Lit(Int(400))] + []))))), "")
  {
    LetToken(" ", Declaration1);
    DeclarationStep2();
    LexStep(DeclarationScript, Let, Declaration1);
  }

  lemma DeclarationStep2()
    ensures Lex(Declaration1) == ([Ident("canvas")] + ([Assign] + ([Ident("canvasWidthHeight")] + ([Lit(Int(300))] + ([Lit(Int(400))] + [])))), "")
  {
    FirstCharDecides(Declaration1, "true");
    FirstCharDecides(Declaration1, "false");
    NotSpecialFloatWord("canvas" + " " + Declaration2);
    IdentToken("canvas", " ", Declaration2);
    DeclarationStep3();
    LexStep(Declaration1, Ident("canvas"), Declaration2);
  }

  lemma DeclarationStep3()
    ensures Lex(Declaration2) == ([Assign] + ([Ident("canvasWidthHeight")] + ([Lit(Int(300))] + ([Lit(Int(400))] + []))), "")
  {
    AssignToken(" ", Declaration3);
    DeclarationStep4();
    LexStep(Declaration2, Assign, Declaration3);
  }

  lemma DeclarationStep4()
    ensures Lex(Declaration3) == ([Ident("canvasWidthHeight")] + ([Lit(Int(300))] + ([Lit(Int(400))] + [])), "")
  {
    FirstCharDecides(Declaration3, "true");
    FirstCharDecides(Declaration3, "false");
    NotSpecialFloatWord("canvasWidthHeight" + " " + Declaration4);
    IdentToken("canvasWidthHeight", " ", Declaration4);
    DeclarationStep5();
    LexStep(Declaration3, Ident("canvasWidthHeight"), Declaration4);
  }

  lemma DeclarationStep5()
    ensures Lex(Declaration4) == ([Lit(Int(300))] + ([Lit(Int(400))] + []), "")
  {
    assert Show(3) == "3" && Show(30) == "30" && Show(300) == "300";
    assert Declaration4 == IntText(300) + " " + Declaration5;
    IntToken(300, " ", Declaration5);
    DeclarationStep6();
    LexStep(Declaration4, Lit(Int(300)), Declaration5);
  }

  lemma DeclarationStep6()
    ensures Lex(Declaration5) == ([Lit(Int(400))] + [], "")
  {
    assert Show(4) == "4" && Show(40) == "40" && Show(400) == "400";
    assert Declaration5 == IntText(400) + "" + "";
    IntToken(400, "", "");
    EndOfInput();
    LexStep(Declaration5, Lit(Int(400)), "");
  }

  lemma DeclarationInOrder()
    ensures [Let] + ([Ident("canvas")] + ([Assign] + ([Ident("canvasWidthHeight")] + ([Lit(Int(300))] + ([Lit(Int(400))] + []))))) == DeclarationTokens
  {
  }

  lemma Declaration()
    ensures Program(DeclarationScript) == (DeclarationTokens, "")
  {
    SpanIs(DeclarationScript, IsSpace, 0);
    DeclarationStep1();
    DeclarationInOrder();
  }

  /** A pipeline over several lines with leading and trailing whitespace, split where its tokens end: seven tokens. */
  const PipeChainTokens := [Ident("canvas"), Pipe, Ident("draw"), Ident("circle"), Ident("circleStroke"), Pipe, Ident("out")]
  const PipeScript := "\n  " + PipeChainStart
  const PipeChainStart := "canvas" + "\n  " + PipeChain1
  const PipeChain1 := "|>" + " " + PipeChain2
  const PipeChain2 := "draw" + " " + PipeChain3
  const PipeChain3 := "circle" + " " + PipeChain4
  const PipeChain4 := "circleStroke" + "\n  " + PipeChain5
  const PipeChain5 := "|>" + " " + PipeChain6
  const PipeChain6 := "out\n        "

  lemma PipeChainStep1()
    ensures Lex(PipeChainStart) == ([Ident("canvas")] + ([Pipe] + ([Ident("draw")] + ([Ident("circle")] + ([Ident("circleStroke")] + ([Pipe] + ([Ident("out")] + [])))))), "")
  {
    FirstCharDecides(PipeChainStart, "true");
    FirstCharDecides(PipeChainStart, "false");
    NotSpecialFloatWord("canvas" + "\n  " + PipeChain1);
    IdentToken("canvas", "\n  ", PipeChain1);
    PipeChainStep2();
    LexStep(PipeChainStart, Ident("canvas"), PipeChain1);
  }

  lemma PipeChainStep2()
    ensures Lex(PipeChain1) == ([Pipe] + ([Ident("draw")] + ([Ident("circle")] + ([Ident("circleStroke")] + ([Pipe] + ([Ident("out")] + []))))), "")
  {
    PipeToken(" ", PipeChain2);
    PipeChainStep3();
    LexStep(PipeChain1, Pipe, PipeChain2);
  }

  lemma PipeChainStep3()
    ensures Lex(PipeChain2) == ([Ident("draw")] + ([Ident("circle")] + ([Ident("circleStroke")] + ([Pipe] + ([Ident("out")] + [])))), "")
  {
    FirstCharDecides(PipeChain2, "true");
    FirstCharDecides(PipeChain2, "false");
    NotSpecialFloatWord("draw" + " " + PipeChain3);
    IdentToken("draw", " ", PipeChain3);
    PipeChainStep4();
    LexStep(PipeChain2, Ident("draw"), PipeChain3);
  }

  lemma PipeChainStep4()
    ensures Lex(PipeChain3) == ([Ident("circle")] + ([Ident("circleStroke")] + ([Pipe] + ([Ident("out")] + []))), "")
  {
    FirstCharDecides(PipeChain3, "true");
    FirstCharDecides(PipeChain3, "false");
    NotSpecialFloatWord("circle" + " " + PipeChain4);
    IdentToken("circle", " ", PipeChain4);
    PipeChainStep5();
    LexStep(PipeChain3, Ident("circle"), PipeChain4);
  }

  lemma PipeChainStep5()
    ensures Lex(PipeChain4) == ([Ident("circleStroke")] + ([Pipe] + ([Ident("out")] + [])), "")
  {
    FirstCharDecides(PipeChain4, "true");
    FirstCharDecides(PipeChain4, "false");
    NotSpecialFloatWord("circleStroke" + "\n  " + PipeChain5);
    IdentToken("circleStroke", "\n  ", PipeChain5);
    PipeChainStep6();
    LexStep(PipeChain4, Ident("circleStroke"), PipeChain5);
  }

  lemma PipeChainStep6()
    ensures Lex(PipeChain5) == ([Pipe] + ([Ident("out")] + []), "")
  {
    PipeToken(" ", PipeChain6);
    PipeChainStep7();
    LexStep(PipeChain5, Pipe, PipeChain6);
  }

  lemma PipeChainStep7()
    ensures Lex(PipeChain6) == ([Ident("out")] + [], "")
  {
    assert PipeChain6 == "out" + "\n        " + "";
    FirstCharDecides(PipeChain6, "true");
    FirstCharDecides(PipeChain6, "false");
    NotSpecialFloatWord("out" + "\n        " + "");
    IdentToken("out", "\n        ", "");
    EndOfInput();
    LexStep(PipeChain6, Ident("out"), "");
  }

  lemma PipeChainInOrder()
    ensures [Ident("canvas")] + ([Pipe] + ([Ident("draw")] + ([Ident("circle")] + ([Ident("circleStroke")] + ([Pipe] + ([Ident("out")] + [])))))) == PipeChainTokens
  {
  }

  lemma PipeChain()
    ensures Program(PipeScript) == (PipeChainTokens, "")
  {
    SpanIs(PipeScript, IsSpace, 3);
    assert PipeScript[3..] == PipeChainStart;
    PipeChainStep1();
    PipeChainInOrder();
  }

  /** `let info = 1`, split where its tokens end: the literal recogniser is
      tried before the identifier one and reads the `inf` of `info` as an
      infinite float, so the name becomes two tokens. */
  const InfoTokens := [Let, Lit(Float(Infinity)), Ident("o"), Assign, Lit(Int(1))]
  const InfoScript := "let" + " " + Info1
  const Info1 := "inf" + Info2
  const Info2 := "o" + " " + Info3
  const Info3 := "=" + " " + Info4
  const Info4 := "1"

  lemma InfoStep1()
    ensures Lex(InfoScript) == ([Let] + ([Lit(Float(Infinity))] + ([Ident("o")] + ([Assign] + ([Lit(Int(1))] + [])))), "")
  {
    LetToken(" ", Info1);
    InfoStep2();
    LexStep(InfoScript, Let, Info1);
  }

  lemma InfoStep2()
    ensures Lex(Info1) == ([Lit(Float(Infinity))] + ([Ident("o")] + ([Assign] + ([Lit(Int(1))] + []))), "")
  {
    assert Info1[..3] == "inf" && Info1[3..] == "" + Info2;
    assert Info1[0] == 'i' && Lower(Info1[0]) != 'n';
    assert StartsCaseless(Info1, "inf") && !StartsCaseless(Info1, "nan");
    SpecialFloatToken(Info1, "", Info2);
    InfoStep3();
    LexStep(Info1, Lit(Float(Infinity)), Info2);
  }

  lemma InfoStep3()
    ensures Lex(Info2) == ([Ident("o")] + ([Assign] + ([Lit(Int(1))] + [])), "")
  {
    FirstCharDecides(Info2, "true");
    FirstCharDecides(Info2, "false");
    NotSpecialFloatWord("o" + " " + Info3);
    IdentToken("o", " ", Info3);
    InfoStep4();
    LexStep(Info2, Ident("o"), Info3);
  }

  lemma InfoStep4()
    ensures Lex(Info3) == ([Assign] + ([Lit(Int(1))] + []), "")
  {
    AssignToken(" ", Info4);
    InfoStep5();
    LexStep(Info3, Assign, Info4);
  }

  lemma InfoStep5()
    ensures Lex(Info4) == ([Lit(Int(1))] + [], "")
  {
    assert Show(1) == "1";
    assert Info4 == IntText(1) + "" + "";
    IntToken(1, "", "");
    EndOfInput();
    LexStep(Info4, Lit(Int(1)), "");
  }

  lemma InfoInOrder()
    ensures [Let] + ([Lit(Float(Infinity))] + ([Ident("o")] + ([Assign] + ([Lit(Int(1))] + [])))) == InfoTokens
  {
  }

  lemma InfoIsSplit()
    ensures Program(InfoScript) == (InfoTokens, "")
  {
    SpanIs(InfoScript, IsSpace, 0);
    InfoStep1();
    InfoInOrder();
  }

  /** `-0` is a float literal, not an integer one. */
  lemma NegativeZeroIsFloat()
    ensures LexLiteral("-0") == Ok(Lit(Float(Finite(0.0))), "")
  {
    assert ['-', '0'] + "" == "-0";
    SignedZeroIsFloat('-', "");
  }
}
