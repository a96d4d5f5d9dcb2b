/** Cases taken from the repository's unit tests (src/unit_tests.c), stated
    on the model. */
module UnitCases {
  import opened Tokens
  import opened Seqs
  import opened Words
  import opened Datatypes
  import opened Polish

  function Num(n: nat): Token { Token(Integer, n, n as real) }
  function Op(c: char): Token { Token(Operand, Code(c), 0.0) }
  const Sin: Token := Token(Func, 0, 0.0)
  const SevenFour: Token := Token(Double, 0, 7.4)

  // ---------------------------------------------------------------- test_polish

  /** The lexemes of "1/2+(2+3)/(sin(9-2)^2-6/7.4)", in reading order, in six
      groups of four. */
  function Group1(): seq<Token> { [Num(1), Op('/'), Num(2), Op('+')] }
  function Group2(): seq<Token> { [Op('('), Num(2), Op('+'), Num(3)] }
  function Group3(): seq<Token> { [Op(')'), Op('/'), Op('('), Sin] }
  function Group4(): seq<Token> { [Op('('), Num(9), Op('-'), Num(2)] }
  function Group5(): seq<Token> { [Op(')'), Op('^'), Num(2), Op('-')] }
  function Group6(): seq<Token> { [Num(6), Op('/'), SevenFour, Op(')')] }

  function PolishInput(): seq<Token>
  {
    Group1() + Group2() + Group3() + Group4() + Group5() + Group6()
  }

  /** The expected output, "1 2 / 2 3 + 9 2 - sin 2 ^ 6 7.4 / - / +". */
  function PolishOutput(): seq<Token>
  {
    [Num(1), Num(2), Op('/'), Num(2), Num(3), Op('+'), Num(9), Num(2), Op('-'), Sin,
     Num(2), Op('^'), Num(6), SevenFour, Op('/'), Op('-'), Op('/'), Op('+')]
  }

  /** Reading four lexemes: each one is a single step of the main loop. */
  lemma ResumeFour(st: State, a: Token, b: Token, c: Token, d: Token)
    ensures Resume(st, [a, b, c, d]) == Step(Step(Step(Step(st, a), b), c), d)
  {
    ResumeSnoc(st, [], a);
    assert [] + [a] == [a];
    ResumeSnoc(st, [a], b);
    assert [a] + [b] == [a, b];
    ResumeSnoc(st, [a, b], c);
    assert [a, b] + [c] == [a, b, c];
    ResumeSnoc(st, [a, b, c], d);
    assert [a, b, c] + [d] == [a, b, c, d];
  }

  /** The output after each group. */
  const Out1: seq<Token> := [Num(1), Num(2), Op('/')]
  const Out2: seq<Token> := [Num(1), Num(2), Op('/'), Num(2), Num(3)]
  const Out3: seq<Token> := [Num(1), Num(2), Op('/'), Num(2), Num(3), Op('+')]
  const Out4: seq<Token> := [Num(1), Num(2), Op('/'), Num(2), Num(3), Op('+'), Num(9), Num(2)]
  const Out5: seq<Token> :=
    [Num(1), Num(2), Op('/'), Num(2), Num(3), Op('+'), Num(9), Num(2), Op('-'), Sin,
     Num(2), Op('^')]
  const Out6: seq<Token> :=
    [Num(1), Num(2), Op('/'), Num(2), Num(3), Op('+'), Num(9), Num(2), Op('-'), Sin,
     Num(2), Op('^'), Num(6), SevenFour, Op('/'), Op('-')]

  lemma Read1()
    ensures Resume(State([], []), Group1()) == State(Out1, [Op('+')])
  {
    ResumeFour(State([], []), Num(1), Op('/'), Num(2), Op('+'));
    assert PopCount([Op('/')], 1) == 1;
  }

  lemma Read2()
    ensures Resume(State(Out1, [Op('+')]), Group2()) == State(Out2, [Op('+'), Op('('), Op('+')])
  {
    ResumeFour(State(Out1, [Op('+')]), Op('('), Num(2), Op('+'), Num(3));
    assert PopCount([Op('('), Op('+')], 1) == 0;
  }

  lemma Read3()
    ensures Resume(State(Out2, [Op('+'), Op('('), Op('+')]), Group3())
      == State(Out3, [Sin, Op('('), Op('/'), Op('+')])
  {
    var st := State(Out2, [Op('+'), Op('('), Op('+')]);
    ResumeFour(st, Op(')'), Op('/'), Op('('), Sin);
    assert PopCount([Op('+'), Op('('), Op('+')], -1) == 1;
    assert PopCount([Op('+')], 2) == 0;
    assert PopCount([Op('('), Op('/'), Op('+')], 4) == 0;
  }

  lemma Read4()
    ensures Resume(State(Out3, [Sin, Op('('), Op('/'), Op('+')]), Group4())
      == State(Out4, [Op('-'), Op('('), Sin, Op('('), Op('/'), Op('+')])
  {
    var st := State(Out3, [Sin, Op('('), Op('/'), Op('+')]);
    ResumeFour(st, Op('('), Num(9), Op('-'), Num(2));
    assert PopCount([Op('('), Sin, Op('('), Op('/'), Op('+')], 1) == 0;
  }

  lemma Read5a(st: State)
    requires st == State(Out4, [Op('-'), Op('('), Sin, Op('('), Op('/'), Op('+')])
    ensures Step(Step(st, Op(')')), Op('^'))
      == State(Out4 + [Op('-'), Sin], [Op('^'), Op('('), Op('/'), Op('+')])
  {
    PopOne(st.buf, -1);
    var s1 := Step(st, Op(')'));
    assert s1 == State(Out4 + [Op('-')], [Sin, Op('('), Op('/'), Op('+')]);
    assert Priority(Sin) == 4;
    PopOne(s1.buf, 3);
  }

  lemma Read5b(st: State)
    requires st == State(Out4 + [Op('-'), Sin], [Op('^'), Op('('), Op('/'), Op('+')])
    ensures Step(Step(st, Num(2)), Op('-')) == State(Out5, [Op('-'), Op('('), Op('/'), Op('+')])
  {
    PopOne(st.buf, 1);
    assert Out4 + [Op('-'), Sin] + [Num(2)] + [Op('^')] == Out5;
  }

  lemma Read5()
    ensures Resume(State(Out4, [Op('-'), Op('('), Sin, Op('('), Op('/'), Op('+')]), Group5())
      == State(Out5, [Op('-'), Op('('), Op('/'), Op('+')])
  {
    var st := State(Out4, [Op('-'), Op('('), Sin, Op('('), Op('/'), Op('+')]);
    ResumeFour(st, Op(')'), Op('^'), Num(2), Op('-'));
    Read5a(st);
    Read5b(Step(Step(st, Op(')')), Op('^')));
  }

  lemma Read6()
    ensures Resume(State(Out5, [Op('-'), Op('('), Op('/'), Op('+')]), Group6())
      == State(Out6, [Op('/'), Op('+')])
  {
    var st := State(Out5, [Op('-'), Op('('), Op('/'), Op('+')]);
    ResumeFour(st, Num(6), Op('/'), SevenFour, Op(')'));
    assert PopCount([Op('-'), Op('('), Op('/'), Op('+')], 2) == 0;
    assert PopCount([Op('/'), Op('-'), Op('('), Op('/'), Op('+')], -1) == 2;
  }

  /** test_polish, on lexemes: the conversion of
      "1/2+(2+3)/(sin(9-2)^2-6/7.4)". */
  lemma TestPolish(input: seq<Token>)
    requires input == PolishInput()
    ensures Postfix(input) == PolishOutput()
  {
    var s0 := State([], []);
    var g1, g2, g3, g4, g5, g6 := Group1(), Group2(), Group3(), Group4(), Group5(), Group6();
    Read1();
    ResumeAppend(s0, g1, g2);
    Read2();
    assert Resume(s0, g1 + g2) == State(Out2, [Op('+'), Op('('), Op('+')]);
    ResumeAppend(s0, g1 + g2, g3);
    Read3();
    assert Resume(s0, g1 + g2 + g3) == State(Out3, [Sin, Op('('), Op('/'), Op('+')]);
    ResumeAppend(s0, g1 + g2 + g3, g4);
    Read4();
    assert Resume(s0, g1 + g2 + g3 + g4)
      == State(Out4, [Op('-'), Op('('), Sin, Op('('), Op('/'), Op('+')]);
    ResumeAppend(s0, g1 + g2 + g3 + g4, g5);
    Read5();
    assert Resume(s0, g1 + g2 + g3 + g4 + g5) == State(Out5, [Op('-'), Op('('), Op('/'), Op('+')]);
    ResumeAppend(s0, g1 + g2 + g3 + g4 + g5, g6);
    Read6();
    assert Resume(s0, input) == State(Out6, [Op('/'), Op('+')]);
    RunIsResume(input);
    assert Out6 + [Op('/'), Op('+')] == PolishOutput();
  }

  const Post1: seq<Token> := [Num(1), Num(2), Op('/'), Num(2), Num(3), Op('+')]
  const Post2: seq<Token> := [Num(9), Num(2), Op('-'), Sin, Num(2), Op('^')]
  const Post3: seq<Token> := [Num(6), SevenFour, Op('/'), Op('-'), Op('/'), Op('+')]

  lemma JoinThree(a: string, b: string, c: string)
    ensures JoinSpaces([a, b, c]) == a + " " + b + " " + c
  {
    assert [b, c][1..] == [c];
    assert JoinSpaces([b, c]) == b + " " + c;
    assert [a, b, c][1..] == [b, c];
  }

  lemma JoinSix(ws: seq<string>)
    requires |ws| == 6
    ensures JoinSpaces(ws)
      == ws[0] + " " + ws[1] + " " + ws[2] + " " + ws[3] + " " + ws[4] + " " + ws[5]
  {
    assert ws == [ws[0], ws[1], ws[2]] + [ws[3], ws[4], ws[5]];
    JoinSpacesAppend([ws[0], ws[1], ws[2]], [ws[3], ws[4], ws[5]]);
    JoinThree(ws[0], ws[1], ws[2]);
    JoinThree(ws[3], ws[4], ws[5]);
  }

  lemma Print1(fmtG: real -> string)
    ensures JoinSpaces(Lexemes(Post1, fmtG)) == "1 2 / 2 3 +"
  {
    var ws := Lexemes(Post1, fmtG);
    assert ws == ["1", "2", "/", "2", "3", "+"];
    JoinSix(ws);
  }

  lemma Print2(fmtG: real -> string)
    ensures JoinSpaces(Lexemes(Post2, fmtG)) == "9 2 - sin 2 ^"
  {
    var ws := Lexemes(Post2, fmtG);
    assert ws == ["9", "2", "-", "sin", "2", "^"];
    JoinSix(ws);
  }

  lemma Print3(fmtG: real -> string)
    requires fmtG(7.4) == "7.4"
    ensures JoinSpaces(Lexemes(Post3, fmtG)) == "6 7.4 / - / +"
  {
    var ws := Lexemes(Post3, fmtG);
    assert ws == ["6", "7.4", "/", "-", "/", "+"];
    JoinSix(ws);
  }

  /** The text of a list made of three nonempty runs of lexemes. */
  lemma GroupsText(s: seq<Token>, a: seq<Token>, b: seq<Token>, c: seq<Token>, fmtG: real -> string)
    requires a != [] && b != [] && c != [] && s == a + b + c
    ensures Text(Reverse(s), fmtG)
      == JoinSpaces(Lexemes(a, fmtG)) + " " + JoinSpaces(Lexemes(b, fmtG)) + " " + JoinSpaces(Lexemes(c, fmtG))
  {
    ReverseReverse(a + b + c);
    LexemesAppend(a + b, c, fmtG);
    LexemesAppend(a, b, fmtG);
    JoinSpacesAppend(Lexemes(a, fmtG) + Lexemes(b, fmtG), Lexemes(c, fmtG));
    JoinSpacesAppend(Lexemes(a, fmtG), Lexemes(b, fmtG));
  }

  lemma ExpectedText()
    ensures "1 2 / 2 3 +" + " " + "9 2 - sin 2 ^" + " " + "6 7.4 / - / +"
      == "1 2 / 2 3 + 9 2 - sin 2 ^ 6 7.4 / - / +"
  {
  }

  /** test_polish, as text: print_rstack prints the converted list as
      "1 2 / 2 3 + 9 2 - sin 2 ^ 6 7.4 / - / +" when %g prints 7.4 as "7.4". */
  lemma TestPolishText(input: seq<Token>, fmtG: real -> string)
    requires input == PolishInput()
    requires fmtG(7.4) == "7.4"
    ensures Text(Reverse(Postfix(input)), fmtG) == "1 2 / 2 3 + 9 2 - sin 2 ^ 6 7.4 / - / +"
  {
    TestPolish(input);
    assert PolishOutput() == Post1 + Post2 + Post3;
    GroupsText(Postfix(input), Post1, Post2, Post3, fmtG);
    Print1(fmtG);
    Print2(fmtG);
    Print3(fmtG);
    ExpectedText();
  }
}
