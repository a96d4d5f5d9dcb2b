/** Strings from the repository's unit tests (src/unit_tests.c,
    test_error_input and test_validate_ok) read by the tokenizer and checked
    by the validator. */
module LexCases {
  import opened Tokens
  import opened Seqs
  import opened LexemeParser
  import opened Validator
  import Polish
  import Calc

  function Int(n: nat): Token { Token(Integer, n, n as real) }
  function Bin(c: char): Token { Token(Operand, Code(c), 0.0) }
  function Sign(c: char): Token { Token(UOperand, Code(c), 0.0) }

  /** "--5": the second '-' follows a sign, which is not a unary context, so
      it is binary, and the first sign has no operand. */
  lemma MinusMinusFive(line: string, x: real)
    requires line == "--5"
    ensures Lex(line, x) == Some([Sign('-'), Bin('-'), Int(5)])
    ensures !Valid(Reverse([Sign('-'), Bin('-'), Int(5)]))
  {
    NoParensOk(line);
    var a1 := [Sign('-')];
    var a2 := [Sign('-'), Bin('-')];
    var a3 := [Sign('-'), Bin('-'), Int(5)];
    var s1, s2 := line[1..], line[2..];
    assert line[0] == '-' && s1[0] == '-' && s1[1..] == s2;
    assert s2 == [line[2]] + s2[1..] && s2[1..] == [];
    ScanOperator(line, x, []);
    assert OperatorToken('-', Last([]), x) == Sign('-');
    assert [] + [Sign('-')] == a1;
    ScanOperator(s1, x, a1);
    assert OperatorToken('-', Last(a1), x) == Bin('-');
    assert a1 + [Bin('-')] == a2;
    ScanInteger([line[2]], [], x, a2);
    assert DecimalValue([line[2]]) == 5;
    assert a2 + [Int(5)] == a3;
    SignWithoutOperandRejected(a3, 0);
  }

  /** "5   5": two numbers with nothing between them. */
  lemma FiveSpacesFive(line: string, x: real)
    requires line == "5   5"
    ensures Lex(line, x) == Some([Int(5), Int(5)])
    ensures !Valid(Reverse([Int(5), Int(5)]))
  {
    NoParensOk(line);
    var a1 := [Int(5)];
    var a2 := [Int(5), Int(5)];
    var s1, s2, s3, s4 := line[1..], line[2..], line[3..], line[4..];
    assert line == [line[0]] + s1 && s1[0] == ' ' && s1[1..] == s2;
    assert s2[0] == ' ' && s2[1..] == s3 && s3[0] == ' ' && s3[1..] == s4;
    assert s4 == [line[4]] + [];
    ScanInteger([line[0]], s1, x, []);
    assert DecimalValue([line[0]]) == 5 && [] + [Int(5)] == a1;
    ScanSpace(s1, x, a1);
    ScanSpace(s2, x, a1);
    ScanSpace(s3, x, a1);
    ScanInteger([line[4]], [], x, a1);
    assert DecimalValue([line[4]]) == 5 && a1 + [Int(5)] == a2;
    AdjacentValuesRejected(a2, 0);
  }

  /** "(", "()" and ")5+7(" fail the bracket pre-pass, so parse_all returns
      NULL although every character is a lexeme. */
  lemma OpenOnly(line: string, x: real)
    requires line == "("
    ensures Lex(line, x).None?
  {
    assert Depth(line, 1) == 1;
  }

  lemma EmptyParens(line: string, x: real)
    requires line == "()"
    ensures Lex(line, x).None?
  {
    assert BracketFault(line, 1);
  }

  lemma CloseFirst(line: string, x: real)
    requires line == ")5+7("
    ensures Lex(line, x).None?
  {
    assert BracketFault(line, 0);
  }

  /** "x.": a lone point after the variable is neither a number, a function
      nor an operator. */
  lemma VariablePoint(line: string, x: real)
    requires line == "x."
    ensures Lex(line, x).None?
  {
    NoParensOk(line);
    var s1 := line[1..];
    assert line[0] == 'x' && s1 == ['.'];
    ScanOperator(line, x, []);
    assert DigitRun(s1, 0) == 0 && DigitRun(s1, 1) == 0;
    assert NumberSpec(s1).None?;
    ScanStuck(s1, x, [OperatorToken('x', None, x)]);
  }

  /** "-4 + 4": a leading sign, then a binary '+'. */
  lemma MinusFourPlusFour(line: string, x: real)
    requires line == "-4 + 4"
    ensures Lex(line, x) == Some([Sign('-'), Int(4), Bin('+'), Int(4)])
  {
    NoParensOk(line);
    var a1 := [Sign('-')];
    var a2 := [Sign('-'), Int(4)];
    var s1, s2 := line[1..], line[2..];
    assert line[0] == '-' && s1 == [line[1]] + s2;
    ScanOperator(line, x, []);
    assert OperatorToken('-', Last([]), x) == Sign('-') && [] + [Sign('-')] == a1;
    ScanInteger([line[1]], s2, x, a1);
    assert DecimalValue([line[1]]) == 4 && a1 + [Int(4)] == a2;
    PlusFour(s2, x, a2);
  }

  lemma PlusFour(s: string, x: real, acc: seq<Token>)
    requires s == " + 4" && acc == [Sign('-'), Int(4)]
    ensures Scan(s, x, acc) == Some([Sign('-'), Int(4), Bin('+'), Int(4)])
  {
    var a3 := [Sign('-'), Int(4), Bin('+')];
    var a4 := [Sign('-'), Int(4), Bin('+'), Int(4)];
    var s1, s2, s3 := s[1..], s[2..], s[3..];
    assert s1[0] == '+' && s1[1..] == s2 && s2[0] == ' ' && s2[1..] == s3 && s3 == [s[3]] + [];
    ScanSpace(s, x, acc);
    ScanOperator(s1, x, acc);
    assert OperatorToken('+', Last(acc), x) == Bin('+') && acc + [Bin('+')] == a3;
    ScanSpace(s2, x, a3);
    ScanInteger([s[3]], [], x, a3);
    assert DecimalValue([s[3]]) == 4 && a3 + [Int(4)] == a4;
  }

  lemma MinusFourPlusFourValid(toks: seq<Token>)
    requires toks == [Sign('-'), Int(4), Bin('+'), Int(4)]
    ensures Valid(Reverse(toks))
  {
    assert TextOk(toks, 0) && TextOk(toks, 1) && TextOk(toks, 2) && TextOk(toks, 3);
    ValidInText(toks);
  }

  /** "2 ^ -3": a sign after '^' is unary. */
  lemma TwoPowMinusThree(line: string, x: real)
    requires line == "2 ^ -3"
    ensures Lex(line, x) == Some([Int(2), Bin('^'), Sign('-'), Int(3)])
  {
    NoParensOk(line);
    var a1 := [Int(2)];
    var a2 := [Int(2), Bin('^')];
    var s1, s2, s3 := line[1..], line[2..], line[3..];
    assert line == [line[0]] + s1 && s1[0] == ' ' && s1[1..] == s2;
    assert s2[0] == '^' && s2[1..] == s3;
    ScanInteger([line[0]], s1, x, []);
    assert DecimalValue([line[0]]) == 2 && [] + [Int(2)] == a1;
    ScanSpace(s1, x, a1);
    ScanOperator(s2, x, a1);
    assert OperatorToken('^', Last(a1), x) == Bin('^') && a1 + [Bin('^')] == a2;
    MinusThree(s3, x, a2);
  }

  lemma MinusThree(s: string, x: real, acc: seq<Token>)
    requires s == " -3" && acc == [Int(2), Bin('^')]
    ensures Scan(s, x, acc) == Some([Int(2), Bin('^'), Sign('-'), Int(3)])
  {
    var a3 := [Int(2), Bin('^'), Sign('-')];
    var a4 := [Int(2), Bin('^'), Sign('-'), Int(3)];
    var s1, s2 := s[1..], s[2..];
    assert s1[0] == '-' && s1[1..] == s2 && s2 == [s[2]] + [];
    ScanSpace(s, x, acc);
    ScanOperator(s1, x, acc);
    assert OperatorToken('-', Last(acc), x) == Sign('-') && acc + [Sign('-')] == a3;
    ScanInteger([s[2]], [], x, a3);
    assert DecimalValue([s[2]]) == 3 && a3 + [Int(3)] == a4;
  }

  lemma TwoPowMinusThreeValid(toks: seq<Token>)
    requires toks == [Int(2), Bin('^'), Sign('-'), Int(3)]
    ensures Valid(Reverse(toks))
  {
    assert TextOk(toks, 0) && TextOk(toks, 1) && TextOk(toks, 2) && TextOk(toks, 3);
    ValidInText(toks);
  }

  /** "3 mod 2 - 1": "mod" is read as the binary operator '%', and the '-'
      after a number is binary. */
  lemma ThreeModTwoMinusOne(line: string, x: real)
    requires line == "3 mod 2 - 1"
    ensures Lex(line, x) == Some([Int(3), Bin('%'), Int(2), Bin('-'), Int(1)])
  {
    NoParensOk(line);
    var a1 := [Int(3)];
    var s1, s2 := line[1..], line[2..];
    assert line == [line[0]] + s1 && s1[0] == ' ' && s1[1..] == s2;
    ScanInteger([line[0]], s1, x, []);
    assert DecimalValue([line[0]]) == 3 && [] + [Int(3)] == a1;
    ScanSpace(s1, x, a1);
    ModTwoMinusOne(s2, x, a1);
  }

  lemma ModTwoMinusOne(s: string, x: real, acc: seq<Token>)
    requires s == "mod 2 - 1" && acc == [Int(3)]
    ensures Scan(s, x, acc) == Some([Int(3), Bin('%'), Int(2), Bin('-'), Int(1)])
  {
    var a2 := [Int(3), Bin('%')];
    var s3 := s[3..];
    assert s == FuncNames[ModIndex] + s3;
    ScanFunc(ModIndex, s3, x, acc);
    assert acc + [Bin('%')] == a2;
    TwoMinusOne(s3, x, a2);
  }

  lemma TwoMinusOne(s: string, x: real, acc: seq<Token>)
    requires s == " 2 - 1" && acc == [Int(3), Bin('%')]
    ensures Scan(s, x, acc) == Some([Int(3), Bin('%'), Int(2), Bin('-'), Int(1)])
  {
    var a3 := [Int(3), Bin('%'), Int(2)];
    var s1, s2 := s[1..], s[2..];
    assert s1 == [s[1]] + s2 && s2 == " - 1";
    ScanSpace(s, x, acc);
    ScanInteger([s[1]], s2, x, acc);
    assert DecimalValue([s[1]]) == 2 && acc + [Int(2)] == a3;
    MinusOne(s2, x, a3);
  }

  lemma MinusOne(s: string, x: real, acc: seq<Token>)
    requires s == " - 1" && acc == [Int(3), Bin('%'), Int(2)]
    ensures Scan(s, x, acc) == Some([Int(3), Bin('%'), Int(2), Bin('-'), Int(1)])
  {
    var a4 := [Int(3), Bin('%'), Int(2), Bin('-')];
    var a5 := [Int(3), Bin('%'), Int(2), Bin('-'), Int(1)];
    var s1, s2, s3 := s[1..], s[2..], s[3..];
    assert s1[0] == '-' && s1[1..] == s2 && s2[0] == ' ' && s2[1..] == s3 && s3 == [s[3]] + [];
    ScanSpace(s, x, acc);
    ScanOperator(s1, x, acc);
    assert OperatorToken('-', Last(acc), x) == Bin('-') && acc + [Bin('-')] == a4;
    ScanSpace(s2, x, a4);
    ScanInteger([s[3]], [], x, a4);
    assert DecimalValue([s[3]]) == 1 && a4 + [Int(1)] == a5;
  }

  lemma ThreeModTwoMinusOneValid(toks: seq<Token>)
    requires toks == [Int(3), Bin('%'), Int(2), Bin('-'), Int(1)]
    ensures Valid(Reverse(toks))
  {
    assert TextOk(toks, 0) && TextOk(toks, 1) && TextOk(toks, 2) && TextOk(toks, 3) && TextOk(toks, 4);
    ValidInText(toks);
  }

  /** "( )": the space keeps the brackets apart, so the bracket pre-pass and
      the validator accept the line, yet its postfix list is empty and
      calc_polish finds no number to return. */
  lemma SpacedEmptyParens(line: string, x: real, m: Calc.Libm)
    requires line == "( )"
    ensures BracketsOk(line)
    ensures Lex(line, x) == Some([Bin('('), Bin(')')])
    ensures Valid(Reverse([Bin('('), Bin(')')]))
    ensures Polish.Postfix([Bin('('), Bin(')')]) == []
    ensures !Calc.Evaluable(Polish.Postfix([Bin('('), Bin(')')]), m)
  {
    SpacedEmptyParensLex(line, x);
    EmptyGroupValid([Bin('('), Bin(')')]);
    EmptyGroupPostfix([Bin('('), Bin(')')]);
  }

  lemma SpacedEmptyParensLex(line: string, x: real)
    requires line == "( )"
    ensures BracketsOk(line)
    ensures Lex(line, x) == Some([Bin('('), Bin(')')])
  {
    assert line[0] == '(' && line[1] == ' ' && line[2] == ')';
    assert Depth(line, 1) == 1;
    assert Depth(line, 2) == 1;
    assert Depth(line, 3) == 0;
    assert !BracketFault(line, 0) && !BracketFault(line, 1) && !BracketFault(line, 2);
    var a1 := [Bin('(')];
    var a2 := [Bin('('), Bin(')')];
    var s1, s2 := line[1..], line[2..];
    assert line[0] == '(' && s1[0] == ' ' && s1[1..] == s2;
    assert s2[0] == ')' && s2[1..] == [];
    ScanOperator(line, x, []);
    assert OperatorToken('(', Last([]), x) == Bin('(');
    assert [] + [Bin('(')] == a1;
    ScanSpace(s1, x, a1);
    ScanOperator(s2, x, a1);
    assert OperatorToken(')', Last(a1), x) == Bin(')');
    assert a1 + [Bin(')')] == a2;
  }

  lemma EmptyGroupValid(toks: seq<Token>)
    requires toks == [Bin('('), Bin(')')]
    ensures Valid(Reverse(toks))
  {
    assert TextOk(toks, 0) && TextOk(toks, 1);
    ValidInText(toks);
  }

  lemma EmptyGroupPostfix(toks: seq<Token>)
    requires toks == [Bin('('), Bin(')')]
    ensures Polish.Postfix(toks) == []
  {
    assert toks[..1] == [Bin('(')] && toks[..1][..0] == [];
    var st1 := Polish.Run(toks[..1]);
    assert st1 == Polish.State([], [Bin('(')]);
    Polish.PopNone(st1.buf, -1);
  }
}
