/** The tokenizer of s21_lexeme_parser.c: the bracket pre-pass, the three
    lexeme recognisers and the driver that pushes lexemes onto a Stack in
    reading order. The value of the variable `x` is a parameter. */
module LexemeParser {
  import opened Tokens
  import opened Seqs
  import opened Datatypes

  /** The character at `i` of a C string, or its terminating NUL past the end. */
  function At(s: string, i: nat): char
  {
    if i < |s| then s[i] else '\0'
  }

  /** The content of a C string holds no NUL. */
  predicate CString(s: string)
  {
    forall i :: 0 <= i < |s| ==> s[i] != '\0'
  }

  /** is_digit */
  predicate IsDigit(ch: char)
  {
    '0' <= ch <= '9'
  }

  /** The value of a digit character (0 for any other character). */
  function DigitValue(ch: char): nat
  {
    if IsDigit(ch) then (ch as int) - ('0' as int) else 0
  }

  // ---------------------------------------------------------------- comma_check

  /** Number of '(' minus number of ')' among the first `i` characters. */
  function Depth(s: string, i: nat): int
    requires i <= |s|
  {
    if i == 0 then 0
    else Depth(s, i - 1) + (if s[i - 1] == '(' then 1 else if s[i - 1] == ')' then -1 else 0)
  }

  /** The character at `i` breaks the bracket rules: a ')' with nothing open,
      or a '(' right after ')' or a ')' right after '(' (spaces count). */
  predicate BracketFault(s: string, i: nat)
    requires i < |s|
  {
    (s[i] == ')' && Depth(s, i) == 0)
    || (s[i] == '(' && i > 0 && s[i - 1] == ')')
    || (s[i] == ')' && i > 0 && s[i - 1] == '(')
  }

  predicate BracketsOk(s: string)
  {
    (forall i :: 0 <= i < |s| ==> !BracketFault(s, i)) && Depth(s, |s|) == 0
  }

  lemma {:induction false} DepthNoParens(s: string, i: nat)
    requires i <= |s|
    requires forall j :: 0 <= j < i ==> s[j] != '(' && s[j] != ')'
    ensures Depth(s, i) == 0
  {
    if i > 0 {
      DepthNoParens(s, i - 1);
    }
  }

  /** A line without parentheses passes the bracket pre-pass. */
  lemma NoParensOk(s: string)
    requires '(' !in s && ')' !in s
    ensures BracketsOk(s)
  {
    forall i | 0 <= i <= |s| ensures Depth(s, i) == 0 {
      DepthNoParens(s, i);
    }
  }

  /** comma_check */
  method CommaCheck(line: string) returns (code: int)
    requires CString(line)
    ensures code == OK || code == ERROR
    ensures code == ERROR <==>
      (exists i :: 0 <= i < |line| && BracketFault(line, i)) || Depth(line, |line|) != 0
    ensures code == OK <==> BracketsOk(line)
  {
    var start := 0;
    var lastch := '\0';
    var i := 0;
    while i < |line|
      invariant 0 <= i <= |line|
      invariant start == Depth(line, i)
      invariant lastch == if i == 0 then '\0' else line[i - 1]
      invariant forall j :: 0 <= j < i ==> !BracketFault(line, j)
    {
      if line[i] == '(' {
        if lastch == ')' {
          assert BracketFault(line, i);
          return ERROR;
        }
        start := start + 1;
      }
      if line[i] == ')' {
        if start == 0 || lastch == '(' {
          assert BracketFault(line, i);
          return ERROR;
        } else {
          start := start - 1;
        }
      }
      lastch := line[i];
      i := i + 1;
    }
    code := if start != 0 then ERROR else OK;
  }

  // ---------------------------------------------------------------- parse_number

  /** Length of the run of digits starting at `i`. */
  function DigitRun(s: string, i: nat): (n: nat)
    requires i <= |s|
    ensures i + n <= |s|
    ensures forall j :: i <= j < i + n ==> IsDigit(s[j])
    ensures !IsDigit(At(s, i + n))
    decreases |s| - i
  {
    if i < |s| && IsDigit(s[i]) then 1 + DigitRun(s, i + 1) else 0
  }

  predicate AllDigits(ds: string)
  {
    forall i :: 0 <= i < |ds| ==> IsDigit(ds[i])
  }

  /** The value of a string of decimal digits. */
  function DecimalValue(ds: string): nat
  {
    if ds == [] then 0
    else DecimalValue(ds[..|ds| - 1]) * 10 + DigitValue(ds[|ds| - 1])
  }

  lemma DecimalValueStep(str: string, i: nat, j: nat)
    requires i <= j < |str|
    ensures DecimalValue(str[i..j + 1]) == DecimalValue(str[i..j]) * 10 + DigitValue(str[j])
  {
    assert str[i..j + 1][..j - i] == str[i..j];
  }

  lemma RealShift(a: nat, d: nat)
    ensures (a * 10 + d) as real == (a as real) * 10.0 + d as real
  {
  }

  function Pow10(n: nat): (p: nat)
    ensures p >= 1
  {
    if n == 0 then 1 else 10 * Pow10(n - 1)
  }

  /** `ivalue + dvalue / pow(10, fractional)`: a literal's integer part `iv`
      plus the value `d` of its `k` digits after the point, scaled down. */
  function Shifted(iv: int, d: real, k: nat): real
  {
    iv as real + d / (Pow10(k) as real)
  }

  /** A recognised lexeme and the number of characters it takes. */
  datatype Lexed = Lexed(tok: Token, len: nat)

  /** The literal at the start of `s`: digits, then optionally a point and
      more digits. A second point is an error, and so is a point when both
      the integer part is 0 and no digit follows the point. */
  function NumberSpec(s: string): (r: Option<Lexed>)
    ensures r.Some? ==> 1 <= r.value.len <= |s|
    ensures r.Some? ==> IsDigit(s[0]) || s[0] == '.'
    ensures r.Some? ==> r.value.tok.kind == Integer || r.value.tok.kind == Double
  {
    if !IsDigit(At(s, 0)) && At(s, 0) != '.' then None
    else
      var k := DigitRun(s, 0);
      var iv := DecimalValue(s[..k]);
      if At(s, k) != '.' then Some(Lexed(Token(Integer, iv, iv as real), k))
      else
        var m := DigitRun(s, k + 1);
        if At(s, k + 1 + m) == '.' then None
        else if iv == 0 && m == 0 then None
        else
          var frac := DecimalValue(s[k + 1..k + 1 + m]);
          Some(Lexed(Token(Double, 0, Shifted(iv, frac as real, m)), k + 1 + m))
  }

  /** The scan state of parse_number before the point: `s` digits read,
      holding the value `ivalue`. */
  ghost predicate IntPart(str: string, s: nat, ivalue: int)
  {
    s <= DigitRun(str, 0) && ivalue == DecimalValue(str[..s])
  }

  /** The scan state after the point: the integer part is complete, and the
      `fractional` digits read since the point hold the value `dvalue`. */
  ghost predicate FracPart(str: string, s: nat, ivalue: int, fractional: int, dvalue: real)
  {
    var k := DigitRun(str, 0);
    At(str, k) == '.' && k + 1 <= s <= k + 1 + DigitRun(str, k + 1)
    && ivalue == DecimalValue(str[..k]) && fractional == s - k - 1
    && dvalue == DecimalValue(str[k + 1..s]) as real
  }

  lemma IntDigit(str: string, s: nat, ivalue: int)
    requires IntPart(str, s, ivalue) && IsDigit(At(str, s))
    ensures s < |str| && IntPart(str, s + 1, ivalue * 10 + DigitValue(At(str, s)))
  {
    assert str[..s + 1] == str[0..s + 1] && str[..s] == str[0..s];
    DecimalValueStep(str, 0, s);
  }

  lemma IntPoint(str: string, s: nat, ivalue: int)
    requires IntPart(str, s, ivalue) && At(str, s) == '.'
    ensures s < |str| && FracPart(str, s + 1, ivalue, 0, 0.0)
  {
    assert s == DigitRun(str, 0);
    assert str[s + 1..s + 1] == [];
  }

  lemma IntEnd(str: string, s: nat, ivalue: int)
    requires IsDigit(At(str, 0)) || At(str, 0) == '.'
    requires IntPart(str, s, ivalue) && !IsDigit(At(str, s)) && At(str, s) != '.'
    ensures NumberSpec(str) == Some(Lexed(Token(Integer, ivalue, ivalue as real), s))
  {
    assert s == DigitRun(str, 0);
  }

  lemma FracDigit(str: string, s: nat, ivalue: int, fractional: int, dvalue: real)
    requires FracPart(str, s, ivalue, fractional, dvalue) && IsDigit(At(str, s))
    ensures s < |str|
    ensures FracPart(str, s + 1, ivalue, fractional + 1, dvalue * 10.0 + DigitValue(At(str, s)) as real)
  {
    var k := DigitRun(str, 0);
    DecimalValueStep(str, k + 1, s);
    RealShift(DecimalValue(str[k + 1..s]), DigitValue(str[s]));
  }

  lemma FracPoint(str: string, s: nat, ivalue: int, fractional: int, dvalue: real)
    requires IsDigit(At(str, 0)) || At(str, 0) == '.'
    requires FracPart(str, s, ivalue, fractional, dvalue) && At(str, s) == '.'
    ensures NumberSpec(str) == None
  {
    var k := DigitRun(str, 0);
    assert s == k + 1 + DigitRun(str, k + 1);
  }

  lemma FracEnd(str: string, s: nat, ivalue: int, fractional: int, dvalue: real)
    requires IsDigit(At(str, 0)) || At(str, 0) == '.'
    requires FracPart(str, s, ivalue, fractional, dvalue) && !IsDigit(At(str, s)) && At(str, s) != '.'
    ensures NumberSpec(str) ==
      if ivalue == 0 && fractional == 0 then None
      else Some(Lexed(Token(Double, 0, Shifted(ivalue, dvalue, fractional)), s))
  {
    var k := DigitRun(str, 0);
    assert s == k + 1 + DigitRun(str, k + 1);
  }

  /** add_lexeme */
  method AddLexeme(head: Stack, buffer: Token)
    modifies head
    ensures head.items == [buffer] + old(head.items)
  {
    head.Push(buffer);
  }

  /** parse_number: on success pushes the literal and returns the number of
      characters it took; on failure pushes nothing. */
  method ParseNumber(str: string, head: Stack) returns (code: int)
    modifies head
    ensures NumberSpec(str).None? ==> code == ERROR && head.items == old(head.items)
    ensures NumberSpec(str).Some? ==>
      code == NumberSpec(str).value.len && head.items == [NumberSpec(str).value.tok] + old(head.items)
  {
    if !IsDigit(At(str, 0)) && At(str, 0) != '.' {
      return ERROR;
    }
    var point := 0;
    var ivalue := 0;
    var fractional := 0;
    var dvalue := 0.0;
    var s := 0;
    var data := Token(Integer, 0, 0.0);
    while true
      invariant 0 <= s <= |str|
      invariant head.items == old(head.items)
      invariant point == 0 || point == 1
      invariant point == 0 ==> IntPart(str, s, ivalue) && fractional == 0 && dvalue == 0.0
      invariant point == 1 ==> FracPart(str, s, ivalue, fractional, dvalue)
      decreases |str| - s
    {
      var ch := At(str, s);
      if point == 0 {
        if IsDigit(ch) {
          IntDigit(str, s, ivalue);
          ivalue := ivalue * 10;
          ivalue := ivalue + DigitValue(ch);
        } else {
          if ch == '.' {
            IntPoint(str, s, ivalue);
            point := point + 1;
            s := s + 1;
            continue;
          }
          IntEnd(str, s, ivalue);
          data := Token(Integer, ivalue, ivalue as real);
          break;
        }
        s := s + 1;
      } else {
        if ch == '.' {
          FracPoint(str, s, ivalue, fractional, dvalue);
          return ERROR;
        }
        if !IsDigit(ch) {
          FracEnd(str, s, ivalue, fractional, dvalue);
          if ivalue == 0 && fractional == 0 {
            return ERROR;
          }
          dvalue := Shifted(ivalue, dvalue, fractional);
          data := Token(Double, 0, dvalue);
          break;
        }
        FracDigit(str, s, ivalue, fractional, dvalue);
        dvalue := dvalue * 10.0;
        dvalue := dvalue + DigitValue(ch) as real;
        fractional := fractional + 1;
        s := s + 1;
      }
    }
    AddLexeme(head, data);
    code := s;
  }

  // ---------------------------------------------------------------- parse_func

  /** `p` is a prefix of `s`. */
  predicate IsPrefix(p: string, s: string)
  {
    |p| <= |s| && s[..|p|] == p
  }

  /** The first table entry, from `i` on, that starts `s`. */
  function FuncMatchFrom(s: string, i: nat): (r: Option<nat>)
    requires i <= |FuncNames|
    ensures r.Some? ==>
      i <= r.value < |FuncNames| && IsPrefix(FuncNames[r.value], s)
      && (forall j :: i <= j < r.value ==> !IsPrefix(FuncNames[j], s))
    ensures r.None? ==> forall j :: i <= j < |FuncNames| ==> !IsPrefix(FuncNames[j], s)
    decreases |FuncNames| - i
  {
    if i == |FuncNames| then None
    else if IsPrefix(FuncNames[i], s) then Some(i)
    else FuncMatchFrom(s, i + 1)
  }

  /** The lexeme parse_func recognises at the start of `s`: entry `i` of the
      table gives function `i`, except the last entry, "mod", which gives the
      binary operator '%'. */
  function FuncSpec(s: string): (r: Option<Lexed>)
    ensures r.Some? ==> 1 <= r.value.len <= |s| && s[..r.value.len] in FuncNames
    ensures r.Some? ==>
      (r.value.tok.kind == Func && 0 <= r.value.tok.ival < ModIndex)
      || r.value.tok == Token(Operand, Code('%'), 0.0)
  {
    match FuncMatchFrom(s, 0)
    case None => None
    case Some(i) =>
      var tok := if i + 1 == |FuncNames| then Token(Operand, Code('%'), 0.0) else Token(Func, i, 0.0);
      Some(Lexed(tok, |FuncNames[i]|))
  }

  /** Table entries are non-empty and hold no NUL, so comparing one against
      a C string stops at the string's terminator at the latest. */
  lemma FuncNamesNoNul()
    ensures forall i :: 0 <= i < |FuncNames| ==> FuncNames[i] != []
    ensures forall i, q :: 0 <= i < |FuncNames| && 0 <= q < |FuncNames[i]| ==> FuncNames[i][q] != '\0'
  {
  }

  /** What the inner loop of parse_func finds: entry `name` starts `line`
      exactly when the first `j` characters agree and `j` reached its end. */
  lemma PrefixByChars(name: string, line: string, j: nat)
    requires name != [] && j <= |name|
    requires forall q :: 0 <= q < |name| ==> name[q] != '\0'
    requires forall q :: 0 <= q < j ==> At(line, q) == name[q]
    requires j < |name| ==> At(line, j) != name[j]
    ensures IsPrefix(name, line) <==> j == |name|
  {
    if j == |name| {
      forall q | 0 <= q < |name|
        ensures q < |line| && line[q] == name[q]
      {
        assert At(line, q) == name[q] && name[q] != '\0';
      }
      assert At(line, |name| - 1) == name[|name| - 1];
      assert line[..|name|] == name;
    }
  }

  /** parse_func */
  method ParseFunc(line: string, head: Stack) returns (result: int)
    modifies head
    ensures FuncSpec(line).None? ==> result == ERROR && head.items == old(head.items)
    ensures FuncSpec(line).Some? ==>
      result == FuncSpec(line).value.len && head.items == [FuncSpec(line).value.tok] + old(head.items)
  {
    FuncNamesNoNul();
    result := ERROR;
    var i := 0;
    while i < |FuncNames|
      invariant 0 <= i <= |FuncNames|
      invariant result == ERROR && head.items == old(head.items)
      invariant FuncMatchFrom(line, 0) == FuncMatchFrom(line, i)
    {
      var name := FuncNames[i];
      var j := 0;
      while j < |name|
        invariant 0 <= j <= |name|
        invariant forall q :: 0 <= q < j ==> At(line, q) == name[q]
        invariant result == OK || result == ERROR
        invariant result == OK <==> j == |name|
      {
        if At(line, j) != name[j] {
          break;
        }
        if j + 1 == |name| {
          result := OK;
        }
        j := j + 1;
      }
      PrefixByChars(name, line, j);
      if result == OK {
        var buffer := Token(Integer, 0, 0.0);
        if i + 1 == |FuncNames| {
          buffer := Token(Operand, Code('%'), 0.0);
        } else {
          buffer := Token(Func, i, 0.0);
        }
        AddLexeme(head, buffer);
        result := |name|;
        return;
      }
      i := i + 1;
    }
  }

  // ---------------------------------------------------------------- parse_operator

  /** The one-character lexemes. */
  const OperatorChars: string := "+-*/()x^"

  /** is_operator */
  method IsOperator(ch: char) returns (b: bool)
    ensures b <==> ch in OperatorChars
  {
    var list := OperatorChars;
    var k := 0;
    while k < |list|
      invariant 0 <= k <= |list|
      invariant forall q :: 0 <= q < k ==> list[q] != ch
    {
      if ch == list[k] {
        return true;
      }
      k := k + 1;
    }
    return false;
  }

  /** A sign is unary at the start of the expression and after '(', '*',
      '/', '%' or '^'; `last` is the lexeme pushed last. */
  predicate UnaryContext(last: Option<Token>)
  {
    last.None?
    || (last.value.kind == Operand
        && (last.value.ival == Code('(') || last.value.ival == Code('*') || last.value.ival == Code('/')
            || last.value.ival == Code('%') || last.value.ival == Code('^')))
  }

  /** The lexeme parse_operator makes of `ch`, with `x` the value of the
      variable and `last` the lexeme pushed before it. */
  function OperatorToken(ch: char, last: Option<Token>, x: real): (t: Token)
    ensures t.ival == Code(ch)
    ensures t.kind == XOperand <==> ch == 'x'
    ensures t.kind == XOperand ==> t.dval == x
    ensures t.kind != XOperand ==> t.dval == 0.0
    ensures (ch == '+' || ch == '-') ==> (t.kind == UOperand <==> UnaryContext(last))
    ensures t.kind == UOperand ==> (ch == '+' || ch == '-')
    ensures t.kind == Operand || t.kind == UOperand || t.kind == XOperand
  {
    if ch == 'x' then Token(XOperand, Code(ch), x)
    else if ch == '(' || ch == ')' then Token(Operand, Code(ch), 0.0)
    else if ch == '-' || ch == '+' then
      (if UnaryContext(last) then Token(UOperand, Code(ch), 0.0) else Token(Operand, Code(ch), 0.0))
    else Token(Operand, Code(ch), 0.0)
  }

  /** parse_operator: pushes the lexeme for an operator character and returns
      OK, which is also the one character it takes. */
  method ParseOperator(ch: char, head: Stack, x: real) returns (code: int)
    modifies head
    ensures ch !in OperatorChars ==> code == ERROR && head.items == old(head.items)
    ensures ch in OperatorChars ==>
      code == OK && head.items == [OperatorToken(ch, old(head.Head()), x)] + old(head.items)
  {
    var isop := IsOperator(ch);
    if !isop {
      return ERROR;
    }
    var buffer := Token(Integer, 0, 0.0);
    var kind := Operand;
    var dval := 0.0;
    if ch == 'x' {
      kind := XOperand;
      dval := x;
    } else if ch == '(' || ch == ')' {
      kind := Operand;
    } else if ch == '-' || ch == '+' {
      var last := head.Head();
      if last.None? || (last.value.kind == Operand
          && (last.value.ival == Code('(') || last.value.ival == Code('*') || last.value.ival == Code('/')
              || last.value.ival == Code('%') || last.value.ival == Code('^'))) {
        kind := UOperand;
      } else {
        kind := Operand;
      }
    } else {
      kind := Operand;
    }
    buffer := Token(kind, Code(ch), dval);
    AddLexeme(head, buffer);
    return OK;
  }

  // ---------------------------------------------------------------- parse_all

  /** The lexeme parse_all reads at the start of `s`: a number, else a
      function name, else an operator character. */
  function NextLexeme(s: string, x: real, last: Option<Token>): (r: Option<Lexed>)
    requires s != []
    ensures r.Some? ==> 1 <= r.value.len <= |s|
  {
    match NumberSpec(s)
    case Some(l) => Some(l)
    case None =>
      match FuncSpec(s)
      case Some(l) => Some(l)
      case None => if s[0] in OperatorChars then Some(Lexed(OperatorToken(s[0], last, x), 1)) else None
  }

  /** The lexeme read last, if any. */
  function Last(acc: seq<Token>): Option<Token>
  {
    if acc == [] then None else Some(acc[|acc| - 1])
  }

  /** Reading the rest `s` of the line after the lexemes `acc`, skipping
      spaces: the lexemes of the whole line in reading order, or None when a
      position matches no lexeme. */
  function Scan(s: string, x: real, acc: seq<Token>): Option<seq<Token>>
    decreases |s|
  {
    if s == [] then Some(acc)
    else if s[0] == ' ' then Scan(s[1..], x, acc)
    else
      match NextLexeme(s, x, Last(acc))
      case None => None
      case Some(l) => Scan(s[l.len..], x, acc + [l.tok])
  }

  /** What parse_all returns, in reading order: None for the NULL result of a
      bracket fault or an unreadable position. */
  function Lex(line: string, x: real): Option<seq<Token>>
  {
    if BracketsOk(line) then Scan(line, x, []) else None
  }

  /** A bracket fault rejects the line even when every position reads as a
      lexeme: the result of comma_check is kept through the whole loop. */
  lemma BracketFaultRejects(line: string, x: real)
    requires !BracketsOk(line)
    ensures Lex(line, x).None?
  {
  }

  /** parse_all: the lexemes of `line` pushed in reading order, so that the
      head is the last one; the empty list when the line is rejected. */
  method ParseAll(line: string, x: real) returns (head: Stack)
    requires CString(line)
    ensures fresh(head)
    ensures Lex(line, x).None? ==> head.items == []
    ensures Lex(line, x).Some? ==> head.items == Reverse(Lex(line, x).value)
  {
    head := new Stack();
    var error := OK;
    error := CommaCheck(line);
    var pos := 0;
    ghost var acc: seq<Token> := [];
    while pos < |line|
      invariant 0 <= pos <= |line|
      invariant fresh(head)
      invariant head.items == Reverse(acc)
      invariant Scan(line, x, []) == Scan(line[pos..], x, acc)
      invariant error == OK <==> BracketsOk(line)
      decreases |line| - pos
    {
      var rest := line[pos..];
      if line[pos] == ' ' {
        pos := pos + 1;
        assert rest[1..] == line[pos..];
        continue;
      }
      HeadOfReverse(acc);
      var code := ERROR;
      if code == ERROR {
        code := ParseNumber(rest, head);
      }
      if code == ERROR {
        code := ParseFunc(rest, head);
      }
      if code == ERROR {
        code := ParseOperator(line[pos], head, x);
      }
      if code != ERROR {
        ghost var l := NextLexeme(rest, x, Last(acc)).value;
        assert code == l.len;
        ReverseSnoc(acc, l.tok);
        acc := acc + [l.tok];
        pos := pos + code;
        assert rest[l.len..] == line[pos..];
      } else {
        error := ERROR;
        break;
      }
    }
    if error != OK {
      head.RemoveStack();
    }
  }

  /** The head of the list built from `acc` is the lexeme read last. */
  lemma HeadOfReverse(acc: seq<Token>)
    ensures (if Reverse(acc) == [] then None else Some(Reverse(acc)[0])) == Last(acc)
  {
  }

  // ---------------------------------------------------------------- the function table

  /** Every table entry has at least two characters, and no two entries
      share their first two. */
  lemma FuncNamesHeads()
    ensures forall i :: 0 <= i < |FuncNames| ==> |FuncNames[i]| >= 2
    ensures forall i, j :: 0 <= i < |FuncNames| && 0 <= j < |FuncNames| && i != j ==>
      FuncNames[i][0] != FuncNames[j][0] || FuncNames[i][1] != FuncNames[j][1]
  {
  }

  /** No table entry is a prefix of a line that starts with another entry,
      so the order of the table never decides a match. */
  lemma FuncNamesPrefixFree(i: nat, j: nat, rest: string)
    requires i < |FuncNames| && j < |FuncNames| && i != j
    ensures !IsPrefix(FuncNames[j], FuncNames[i] + rest)
  {
    FuncNamesHeads();
    var s := FuncNames[i] + rest;
    var n := FuncNames[j];
    assert s[0] == FuncNames[i][0] && s[1] == FuncNames[i][1];
    assert s[0] != n[0] || s[1] != n[1];
  }

  /** A line that starts with entry `i` reads as function `i`, or as the
      operator '%' for "mod", taking the entry's length. */
  lemma FuncEntry(i: nat, rest: string)
    requires i < |FuncNames|
    ensures FuncSpec(FuncNames[i] + rest) ==
      Some(Lexed(if i == ModIndex then Token(Operand, Code('%'), 0.0) else Token(Func, i, 0.0),
                 |FuncNames[i]|))
  {
    var s := FuncNames[i] + rest;
    assert s[..|FuncNames[i]|] == FuncNames[i];
    var r := FuncMatchFrom(s, 0);
    assert r.Some?;
    if r.value != i {
      FuncNamesPrefixFree(i, r.value, rest);
    }
  }

  /** "mod" is the binary operator '%'. */
  lemma ModIsOperator(rest: string)
    ensures FuncSpec("mod" + rest) == Some(Lexed(Token(Operand, Code('%'), 0.0), 3))
  {
    FuncEntry(ModIndex, rest);
  }

  /** A function name starts with one of the letters s, c, t, a, l, m. */
  lemma FuncStart(s: string)
    requires FuncSpec(s).Some?
    ensures s != [] && s[0] in "sctalm"
  {
    var i := FuncMatchFrom(s, 0).value;
    assert s[..|FuncNames[i]|] == FuncNames[i];
    assert s[0] == FuncNames[i][0];
  }

  /** The dispatch order of parse_all decides nothing for an operator
      character: neither a number nor a function name starts with one. */
  lemma OperatorLexeme(s: string, x: real, last: Option<Token>)
    requires s != [] && s[0] in OperatorChars
    ensures NextLexeme(s, x, last) == Some(Lexed(OperatorToken(s[0], last, x), 1))
  {
    if FuncSpec(s).Some? {
      FuncStart(s);
    }
  }

  // ---------------------------------------------------------------- reading a line

  /** A space is skipped. */
  lemma ScanSpace(s: string, x: real, acc: seq<Token>)
    requires s != [] && s[0] == ' '
    ensures Scan(s, x, acc) == Scan(s[1..], x, acc)
  {
  }

  /** An operator character is read as one lexeme of one character. */
  lemma ScanOperator(s: string, x: real, acc: seq<Token>)
    requires s != [] && s[0] in OperatorChars
    ensures Scan(s, x, acc) == Scan(s[1..], x, acc + [OperatorToken(s[0], Last(acc), x)])
  {
    OperatorLexeme(s, x, Last(acc));
  }

  /** A run of digits not followed by a point is read as one Integer. */
  lemma ScanInteger(ds: string, rest: string, x: real, acc: seq<Token>)
    requires ds != [] && AllDigits(ds)
    requires !IsDigit(At(rest, 0)) && At(rest, 0) != '.'
    ensures Scan(ds + rest, x, acc)
      == Scan(rest, x, acc + [Token(Integer, DecimalValue(ds), DecimalValue(ds) as real)])
  {
    IntegerLiteral(ds, rest);
    var s := ds + rest;
    assert s[0] == ds[0];
    assert s[|ds|..] == rest;
  }

  /** A table entry is read as its function, or as '%' for "mod". */
  lemma ScanFunc(i: nat, rest: string, x: real, acc: seq<Token>)
    requires i < |FuncNames|
    ensures Scan(FuncNames[i] + rest, x, acc)
      == Scan(rest, x, acc + [if i == ModIndex then Token(Operand, Code('%'), 0.0) else Token(Func, i, 0.0)])
  {
    FuncEntry(i, rest);
    var s := FuncNames[i] + rest;
    FuncNamesHeads();
    assert s[0] == FuncNames[i][0];
    assert s[|FuncNames[i]|..] == rest;
  }

  /** A position where no lexeme starts makes the whole line unreadable. */
  lemma ScanStuck(s: string, x: real, acc: seq<Token>)
    requires s != [] && s[0] != ' ' && s[0] !in OperatorChars && s[0] !in "sctalm"
    requires NumberSpec(s).None?
    ensures Scan(s, x, acc).None?
  {
    if FuncSpec(s).Some? {
      FuncStart(s);
    }
  }

  // ---------------------------------------------------------------- the sign rule

  /** What the tokenizer promises about a lexeme `t` read right after
      `last`: a sign is unary exactly in a unary context, the variable
      carries the value `x`, and a function is one of the first nine table
      entries. */
  predicate LexemeRule(t: Token, last: Option<Token>, x: real)
  {
    (t.kind == UOperand ==> (t.ival == Code('+') || t.ival == Code('-')) && UnaryContext(last))
    && (t.kind == Operand && (t.ival == Code('+') || t.ival == Code('-')) ==> !UnaryContext(last))
    && (t.kind == XOperand ==> t.ival == Code('x') && t.dval == x)
    && (t.kind == Func ==> 0 <= t.ival < ModIndex)
  }

  /** Every lexeme keeps the rule with respect to the one read before it. */
  predicate WellLexed(toks: seq<Token>, x: real)
  {
    forall j :: 0 <= j < |toks| ==> LexemeRule(toks[j], Last(toks[..j]), x)
  }

  lemma NextLexemeRule(s: string, x: real, last: Option<Token>)
    requires s != [] && NextLexeme(s, x, last).Some?
    ensures LexemeRule(NextLexeme(s, x, last).value.tok, last, x)
  {
  }

  lemma WellLexedSnoc(acc: seq<Token>, t: Token, x: real)
    requires WellLexed(acc, x) && LexemeRule(t, Last(acc), x)
    ensures WellLexed(acc + [t], x)
  {
    var toks := acc + [t];
    forall j | 0 <= j < |toks|
      ensures LexemeRule(toks[j], Last(toks[..j]), x)
    {
      if j < |acc| {
        assert toks[..j] == acc[..j];
      } else {
        assert toks[..j] == acc;
      }
    }
  }

  lemma {:induction false} ScanWellLexed(s: string, x: real, acc: seq<Token>)
    requires WellLexed(acc, x) && Scan(s, x, acc).Some?
    ensures WellLexed(Scan(s, x, acc).value, x)
    decreases |s|
  {
    if s == [] {
    } else if s[0] == ' ' {
      ScanWellLexed(s[1..], x, acc);
    } else {
      var l := NextLexeme(s, x, Last(acc)).value;
      NextLexemeRule(s, x, Last(acc));
      WellLexedSnoc(acc, l.tok, x);
      ScanWellLexed(s[l.len..], x, acc + [l.tok]);
    }
  }

  /** Every line parse_all accepts yields lexemes that keep the sign rule. */
  lemma LexWellLexed(line: string, x: real)
    requires Lex(line, x).Some?
    ensures WellLexed(Lex(line, x).value, x)
  {
    ScanWellLexed(line, x, []);
  }

  // ---------------------------------------------------------------- literals

  /** A run of `n` digits at `i` followed by a non-digit has length `n`. */
  lemma {:induction false} DigitRunIs(s: string, i: nat, n: nat)
    requires i + n <= |s|
    requires forall j :: i <= j < i + n ==> IsDigit(s[j])
    requires !IsDigit(At(s, i + n))
    ensures DigitRun(s, i) == n
    decreases n
  {
    if n > 0 {
      DigitRunIs(s, i + 1, n - 1);
    }
  }

  /** A string of digits not followed by a digit or a point is an Integer
      lexeme: its value in `ival` and `dval`, its length the number of
      digits. */
  lemma IntegerLiteral(ds: string, rest: string)
    requires ds != [] && AllDigits(ds)
    requires !IsDigit(At(rest, 0)) && At(rest, 0) != '.'
    ensures NumberSpec(ds + rest)
      == Some(Lexed(Token(Integer, DecimalValue(ds), DecimalValue(ds) as real), |ds|))
  {
    var s := ds + rest;
    assert At(s, |ds|) == At(rest, 0);
    DigitRunIs(s, 0, |ds|);
    assert s[..|ds|] == ds;
    assert At(s, 0) == ds[0];
  }

  /** Digits, a point and digits, not followed by a digit or a point, are a
      Double lexeme of value int + frac / 10^m, m the number of fraction
      digits, unless the integer part is 0 and no digit follows the point.
      Here the point is at `k`, after `k` digits and before `m` digits. */
  lemma PointLiteralAt(s: string, k: nat, m: nat)
    requires k + 1 + m <= |s| && s[k] == '.'
    requires forall j :: 0 <= j < k ==> IsDigit(s[j])
    requires forall j :: k + 1 <= j < k + 1 + m ==> IsDigit(s[j])
    requires !IsDigit(At(s, k + 1 + m)) && At(s, k + 1 + m) != '.'
    ensures NumberSpec(s)
      == if DecimalValue(s[..k]) == 0 && m == 0 then None
         else Some(Lexed(Token(Double, 0, Shifted(DecimalValue(s[..k]), DecimalValue(s[k + 1..k + 1 + m]) as real, m)),
                         k + 1 + m))
  {
    assert At(s, k) == '.';
    DigitRunIs(s, 0, k);
    DigitRunIs(s, k + 1, m);
  }

  /** A second point ends the literal in an error. */
  lemma SecondPointRejected(ds: string, fs: string, rest: string)
    requires AllDigits(ds) && AllDigits(fs)
    ensures NumberSpec(ds + "." + fs + "." + rest) == None
  {
    var s := ds + "." + fs + "." + rest;
    var k := |ds|;
    assert At(s, k) == '.';
    DigitRunIs(s, 0, k);
    assert At(s, k + 1 + |fs|) == '.';
    DigitRunIs(s, k + 1, |fs|);
    assert At(s, 0) == if ds == [] then '.' else ds[0];
  }

  lemma TwelveIsInteger()
    ensures NumberSpec("12") == Some(Lexed(Token(Integer, 12, 12.0), 2))
  {
    IntegerLiteral("12", "");
    assert "12" + "" == "12";
    assert DecimalValue("12") == 12 by { assert "12"[..1] == "1"; assert "1"[..0] == ""; }
  }

  /** "5." is 5.0: a point needs no digit after it when the integer part is
      not 0. */
  lemma FivePointIsDouble()
    ensures NumberSpec("5.") == Some(Lexed(Token(Double, 0, 5.0), 2))
  {
    PointLiteralAt("5.", 1, 0);
    assert "5."[..1] == "5" && "5."[2..2] == "";
    assert DecimalValue("5") == 5 by { assert "5"[..0] == ""; }
  }

  lemma QuarterIsDouble()
    ensures NumberSpec("0.25") == Some(Lexed(Token(Double, 0, 0.25), 4))
  {
    PointLiteralAt("0.25", 1, 2);
    assert "0.25"[..1] == "0" && "0.25"[2..4] == "25";
    assert DecimalValue("0") == 0 by { assert "0"[..0] == ""; }
    assert DecimalValue("25") == 25 by { assert "25"[..1] == "2"; assert "2"[..0] == ""; }
  }

  /** ".5" is 0.5: the integer part may be empty. */
  lemma PointFiveIsDouble()
    ensures NumberSpec(".5") == Some(Lexed(Token(Double, 0, 0.5), 2))
  {
    PointLiteralAt(".5", 0, 1);
    assert ".5"[..0] == "" && ".5"[1..2] == "5";
    assert DecimalValue("5") == 5 by { assert "5"[..0] == ""; }
  }

  /** "." and "0." are not literals: integer part 0 and no fraction
      digit. */
  lemma BarePointsRejected()
    ensures NumberSpec(".") == None && NumberSpec("0.") == None
  {
    PointLiteralAt(".", 0, 0);
    assert "."[..0] == "";
    PointLiteralAt("0.", 1, 0);
    assert "0."[..1] == "0";
    assert DecimalValue("0") == 0 by { assert "0"[..0] == ""; }
  }

  /** "5.5.5" has a second point. */
  lemma TwoPointsRejected()
    ensures NumberSpec("5.5.5") == None
  {
    SecondPointRejected("5", "5", "5");
    assert "5" + "." + "5" + "." + "5" == "5.5.5";
  }

  // ---------------------------------------------------------------- reading printed lexemes back

  /** The "%d" text of a natural number is a digit string of that value. */
  lemma {:induction false} NatToStringValue(n: nat)
    ensures AllDigits(NatToString(n)) && DecimalValue(NatToString(n)) == n
    decreases n
  {
    var s := NatToString(n);
    if n < 10 {
      assert s[..0] == [];
    } else {
      NatToStringValue(n / 10);
      assert s[..|s| - 1] == NatToString(n / 10);
    }
  }

  /** A printed integer reads back as the same lexeme when what follows it
      does not continue the literal. */
  lemma IntegerReadBack(n: nat, fmtG: real -> string, rest: string, x: real, last: Option<Token>)
    requires !IsDigit(At(rest, 0)) && At(rest, 0) != '.'
    ensures PrintLexeme(Token(Integer, n, n as real), fmtG) != []
    ensures NextLexeme(PrintLexeme(Token(Integer, n, n as real), fmtG) + rest, x, last)
      == Some(Lexed(Token(Integer, n, n as real), |PrintLexeme(Token(Integer, n, n as real), fmtG)|))
  {
    var ds := NatToString(n);
    assert PrintLexeme(Token(Integer, n, n as real), fmtG) == ds;
    NatToStringValue(n);
    IntegerLiteral(ds, rest);
  }

  /** A printed function name reads back as the same function. */
  lemma FuncReadBack(i: nat, fmtG: real -> string, rest: string, x: real, last: Option<Token>)
    requires i < ModIndex
    ensures PrintLexeme(Token(Func, i, 0.0), fmtG) != []
    ensures NextLexeme(PrintLexeme(Token(Func, i, 0.0), fmtG) + rest, x, last)
      == Some(Lexed(Token(Func, i, 0.0), |PrintLexeme(Token(Func, i, 0.0), fmtG)|))
  {
    var s := FuncNames[i] + rest;
    assert PrintLexeme(Token(Func, i, 0.0), fmtG) == FuncNames[i];
    FuncEntry(i, rest);
    FuncStart(s);
    assert !IsDigit(s[0]) && s[0] != '.';
  }

  /** A printed operator, sign or variable reads back as the same lexeme
      after the same predecessor. */
  lemma OperatorReadBack(c: char, fmtG: real -> string, rest: string, x: real, last: Option<Token>)
    requires c in OperatorChars
    ensures PrintLexeme(OperatorToken(c, last, x), fmtG) == [c]
    ensures NextLexeme(PrintLexeme(OperatorToken(c, last, x), fmtG) + rest, x, last)
      == Some(Lexed(OperatorToken(c, last, x), 1))
  {
    assert CharOf(Code(c)) == c;
    OperatorLexeme([c] + rest, x, last);
  }

  /** The remainder operator, read from "mod", prints as "%", which the
      tokenizer does not read. */
  lemma PercentNotReadBack(fmtG: real -> string, rest: string, x: real, last: Option<Token>)
    ensures PrintLexeme(Token(Operand, Code('%'), 0.0), fmtG) == "%"
    ensures NextLexeme(PrintLexeme(Token(Operand, Code('%'), 0.0), fmtG) + rest, x, last).None?
  {
    var s := "%" + rest;
    assert PrintLexeme(Token(Operand, Code('%'), 0.0), fmtG) == "%";
    assert s[0] == '%' && '%' !in OperatorChars;
    if FuncSpec(s).Some? {
      FuncStart(s);
    }
  }

  /** Reading a lexeme, printing it and reading the printed text in the same
      place gives the same lexeme back, for every lexeme but a double, whose
      text is "%g"'s, and the remainder operator. */
  lemma LexemeReadBack(s: string, x: real, last: Option<Token>, fmtG: real -> string, rest: string)
    requires s != [] && NextLexeme(s, x, last).Some?
    requires NextLexeme(s, x, last).value.tok.kind != Double
    requires NextLexeme(s, x, last).value.tok != Token(Operand, Code('%'), 0.0)
    requires NextLexeme(s, x, last).value.tok.kind == Integer ==> !IsDigit(At(rest, 0)) && At(rest, 0) != '.'
    ensures PrintLexeme(NextLexeme(s, x, last).value.tok, fmtG) != []
    ensures NextLexeme(PrintLexeme(NextLexeme(s, x, last).value.tok, fmtG) + rest, x, last)
      == Some(Lexed(NextLexeme(s, x, last).value.tok, |PrintLexeme(NextLexeme(s, x, last).value.tok, fmtG)|))
  {
    if NumberSpec(s).Some? {
      var k := DigitRun(s, 0);
      var iv := DecimalValue(s[..k]);
      assert NextLexeme(s, x, last).value.tok == Token(Integer, iv, iv as real);
      IntegerReadBack(iv, fmtG, rest, x, last);
    } else if FuncSpec(s).Some? {
      var i := FuncMatchFrom(s, 0).value;
      assert NextLexeme(s, x, last).value.tok == Token(Func, i, 0.0);
      FuncReadBack(i, fmtG, rest, x, last);
    } else {
      OperatorReadBack(s[0], fmtG, rest, x, last);
    }
  }

  /** Every lexeme but a double prints as one word. */
  predicate PrintableExceptDoubles(toks: seq<Token>, fmtG: real -> string)
  {
    forall j :: 0 <= j < |toks| && toks[j].kind != Double ==> Printable(toks[j], fmtG)
  }

  /** Each lexeme read, if not a double, prints as one word. */
  lemma NextLexemePrintable(s: string, x: real, last: Option<Token>, fmtG: real -> string)
    requires s != [] && NextLexeme(s, x, last).Some?
    requires NextLexeme(s, x, last).value.tok.kind != Double
    ensures Printable(NextLexeme(s, x, last).value.tok, fmtG)
  {
    if NumberSpec(s).None? && FuncSpec(s).None? {
      assert CharOf(Code(s[0])) == s[0];
    } else if NumberSpec(s).None? {
      assert CharOf(Code('%')) == '%';
    }
  }

  lemma {:induction false} ScanPrintable(s: string, x: real, acc: seq<Token>, fmtG: real -> string)
    requires PrintableExceptDoubles(acc, fmtG) && Scan(s, x, acc).Some?
    ensures PrintableExceptDoubles(Scan(s, x, acc).value, fmtG)
    decreases |s|
  {
    if s == [] {
    } else if s[0] == ' ' {
      ScanPrintable(s[1..], x, acc, fmtG);
    } else {
      var l := NextLexeme(s, x, Last(acc)).value;
      if l.tok.kind != Double {
        NextLexemePrintable(s, x, Last(acc), fmtG);
      }
      var acc' := acc + [l.tok];
      assert forall j :: 0 <= j < |acc| ==> acc'[j] == acc[j];
      ScanPrintable(s[l.len..], x, acc', fmtG);
    }
  }

  /** Every lexeme of an accepted line but a double prints as one word, so
      print_rstack's spaces separate exactly its lexemes. */
  lemma LexPrintable(line: string, x: real, fmtG: real -> string)
    requires Lex(line, x).Some?
    ensures PrintableExceptDoubles(Lex(line, x).value, fmtG)
  {
    ScanPrintable(line, x, [], fmtG);
  }
}
