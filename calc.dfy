/** The evaluator of s21_polish.c (calc_polish, calc_uoperand,
    calc_bioperand).

    Floating-point arithmetic is not modelled bit for bit. Addition,
    subtraction, multiplication and negation are exact on reals; division,
    whose result for a zero divisor is an IEEE infinity or NaN, and the
    library functions of math.h are given by a `Libm` record of functions. */
module Calc {
  import opened Tokens
  import opened Seqs
  import opened Datatypes

  /** The operations of math.h the evaluator calls, and IEEE division. */
  datatype Libm = Libm(
    div: (real, real) -> real,
    pow: (real, real) -> real,
    fmod: (real, real) -> real,
    sin: real -> real,
    cos: real -> real,
    tan: real -> real,
    acos: real -> real,
    asin: real -> real,
    atan: real -> real,
    sqrt: real -> real,
    log: real -> real,
    log10: real -> real)

  /** The library function calc_uoperand applies for function index `i`,
      0 <= i <= 8, in the order of the name table. */
  function TableFunction(m: Libm, i: int): real -> real
    requires 0 <= i <= 8
  {
    if i == 0 then m.sin
    else if i == 1 then m.cos
    else if i == 2 then m.tan
    else if i == 3 then m.acos
    else if i == 4 then m.asin
    else if i == 5 then m.atan
    else if i == 6 then m.sqrt
    else if i == 7 then m.log
    else m.log10
  }

  /** The value calc_bioperand computes for the operator code `op`: '+', '-',
      '*', '/', '^' and '%', and 0 for any other code. */
  function BinaryValue(op: int, a: real, b: real, m: Libm): real
  {
    if op == Code('+') then a + b
    else if op == Code('-') then a - b
    else if op == Code('*') then a * b
    else if op == Code('/') then m.div(a, b)
    else if op == Code('^') then m.pow(a, b)
    else if op == Code('%') then m.fmod(a, b)
    else 0.0
  }

  /** calc_bioperand: a fresh Double lexeme (every other field zero) holding
      the value of `a op b`, where `a` is the left operand. */
  function BiOperand(a: Token, b: Token, op: Token, m: Libm): Token
  {
    Token(Double, 0, BinaryValue(op.ival, a.dval, b.dval, m))
  }

  /** The new value calc_uoperand gives the top number: '+' keeps it, '-'
      negates it, a function index applies that function, and any other
      code keeps it. */
  function UnaryValue(op: int, v: real, m: Libm): real
  {
    if op == Code('+') then v
    else if op == Code('-') then v * -1.0
    else if 0 <= op <= 8 then TableFunction(m, op)(v)
    else v
  }

  /** calc_uoperand reports ERROR only for the square root of a negative
      number. */
  predicate UnaryFails(op: int, v: real)
  {
    op == 6 && v < 0.0
  }

  /** Whether calc_uoperand reads the top number: every code but '+' and the
      ones its switch has no case for. */
  predicate Dereferences(op: int)
  {
    op != Code('+') && (op == Code('-') || 0 <= op <= 8)
  }

  /** calc_uoperand: applies sign or function `op` to the head of `nums` in
      place and returns ERROR for the square root of a negative number. The
      list must not be NULL when the number is read. */
  method CalcUOperand(nums: Stack, op: Token, m: Libm) returns (error: int)
    requires Dereferences(op.ival) ==> nums.items != []
    modifies nums
    ensures old(nums.items) == [] ==> nums.items == [] && error == OK
    ensures old(nums.items) != [] ==>
      nums.items == [old(nums.items)[0].(dval := UnaryValue(op.ival, old(nums.items)[0].dval, m))]
        + old(nums.items)[1..]
    ensures old(nums.items) != [] ==>
      (error == ERROR <==> UnaryFails(op.ival, old(nums.items)[0].dval))
    ensures error == OK || error == ERROR
  {
    error := OK;
    if op.ival == Code('+') {
      return;
    }
    if op.ival == Code('-') {
      nums.SetHeadValue(nums.items[0].dval * -1.0);
    } else if 0 <= op.ival <= 8 {
      var v := nums.items[0].dval;
      if op.ival == 6 && v < 0.0 {
        error := ERROR;
      }
      nums.SetHeadValue(TableFunction(m, op.ival)(v));
    }
  }

  // ---------------------------------------------------------------- the machine

  /** The evaluator's state: the number stack, top at index 0, and whether a
      division by zero has been seen. */
  datatype Machine = Machine(nums: seq<Token>, divZero: bool)

  /** How many numbers lexeme `t` takes from the stack: two for a binary
      operator, one for a sign or function that reads its operand, none
      otherwise. */
  function Needs(t: Token): nat
  {
    if t.kind == Operand then 2
    else if (t.kind == UOperand || t.kind == Func) && Dereferences(t.ival) then 1
    else 0
  }

  /** One lexeme of calc_polish's loop. A number or the variable is pushed;
      a binary operator pops the right operand `b`, then the left one `a`,
      flags a division by zero when it is '/' and `b` is zero, and pushes
      the result; a sign or function rewrites the top number. */
  function Apply(mc: Machine, lex: Token, m: Libm): (r: Machine)
    requires Needs(lex) <= |mc.nums|
    ensures IsValue(lex) ==> |r.nums| == |mc.nums| + 1 && r.nums[0] == lex && r.nums[1..] == mc.nums
    ensures lex.kind == Operand ==> |r.nums| == |mc.nums| - 1 && r.nums[1..] == mc.nums[2..]
    ensures lex.kind == Operand ==> r.nums[0] == BiOperand(mc.nums[1], mc.nums[0], lex, m)
    ensures lex.kind == UOperand || lex.kind == Func ==> |r.nums| == |mc.nums|
    ensures (lex.kind == UOperand || lex.kind == Func) && mc.nums != [] ==>
      r.nums[1..] == mc.nums[1..] && r.nums[0].kind == mc.nums[0].kind && r.nums[0].ival == mc.nums[0].ival
      && r.nums[0].dval == UnaryValue(lex.ival, mc.nums[0].dval, m)
    ensures r.divZero <==> mc.divZero || (IsOp(lex, '/') && mc.nums[0].dval == 0.0)
  {
    if IsValue(lex) then Machine([lex] + mc.nums, mc.divZero)
    else if lex.kind == Operand then
      var b := mc.nums[0];
      var a := mc.nums[1];
      Machine([BiOperand(a, b, lex, m)] + mc.nums[2..], mc.divZero || (lex.ival == Code('/') && b.dval == 0.0))
    else if mc.nums == [] then mc
    else
      Machine([mc.nums[0].(dval := UnaryValue(lex.ival, mc.nums[0].dval, m))] + mc.nums[1..], mc.divZero)
  }

  /** The machine after reading `toks`, or None when some lexeme finds too
      few numbers (where calc_polish would dereference NULL). */
  function Exec(toks: seq<Token>, m: Libm): Option<Machine>
  {
    if toks == [] then Some(Machine([], false))
    else
      match Exec(toks[..|toks| - 1], m)
      case None => None
      case Some(mc) =>
        var lex := toks[|toks| - 1];
        if Needs(lex) <= |mc.nums| then Some(Apply(mc, lex, m)) else None
  }

  /** A postfix sequence calc_polish can evaluate without reading NULL: no
      lexeme lacks operands and a number is left at the end. */
  predicate Evaluable(toks: seq<Token>, m: Libm)
  {
    Exec(toks, m).Some? && Exec(toks, m).value.nums != []
  }

  lemma ExecPrefix(toks: seq<Token>, n: nat, m: Libm)
    requires n < |toks|
    ensures Exec(toks[..n + 1], m) ==
      match Exec(toks[..n], m)
      case None => None
      case Some(mc) => if Needs(toks[n]) <= |mc.nums| then Some(Apply(mc, toks[n], m)) else None
  {
    assert toks[..n + 1][..n] == toks[..n];
  }

  /** calc_polish: evaluates the postfix list from its far end and returns
      the head of the number stack, with ERROR when some '/' had a zero
      right operand. Evaluation goes on after such a division, and the
      status calc_uoperand returns is dropped. Every node of the postfix
      list is freed, which leaves it NULL here. */
  method CalcPolish(postfix: Stack, m: Libm) returns (error: int, result: real)
    requires Evaluable(Reverse(postfix.items), m)
    modifies postfix
    ensures postfix.items == []
    ensures error == (if Exec(Reverse(old(postfix.items)), m).value.divZero then ERROR else OK)
    ensures result == Exec(Reverse(old(postfix.items)), m).value.nums[0].dval
  {
    error := OK;
    ghost var items0 := postfix.items;
    ghost var toks := Reverse(items0);
    ghost var n := 0;
    var nums := new Stack();
    while true
      invariant fresh(nums)
      invariant 0 <= n <= |toks|
      invariant postfix.items == items0[..|items0| - n]
      invariant Exec(toks[..n], m) == Some(Machine(nums.items, error == ERROR))
      invariant error == OK || error == ERROR
      decreases |postfix.items|
    {
      var popped := postfix.RPop();
      if popped.None? {
        break;
      }
      var lex := popped.value;
      assert lex == toks[n];
      ExecNext(toks, n, m);
      error := CalcLexeme(lex, nums, m, error);
      n := n + 1;
    }
    assert n == |toks|;
    assert toks[..n] == toks;
    var last := nums.Pop();
    result := last.value.dval;
  }

  /** calc_polish with the operand check it lacks: when a lexeme finds too
      few numbers, or none is left at the end, it returns ERROR instead of
      reading NULL; on every other list it behaves as calc_polish. */
  method CalcPolishGuarded(postfix: Stack, m: Libm) returns (error: int, result: real)
    modifies postfix
    ensures postfix.items == []
    ensures !Evaluable(Reverse(old(postfix.items)), m) ==> error == ERROR
    ensures Evaluable(Reverse(old(postfix.items)), m) ==>
      error == (if Exec(Reverse(old(postfix.items)), m).value.divZero then ERROR else OK)
      && result == Exec(Reverse(old(postfix.items)), m).value.nums[0].dval
  {
    error, result := OK, 0.0;
    ghost var items0 := postfix.items;
    ghost var toks := Reverse(items0);
    ghost var n := 0;
    var nums := new Stack();
    var short := false;
    while true
      invariant fresh(nums)
      invariant 0 <= n <= |toks|
      invariant postfix.items == items0[..|items0| - n]
      invariant !short ==> Exec(toks[..n], m) == Some(Machine(nums.items, error == ERROR))
      invariant short ==> Exec(toks[..n], m) == None && error == ERROR
      invariant error == OK || error == ERROR
      decreases |postfix.items|
    {
      var popped := postfix.RPop();
      if popped.None? {
        break;
      }
      var lex := popped.value;
      assert lex == toks[n];
      ExecPrefix(toks, n, m);
      if !short {
        if Needs(lex) <= |nums.items| {
          error := CalcLexeme(lex, nums, m, error);
        } else {
          short, error := true, ERROR;
        }
      }
      n := n + 1;
    }
    assert n == |toks|;
    assert toks[..n] == toks;
    if short || nums.items == [] {
      error := ERROR;
    } else {
      var last := nums.Pop();
      result := last.value.dval;
    }
  }

  /** The body of calc_polish's loop for one lexeme `lex`. */
  method CalcLexeme(lex: Token, nums: Stack, m: Libm, error0: int) returns (error: int)
    requires Needs(lex) <= |nums.items|
    requires error0 == OK || error0 == ERROR
    modifies nums
    ensures Machine(nums.items, error == ERROR)
      == Apply(Machine(old(nums.items), error0 == ERROR), lex, m)
    ensures error == OK || error == ERROR
  {
    error := error0;
    if lex.kind == Integer || lex.kind == Double || lex.kind == XOperand {
      nums.Push(lex);
    } else if lex.kind == Operand {
      var b := nums.Pop();
      var a := nums.Pop();
      if lex.ival == Code('/') && b.value.dval == 0.0 {
        error := ERROR;
      }
      nums.Push(BiOperand(a.value, b.value, lex, m));
    } else {
      var _ := CalcUOperand(nums, lex, m);
    }
  }

  /** A prefix of an evaluable sequence can be run too. */
  lemma {:induction false} ExecPrefixSome(toks: seq<Token>, n: nat, m: Libm)
    requires n <= |toks| && Exec(toks, m).Some?
    ensures Exec(toks[..n], m).Some?
    decreases |toks| - n
  {
    if n < |toks| {
      ExecPrefix(toks, n, m);
      ExecPrefixSome(toks, n + 1, m);
    } else {
      assert toks[..n] == toks;
    }
  }

  /** One more lexeme of an evaluable sequence finds its operands. */
  lemma ExecNext(toks: seq<Token>, n: nat, m: Libm)
    requires n < |toks| && Exec(toks, m).Some?
    ensures Exec(toks[..n], m).Some? && Needs(toks[n]) <= |Exec(toks[..n], m).value.nums|
    ensures Exec(toks[..n + 1], m) == Some(Apply(Exec(toks[..n], m).value, toks[n], m))
  {
    ExecPrefix(toks, n, m);
    ExecPrefixSome(toks, n + 1, m);
  }

  // ---------------------------------------------------------------- properties

  /** The change in stack height lexeme `t` causes. */
  function Effect(t: Token): int
  {
    if IsValue(t) then 1 else if t.kind == Operand then -1 else 0
  }

  /** The stack height after `toks`, counted lexeme by lexeme. */
  function Height(toks: seq<Token>): int
  {
    if toks == [] then 0 else Height(toks[..|toks| - 1]) + Effect(toks[|toks| - 1])
  }

  /** No lexeme of `toks` takes more numbers than the ones before it left. */
  predicate Supplied(toks: seq<Token>)
  {
    forall n :: 0 <= n < |toks| ==> Needs(toks[n]) <= Height(toks[..n])
  }

  /** Numbers push one value, binary operators replace two by one, signs and
      functions keep the height. */
  lemma {:induction false} ExecHeight(toks: seq<Token>, m: Libm)
    requires Exec(toks, m).Some?
    ensures |Exec(toks, m).value.nums| == Height(toks)
    decreases |toks|
  {
    if toks != [] {
      ExecHeight(toks[..|toks| - 1], m);
    }
  }

  /** calc_polish never lacks an operand exactly when every lexeme finds
      enough numbers before it. */
  lemma {:induction false} ExecDefined(toks: seq<Token>, m: Libm)
    ensures Exec(toks, m).Some? <==> Supplied(toks)
    decreases |toks|
  {
    if toks != [] {
      var init := toks[..|toks| - 1];
      ExecDefined(init, m);
      SuppliedSnoc(toks);
      if Exec(init, m).Some? {
        ExecHeight(init, m);
      }
    }
  }

  /** A sequence is supplied exactly when all but its last lexeme are and
      the last one finds enough numbers. */
  lemma SuppliedSnoc(toks: seq<Token>)
    requires toks != []
    ensures Supplied(toks) <==>
      Supplied(toks[..|toks| - 1]) && Needs(toks[|toks| - 1]) <= Height(toks[..|toks| - 1])
  {
    var init := toks[..|toks| - 1];
    forall n | 0 <= n < |init|
      ensures init[n] == toks[n] && init[..n] == toks[..n]
    {
    }
  }

  /** A well-formed postfix sequence, one whose lexemes all find their
      operands and which leaves a height of one, is evaluable and leaves a
      single number. */
  lemma OneValueLeft(toks: seq<Token>, m: Libm)
    requires Supplied(toks) && Height(toks) == 1
    ensures Evaluable(toks, m) && |Exec(toks, m).value.nums| == 1
  {
    ExecDefined(toks, m);
    ExecHeight(toks, m);
  }

  /** Lexeme `n` of `toks` is a '/' whose right operand, the top number, is
      zero. */
  predicate ZeroDivisorAt(toks: seq<Token>, n: nat, m: Libm)
    requires n < |toks|
  {
    IsOp(toks[n], '/') && Exec(toks[..n], m).Some?
    && Exec(toks[..n], m).value.nums != [] && Exec(toks[..n], m).value.nums[0].dval == 0.0
  }

  /** Whether a '/' met a zero divisor does not depend on what is read
      after it. */
  lemma ZeroDivisorPrefix(toks: seq<Token>, n: nat, m: Libm)
    requires n < |toks| - 1
    ensures ZeroDivisorAt(toks[..|toks| - 1], n, m) <==> ZeroDivisorAt(toks, n, m)
  {
    assert toks[..|toks| - 1][..n] == toks[..n];
  }

  /** calc_polish reports ERROR exactly when some '/' met a zero right
      operand; an early one is not forgotten by later lexemes. */
  lemma {:induction false} DivZeroExactly(toks: seq<Token>, m: Libm)
    requires Exec(toks, m).Some?
    ensures Exec(toks, m).value.divZero <==> exists n :: 0 <= n < |toks| && ZeroDivisorAt(toks, n, m)
    decreases |toks|
  {
    if toks != [] {
      var k := |toks| - 1;
      var init := toks[..k];
      DivZeroStep(toks, m);
      DivZeroExactly(init, m);
      forall n | 0 <= n < k
        ensures ZeroDivisorAt(init, n, m) <==> ZeroDivisorAt(toks, n, m)
      {
        ZeroDivisorPrefix(toks, n, m);
      }
    }
  }

  /** The last lexeme sets the flag exactly when it is a '/' with a zero
      divisor, and a flag set before stays set. */
  lemma DivZeroStep(toks: seq<Token>, m: Libm)
    requires toks != [] && Exec(toks, m).Some?
    ensures Exec(toks[..|toks| - 1], m).Some?
    ensures Exec(toks, m).value.divZero
      <==> Exec(toks[..|toks| - 1], m).value.divZero || ZeroDivisorAt(toks, |toks| - 1, m)
  {
  }

  /** Reading one more lexeme. */
  function Then(r: Option<Machine>, lex: Token, m: Libm): Option<Machine>
  {
    match r
    case None => None
    case Some(mc) => if Needs(lex) <= |mc.nums| then Some(Apply(mc, lex, m)) else None
  }

  lemma ExecSnoc(toks: seq<Token>, lex: Token, m: Libm)
    ensures Exec(toks + [lex], m) == Then(Exec(toks, m), lex, m)
  {
    assert (toks + [lex])[..|toks|] == toks;
  }

  lemma ExecTwo(a: Token, b: Token, m: Libm)
    ensures Exec([a, b], m) == Then(Then(Some(Machine([], false)), a, m), b, m)
  {
    ExecSnoc([], a, m);
    assert [] + [a] == [a];
    ExecSnoc([a], b, m);
    assert [a] + [b] == [a, b];
  }

  lemma ExecThree(a: Token, b: Token, c: Token, m: Libm)
    ensures Exec([a, b, c], m) == Then(Exec([a, b], m), c, m)
  {
    ExecSnoc([a, b], c, m);
    assert [a, b] + [c] == [a, b, c];
  }

  /** "sqrt(-4)": the square root of a negative number is an error for
      calc_uoperand, but calc_polish drops that status and reports OK. */
  lemma SqrtOfNegativeNotReported(v: real, m: Libm)
    requires v < 0.0
    ensures UnaryFails(6, v)
    ensures Exec([Token(Double, 0, v), Token(Func, 6, 0.0)], m)
      == Some(Machine([Token(Double, 0, m.sqrt(v))], false))
  {
    var d, sq := Token(Double, 0, v), Token(Func, 6, 0.0);
    ExecTwo(d, sq, m);
    var s1 := Apply(Machine([], false), d, m);
    assert s1 == Machine([d], false);
    assert UnaryValue(6, v, m) == m.sqrt(v);
    assert Apply(s1, sq, m) == Machine([Token(Double, 0, m.sqrt(v))], false);
  }

  /** The left operand is the one read first: "7 2 -" is 7 - 2. */
  lemma OperandOrder(a: Token, b: Token, op: Token, m: Libm)
    requires IsValue(a) && IsValue(b) && op.kind == Operand
    ensures Exec([a, b, op], m)
      == Some(Machine([Token(Double, 0, BinaryValue(op.ival, a.dval, b.dval, m))], IsOp(op, '/') && b.dval == 0.0))
  {
    ExecTwo(a, b, m);
    var s1 := Apply(Machine([], false), a, m);
    assert s1 == Machine([a], false);
    var s2 := Apply(s1, b, m);
    assert s2 == Machine([b, a], false);
    ExecThree(a, b, op, m);
    assert Apply(s2, op, m) == Machine([BiOperand(a, b, op, m)], IsOp(op, '/') && b.dval == 0.0);
  }

  /** "5 mod 0": the remainder by zero raises no error. */
  lemma ModByZeroNotReported(a: real, m: Libm)
    ensures Exec([Token(Double, 0, a), Token(Double, 0, 0.0), Token(Operand, Code('%'), 0.0)], m)
      == Some(Machine([Token(Double, 0, m.fmod(a, 0.0))], false))
  {
    OperandOrder(Token(Double, 0, a), Token(Double, 0, 0.0), Token(Operand, Code('%'), 0.0), m);
  }

  /** "1/0": a division by zero is reported. */
  lemma DivisionByZeroReported(a: real, m: Libm)
    ensures Exec([Token(Double, 0, a), Token(Double, 0, 0.0), Token(Operand, Code('/'), 0.0)], m)
      == Some(Machine([Token(Double, 0, m.div(a, 0.0))], true))
  {
    OperandOrder(Token(Double, 0, a), Token(Double, 0, 0.0), Token(Operand, Code('/'), 0.0), m);
  }

  /** A sign applied twice: '+' keeps the value and '-' undoes itself. */
  lemma SignsCancel(v: real, m: Libm)
    ensures UnaryValue(Code('+'), v, m) == v
    ensures UnaryValue(Code('-'), UnaryValue(Code('-'), v, m), m) == v
    ensures !UnaryFails(Code('+'), v) && !UnaryFails(Code('-'), v)
  {
  }
}
