/** The shunting-yard conversion of s21_polish.c (to_polish, get_priority).

    The specifying functions work on lexemes in reading order: `out` is the output
    read so far, `buf` the operator buffer with its top at index 0 (the
    orientation of a Stack). */
module Polish {
  import opened Tokens
  import opened Seqs
  import opened Datatypes

  /** get_priority: '(' 0, '+' '-' 1, '*' '/' '%' 2, '^' 3, functions and
      signs 4, anything else -1. */
  function Priority(t: Token): (p: int)
    ensures -1 <= p <= 4
    ensures p == 4 <==> t.kind == Func || t.kind == UOperand
    ensures p == 0 <==> IsOp(t, '(')
  {
    if t.kind == Operand then
      if t.ival == Code('(') then 0
      else if t.ival == Code('+') || t.ival == Code('-') then 1
      else if t.ival == Code('/') || t.ival == Code('*') || t.ival == Code('%') then 2
      else if t.ival == Code('^') then 3
      else -1
    else if t.kind == Func || t.kind == UOperand then 4
    else -1
  }

  /** The binary operators' priorities; the case '^' falls through to
      `default` without changing its 3. */
  lemma PriorityTable(t: Token)
    ensures Priority(t) == 1 <==> IsOp(t, '+') || IsOp(t, '-')
    ensures Priority(t) == 2 <==> IsOp(t, '*') || IsOp(t, '/') || IsOp(t, '%')
    ensures Priority(t) == 3 <==> IsOp(t, '^')
  {
  }

  /** to_polish tests a lexeme for a parenthesis by its character code. */
  predicate IsOpen(t: Token)
  {
    t.ival == Code('(')
  }

  predicate IsClose(t: Token)
  {
    t.ival == Code(')')
  }

  /** A conversion state: the output so far and the operator buffer. */
  datatype State = State(out: seq<Token>, buf: seq<Token>)

  /** A buffered operator that an incoming operator of priority `p` pops:
      not '(' and of priority at least `p`. */
  predicate Poppable(t: Token, p: int)
  {
    !IsOpen(t) && Priority(t) >= p
  }

  /** How many operators from the top of `buf` are popped: the longest run
      of poppable ones. */
  function PopCount(buf: seq<Token>, p: int): (k: nat)
    ensures k <= |buf|
    ensures forall j :: 0 <= j < k ==> Poppable(buf[j], p)
    ensures k < |buf| ==> !Poppable(buf[k], p)
  {
    if buf != [] && Poppable(buf[0], p) then 1 + PopCount(buf[1..], p) else 0
  }

  lemma PopNone(buf: seq<Token>, p: int)
    requires buf == [] || !Poppable(buf[0], p)
    ensures PopCount(buf, p) == 0
  {
  }

  lemma PopOne(buf: seq<Token>, p: int)
    requires buf != [] && Poppable(buf[0], p)
    requires |buf| == 1 || !Poppable(buf[1], p)
    ensures PopCount(buf, p) == 1
  {
    PopNone(buf[1..], p);
  }

  /** Pops buffered operators of priority at least `p` to the output, in
      popping order, stopping at a '(' or an empty buffer. With `p` = -1,
      below every priority, this pops down to the nearest '('. */
  function Unwind(st: State, p: int): State
  {
    var k := PopCount(st.buf, p);
    State(st.out + st.buf[..k], st.buf[k..])
  }

  /** Popping one poppable operator leaves the rest of the unwinding. */
  lemma UnwindPop(st: State, p: int)
    requires st.buf != [] && Poppable(st.buf[0], p)
    ensures Unwind(State(st.out + [st.buf[0]], st.buf[1..]), p) == Unwind(st, p)
  {
    var k := PopCount(st.buf, p);
    assert st.buf[1..][..k - 1] == st.buf[1..k];
    assert st.buf[..k] == [st.buf[0]] + st.buf[1..k];
    assert st.buf[1..][k - 1..] == st.buf[k..];
  }

  /** One lexeme of to_polish's main loop. Numbers and the variable go to the
      output; '(' is buffered; ')' pops down to the nearest '(' and drops it;
      any other operator first pops the buffered operators of priority at
      least its own and is then buffered. */
  function Step(st: State, lex: Token): State
  {
    if IsValue(lex) then State(st.out + [lex], st.buf)
    else if IsOpen(lex) then State(st.out, [lex] + st.buf)
    else if IsClose(lex) then
      var r := Unwind(st, -1);
      State(r.out, if r.buf == [] then [] else r.buf[1..])
    else
      var r := Unwind(st, Priority(lex));
      State(r.out, [lex] + r.buf)
  }

  /** The state after the main loop has read `toks`. */
  function Run(toks: seq<Token>): State
  {
    if toks == [] then State([], []) else Step(Run(toks[..|toks| - 1]), toks[|toks| - 1])
  }

  /** to_polish's result in reading order: the output, then the buffer
      popped from its top. */
  function Postfix(toks: seq<Token>): seq<Token>
  {
    var st := Run(toks);
    st.out + st.buf
  }

  lemma RunSnoc(toks: seq<Token>, t: Token)
    ensures Run(toks + [t]) == Step(Run(toks), t)
  {
    assert (toks + [t])[..|toks|] == toks;
  }

  lemma RunPrefix(toks: seq<Token>, n: nat)
    requires n < |toks|
    ensures Run(toks[..n + 1]) == Step(Run(toks[..n]), toks[n])
  {
    assert toks[..n + 1][..n] == toks[..n];
  }

  /** The main loop continued from state `st` over `toks`. */
  function Resume(st: State, toks: seq<Token>): State
  {
    if toks == [] then st else Step(Resume(st, toks[..|toks| - 1]), toks[|toks| - 1])
  }

  lemma ResumeSnoc(st: State, toks: seq<Token>, t: Token)
    ensures Resume(st, toks + [t]) == Step(Resume(st, toks), t)
  {
    assert (toks + [t])[..|toks|] == toks;
  }

  /** Reading `p + q` is reading `p`, then `q` from where `p` left off. */
  lemma {:induction false} ResumeAppend(st: State, p: seq<Token>, q: seq<Token>)
    ensures Resume(st, p + q) == Resume(Resume(st, p), q)
    decreases |q|
  {
    if q == [] {
      assert p + q == p;
    } else {
      var init := q[..|q| - 1];
      assert (p + q)[..|p + q| - 1] == p + init;
      ResumeAppend(st, p, init);
    }
  }

  lemma {:induction false} RunIsResume(toks: seq<Token>)
    ensures Run(toks) == Resume(State([], []), toks)
    decreases |toks|
  {
    if toks != [] {
      RunIsResume(toks[..|toks| - 1]);
    }
  }

  /** to_polish: reads the list from its far end, builds the postfix list
      `result` and leaves the input list NULL. The input must not be NULL. */
  method ToPolish(head: Stack) returns (result: Stack)
    requires head.items != []
    modifies head
    ensures fresh(result)
    ensures head.items == []
    ensures result.items == Reverse(Postfix(Reverse(old(head.items))))
  {
    result := new Stack();
    var buffer := new Stack();
    ghost var items0 := head.items;
    ghost var toks := Reverse(items0);
    ghost var n := 0;
    while true
      invariant fresh(result) && fresh(buffer) && result != buffer
      invariant 0 <= n <= |toks|
      invariant head.items == items0[..|items0| - n]
      invariant Run(toks[..n]) == State(Reverse(result.items), buffer.items)
      decreases |head.items|
    {
      var popped := head.RPop();
      if popped.None? {
        break;
      }
      var lex := popped.value;
      assert lex == toks[n];
      RunPrefix(toks, n);
      ConvertLexeme(lex, buffer, result);
      n := n + 1;
    }
    assert n == |toks|;
    assert toks[..n] == toks;
    FlushBuffer(buffer, result);
    assert Reverse(result.items) == Postfix(toks);
    ReverseReverse(result.items);
  }

  /** The last loop of to_polish: pops the whole buffer onto `result`. */
  method FlushBuffer(buffer: Stack, result: Stack)
    requires buffer != result
    modifies buffer, result
    ensures buffer.items == []
    ensures Reverse(result.items) == Reverse(old(result.items)) + old(buffer.items)
  {
    while buffer.items != []
      invariant Reverse(result.items) + buffer.items == Reverse(old(result.items)) + old(buffer.items)
      decreases |buffer.items|
    {
      var op := buffer.Pop();
      ReverseCons(op.value, result.items);
      result.Push(op.value);
    }
  }

  /** The body of to_polish's main loop for one lexeme `lex`. */
  method ConvertLexeme(lex: Token, buffer: Stack, result: Stack)
    requires buffer != result
    modifies buffer, result
    ensures State(Reverse(result.items), buffer.items)
      == Step(State(Reverse(old(result.items)), old(buffer.items)), lex)
  {
    if lex.kind == Integer || lex.kind == Double || lex.kind == XOperand {
      ReverseCons(lex, result.items);
      result.Push(lex);
    } else if lex.kind == Operand || lex.kind == UOperand || lex.kind == Func {
      if lex.ival == Code('(') {
        buffer.Push(lex);
      } else if lex.ival == Code(')') {
        PopToOutput(buffer, result, -1);
        var _ := buffer.Pop();
      } else {
        PopToOutput(buffer, result, Priority(lex));
        buffer.Push(lex);
      }
    }
  }

  /** The inner loops of to_polish: pops buffered operators of priority at
      least `p` onto `result`, stopping at '(' or an empty buffer. */
  method PopToOutput(buffer: Stack, result: Stack, p: int)
    requires buffer != result
    modifies buffer, result
    ensures State(Reverse(result.items), buffer.items)
      == Unwind(State(Reverse(old(result.items)), old(buffer.items)), p)
  {
    ghost var goal := Unwind(State(Reverse(result.items), buffer.items), p);
    while buffer.items != [] && buffer.items[0].ival != Code('(') && Priority(buffer.items[0]) >= p
      invariant Unwind(State(Reverse(result.items), buffer.items), p) == goal
      decreases |buffer.items|
    {
      UnwindPop(State(Reverse(result.items), buffer.items), p);
      var op := buffer.Pop();
      ReverseCons(op.value, result.items);
      result.Push(op.value);
    }
  }

  // ---------------------------------------------------------------- properties

  /** The numbers and variables of `s`, in order. */
  function Values(s: seq<Token>): (r: seq<Token>)
    ensures |r| <= |s|
  {
    if s == [] then [] else Values(s[..|s| - 1]) + (if IsValue(s[|s| - 1]) then [s[|s| - 1]] else [])
  }

  lemma {:induction false} ValuesAppend(s: seq<Token>, t: seq<Token>)
    ensures Values(s + t) == Values(s) + Values(t)
    decreases |t|
  {
    if t == [] {
      assert s + t == s;
    } else {
      assert (s + t)[..|s + t| - 1] == s + t[..|t| - 1];
      ValuesAppend(s, t[..|t| - 1]);
    }
  }

  lemma {:induction false} NoValues(s: seq<Token>)
    requires forall j :: 0 <= j < |s| ==> !IsValue(s[j])
    ensures Values(s) == []
    decreases |s|
  {
    if s != [] {
      NoValues(s[..|s| - 1]);
    }
  }

  /** The buffer only ever holds operators, and the numbers and variables
      reach the output in reading order. */
  lemma {:induction false} RunValues(toks: seq<Token>)
    ensures forall j :: 0 <= j < |Run(toks).buf| ==> !IsValue(Run(toks).buf[j])
    ensures Values(Run(toks).out) == Values(toks)
    decreases |toks|
  {
    if toks != [] {
      var init := toks[..|toks| - 1];
      var lex := toks[|toks| - 1];
      RunValues(init);
      var st := Run(init);
      if IsValue(lex) {
        ValuesAppend(st.out, [lex]);
        assert Values([lex]) == [lex] by { assert [lex][..0] == []; }
      } else if !IsOpen(lex) {
        var p := if IsClose(lex) then -1 else Priority(lex);
        var k := PopCount(st.buf, p);
        NoValues(st.buf[..k]);
        ValuesAppend(st.out, st.buf[..k]);
      }
      assert Values(toks) == Values(init) + (if IsValue(lex) then [lex] else []);
    }
  }

  /** to_polish keeps the numbers and variables in reading order. */
  lemma ValuesInOrder(toks: seq<Token>)
    ensures Values(Postfix(toks)) == Values(toks)
  {
    RunValues(toks);
    NoValues(Run(toks).buf);
    ValuesAppend(Run(toks).out, Run(toks).buf);
  }

  /** A parenthesis as to_polish sees it: an operator lexeme carrying the
      code of '(' or ')'. */
  predicate IsParen(t: Token)
  {
    !IsValue(t) && (IsOpen(t) || IsClose(t))
  }

  /** Open parentheses minus closing ones among `toks`. */
  function Depth(toks: seq<Token>): int
  {
    if toks == [] then 0
    else
      Depth(toks[..|toks| - 1]) + Delta(toks[|toks| - 1])
  }

  /** No prefix closes more parentheses than it opens, and all are closed. */
  predicate Balanced(toks: seq<Token>)
  {
    (forall n :: 0 <= n <= |toks| ==> Depth(toks[..n]) >= 0) && Depth(toks) == 0
  }

  /** `s` without its parentheses. */
  function NonParens(s: seq<Token>): seq<Token>
  {
    if s == [] then [] else NonParens(s[..|s| - 1]) + (if IsParen(s[|s| - 1]) then [] else [s[|s| - 1]])
  }

  /** The number of '(' in `s`. */
  function OpenCount(s: seq<Token>): nat
  {
    if s == [] then 0 else OpenCount(s[..|s| - 1]) + (if IsOpen(s[|s| - 1]) then 1 else 0)
  }

  lemma {:induction false} NonParensAppend(s: seq<Token>, t: seq<Token>)
    ensures NonParens(s + t) == NonParens(s) + NonParens(t)
    ensures OpenCount(s + t) == OpenCount(s) + OpenCount(t)
    decreases |t|
  {
    if t == [] {
      assert s + t == s;
    } else {
      assert (s + t)[..|s + t| - 1] == s + t[..|t| - 1];
      NonParensAppend(s, t[..|t| - 1]);
    }
  }

  lemma {:induction false} NoParens(s: seq<Token>)
    requires forall j :: 0 <= j < |s| ==> !IsParen(s[j]) && !IsOpen(s[j])
    ensures NonParens(s) == s && OpenCount(s) == 0
    decreases |s|
  {
    if s != [] {
      NoParens(s[..|s| - 1]);
    }
  }

  lemma NonParensOne(t: Token)
    ensures NonParens([t]) == if IsParen(t) then [] else [t]
    ensures OpenCount([t]) == if IsOpen(t) then 1 else 0
  {
    assert [t][..0] == [];
  }

  /** The buffer holds operators and '(' but never a ')'. */
  predicate BufferOk(buf: seq<Token>)
  {
    forall j :: 0 <= j < |buf| ==> !IsValue(buf[j]) && !IsClose(buf[j])
  }

  lemma BufferOkSuffix(buf: seq<Token>, k: nat)
    requires BufferOk(buf) && k <= |buf|
    ensures BufferOk(buf[k..])
  {
    forall j | 0 <= j < |buf[k..]| ensures !IsValue(buf[k..][j]) && !IsClose(buf[k..][j]) {
      assert buf[k..][j] == buf[k + j];
    }
  }

  lemma BufferOkCons(t: Token, buf: seq<Token>)
    requires BufferOk(buf) && !IsValue(t) && !IsClose(t)
    ensures BufferOk([t] + buf)
  {
    forall j | 0 <= j < |[t] + buf| ensures !IsValue(([t] + buf)[j]) && !IsClose(([t] + buf)[j]) {
      if j > 0 {
        assert ([t] + buf)[j] == buf[j - 1];
      }
    }
  }

  /** The change of depth caused by lexeme `t`. */
  function Delta(t: Token): int
  {
    if IsParen(t) && IsOpen(t) then 1 else if IsParen(t) then -1 else 0
  }

  /** Cutting `buf` at `k` cuts its parenthesis-free part and its '(' count
      accordingly. */
  lemma SplitAt(buf: seq<Token>, k: nat)
    requires k <= |buf|
    ensures NonParens(buf) == NonParens(buf[..k]) + NonParens(buf[k..])
    ensures OpenCount(buf) == OpenCount(buf[..k]) + OpenCount(buf[k..])
  {
    assert buf == buf[..k] + buf[k..];
    NonParensAppend(buf[..k], buf[k..]);
  }

  /** What a well-formed buffer holds above its first '(' has no
      parentheses. */
  lemma TopNoParens(buf: seq<Token>, k: nat)
    requires BufferOk(buf) && k <= |buf|
    requires forall j :: 0 <= j < k ==> !IsOpen(buf[j])
    ensures NonParens(buf[..k]) == buf[..k] && OpenCount(buf[..k]) == 0
  {
    NoParens(buf[..k]);
  }

  /** A closing parenthesis with a '(' buffered drops exactly that '(' and
      outputs what lies above it. */
  lemma StepClose(st: State, lex: Token)
    requires BufferOk(st.buf) && OpenCount(st.buf) > 0
    requires !IsValue(lex) && IsClose(lex)
    ensures BufferOk(Step(st, lex).buf) && OpenCount(Step(st, lex).buf) == OpenCount(st.buf) - 1
    ensures multiset(Step(st, lex).out) + multiset(NonParens(Step(st, lex).buf))
      == multiset(st.out) + multiset(NonParens(st.buf))
  {
    var k := PopCount(st.buf, -1);
    var top, rest := st.buf[..k], st.buf[k..];
    SplitAt(st.buf, k);
    TopNoParens(st.buf, k);
    assert k < |st.buf|;
    var open := rest[0];
    assert open == st.buf[k] && IsOpen(open) && IsParen(open);
    SplitAt(rest, 1);
    assert rest[..1] == [open];
    NonParensOne(open);
    assert NonParens(rest) == NonParens(rest[1..]);
    assert OpenCount(rest) == 1 + OpenCount(rest[1..]);
    BufferOkSuffix(st.buf, k);
    BufferOkSuffix(rest, 1);
    var r := Step(st, lex);
    assert r.out == st.out + top && r.buf == rest[1..];
    assert NonParens(st.buf) == top + NonParens(r.buf);
    assert multiset(r.out) == multiset(st.out) + multiset(top);
  }

  /** An operator outputs the non-parenthesis operators above it and is
      buffered. */
  lemma StepOperator(st: State, lex: Token)
    requires BufferOk(st.buf)
    requires !IsValue(lex) && !IsOpen(lex) && !IsClose(lex)
    ensures BufferOk(Step(st, lex).buf) && OpenCount(Step(st, lex).buf) == OpenCount(st.buf)
    ensures multiset(Step(st, lex).out) + multiset(NonParens(Step(st, lex).buf))
      == multiset(st.out) + multiset(NonParens(st.buf)) + multiset{lex}
  {
    var k := PopCount(st.buf, Priority(lex));
    var top, rest := st.buf[..k], st.buf[k..];
    var r := Step(st, lex);
    assert r.out == st.out + top && r.buf == [lex] + rest;
    assert st.buf == top + rest;
    NoParens(top);
    NonParensAppend(top, rest);
    NonParensOne(lex);
    NonParensAppend([lex], rest);
    BufferOkSuffix(st.buf, k);
    BufferOkCons(lex, rest);
    assert NonParens(r.buf) == [lex] + NonParens(rest);
    assert NonParens(st.buf) == top + NonParens(rest);
    assert multiset(r.out) == multiset(st.out) + multiset(top);
  }

  /** A '(' is buffered and counted. */
  lemma StepOpen(st: State, lex: Token)
    requires BufferOk(st.buf)
    requires !IsValue(lex) && IsOpen(lex)
    ensures BufferOk(Step(st, lex).buf) && OpenCount(Step(st, lex).buf) == OpenCount(st.buf) + 1
    ensures multiset(Step(st, lex).out) + multiset(NonParens(Step(st, lex).buf))
      == multiset(st.out) + multiset(NonParens(st.buf))
  {
    NonParensOne(lex);
    NonParensAppend([lex], st.buf);
    BufferOkCons(lex, st.buf);
  }

  /** One lexeme keeps the buffer well formed, counts its parentheses and
      moves every non-parenthesis lexeme to output or buffer. */
  lemma StepParens(st: State, lex: Token)
    requires BufferOk(st.buf)
    requires IsParen(lex) && !IsOpen(lex) ==> OpenCount(st.buf) > 0
    ensures BufferOk(Step(st, lex).buf)
    ensures OpenCount(Step(st, lex).buf) == OpenCount(st.buf) + Delta(lex)
    ensures multiset(Step(st, lex).out) + multiset(NonParens(Step(st, lex).buf))
      == multiset(st.out) + multiset(NonParens(st.buf)) + multiset(NonParens([lex]))
  {
    NonParensOne(lex);
    if IsValue(lex) {
    } else if IsOpen(lex) {
      StepOpen(st, lex);
    } else if IsClose(lex) {
      StepClose(st, lex);
    } else {
      StepOperator(st, lex);
    }
  }

  /** While no prefix closes more than it opened: the buffer holds one '('
      per open parenthesis, and output and buffer together hold every
      non-parenthesis lexeme read. */
  lemma {:induction false} RunParens(toks: seq<Token>)
    requires forall n :: 0 <= n <= |toks| ==> Depth(toks[..n]) >= 0
    ensures BufferOk(Run(toks).buf) && OpenCount(Run(toks).buf) == Depth(toks)
    ensures multiset(Run(toks).out) + multiset(NonParens(Run(toks).buf)) == multiset(NonParens(toks))
    decreases |toks|
  {
    if toks != [] {
      var init := toks[..|toks| - 1];
      var lex := toks[|toks| - 1];
      forall n | 0 <= n <= |init| ensures Depth(init[..n]) >= 0 {
        assert init[..n] == toks[..n];
      }
      RunParens(init);
      assert toks == init + [lex];
      NonParensAppend(init, [lex]);
      assert toks[..|toks|] == toks;
      StepParens(Run(init), lex);
    }
  }

  /** With balanced parentheses, to_polish's output is a permutation of the
      input without its parentheses. */
  lemma Permutation(toks: seq<Token>)
    requires Balanced(toks)
    ensures multiset(Postfix(toks)) == multiset(NonParens(toks))
  {
    RunParens(toks);
    var st := Run(toks);
    forall j | 0 <= j < |st.buf| ensures !IsParen(st.buf[j]) && !IsOpen(st.buf[j]) {
      if IsOpen(st.buf[j]) {
        OpenCountPositive(st.buf, j);
      }
    }
    NoParens(st.buf);
  }

  lemma {:induction false} OpenCountPositive(s: seq<Token>, j: nat)
    requires j < |s| && IsOpen(s[j])
    ensures OpenCount(s) > 0
    decreases |s|
  {
    if j < |s| - 1 {
      OpenCountPositive(s[..|s| - 1], j);
    }
  }

  // ---------------------------------------------------------------- precedence

  /** An operator as the main loop treats it: neither a value nor a
      parenthesis. */
  predicate IsOperator(t: Token)
  {
    !IsValue(t) && !IsOpen(t) && !IsClose(t)
  }

  /** `a o b` leaves the two values out and the operator buffered. */
  lemma RunThree(a: Token, o: Token, b: Token)
    requires IsValue(a) && IsValue(b) && IsOperator(o)
    ensures Run([a, o, b]) == State([a, b], [o])
  {
    RunSnoc([], a);
    assert [] + [a] == [a];
    RunSnoc([a], o);
    assert [a] + [o] == [a, o];
    RunSnoc([a, o], b);
    assert [a, o] + [b] == [a, o, b];
  }

  /** In `a o1 b o2 c` the first operator goes out before `c` exactly when its
      priority is at least the second's: equal priorities associate to the
      left, a higher second operator binds first. */
  lemma Precedence(a: Token, o1: Token, b: Token, o2: Token, c: Token)
    requires IsValue(a) && IsValue(b) && IsValue(c)
    requires IsOperator(o1) && IsOperator(o2)
    ensures Postfix([a, o1, b, o2, c])
      == if Priority(o1) >= Priority(o2) then [a, b, o1, c, o2] else [a, b, c, o2, o1]
  {
    RunThree(a, o1, b);
    RunSnoc([a, o1, b], o2);
    assert [a, o1, b] + [o2] == [a, o1, b, o2];
    var s4 := Run([a, o1, b, o2]);
    if Priority(o1) >= Priority(o2) {
      assert PopCount([o1], Priority(o2)) == 1;
      assert s4 == State([a, b, o1], [o2]);
    } else {
      assert PopCount([o1], Priority(o2)) == 0;
      assert s4 == State([a, b], [o2, o1]);
    }
    RunSnoc([a, o1, b, o2], c);
    assert [a, o1, b, o2] + [c] == [a, o1, b, o2, c];
  }

  /** 2^2^3 is read as (2^2)^3. */
  lemma PowerLeftAssociative(two: Token, three: Token, pow: Token)
    requires two == Token(Integer, 2, 2.0) && three == Token(Integer, 3, 3.0)
    requires pow == Token(Operand, Code('^'), 0.0)
    ensures Postfix([two, pow, two, pow, three]) == [two, two, pow, three, pow]
  {
    Precedence(two, pow, two, pow, three);
  }
}
