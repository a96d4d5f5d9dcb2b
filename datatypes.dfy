/** The token list of s21_datatypes.c: a doubly linked list used as a stack,
    and its printer.

    A Stack is the list seen from its head. `items[0]` is the head, the node
    pushed last; `items[i + 1]` is the `next` of `items[i]` and `items[i - 1]`
    its `prew`; the last element is the far end, the node pushed first. The
    empty sequence is the NULL list. */
module Datatypes {
  import opened Tokens
  import opened Seqs
  import opened Words

  /** The `next` neighbour of node `i` (one step towards the far end). */
  function NextNode(items: seq<Token>, i: nat): Option<Token>
  {
    if i + 1 < |items| then Some(items[i + 1]) else None
  }

  /** The `prew` neighbour of node `i` (one step towards the head). */
  function PrewNode(items: seq<Token>, i: nat): Option<Token>
  {
    if 0 < i <= |items| then Some(items[i - 1]) else None
  }

  class Stack {
    var items: seq<Token>

    /** The NULL list. */
    constructor ()
      ensures items == []
    {
      items := [];
    }

    function Head(): Option<Token>
      reads this
    {
      if items == [] then None else Some(items[0])
    }

    /** st_push: a new node carrying `data` becomes the head. Its `next` is
        the old head, it has no `prew`, and the old head's `prew` is now the
        new node. */
    method Push(data: Token)
      modifies this
      ensures items == [data] + old(items)
      ensures Head() == Some(data) && PrewNode(items, 0) == None
      ensures NextNode(items, 0) == old(Head())
      ensures old(items) != [] ==> PrewNode(items, 1) == Some(data)
    {
      items := [data] + items;
    }

    /** st_pop: detaches the head; on the NULL list returns NULL and changes
        nothing. */
    method Pop() returns (popped: Option<Token>)
      modifies this
      ensures old(items) == [] ==> popped == None && items == []
      ensures old(items) != [] ==> popped == Some(old(items)[0]) && items == old(items)[1..]
    {
      if items == [] {
        return None;
      }
      popped := Some(items[0]);
      items := items[1..];
    }

    /** st_rpop at the far end: returns the node pushed first, and the far
        end moves to that node's `prew`. The walk along `next` that
        to_polish and calc_polish make to reach the far end before their
        first st_rpop is folded in: the far end is the last element. */
    method RPop() returns (popped: Option<Token>)
      modifies this
      ensures old(items) == [] ==> popped == None && items == []
      ensures old(items) != [] ==>
        popped == Some(old(items)[|old(items)| - 1]) && items == old(items)[..|old(items)| - 1]
    {
      if items == [] {
        return None;
      }
      popped := Some(items[|items| - 1]);
      items := items[..|items| - 1];
    }

    /** remove_stack: pops and frees every node. The C first walks along
        `prew` from whatever node it is given to the newest one; a Stack is
        always held by its head, so that walk is not needed here. */
    method RemoveStack()
      modifies this
      ensures items == []
    {
      while items != []
        decreases |items|
      {
        var _ := Pop();
      }
    }

    /** Sets the value of the head node in place, as calc_uoperand does. */
    method SetHeadValue(v: real)
      requires items != []
      modifies this
      ensures items == [old(items)[0].(dval := v)] + old(items)[1..]
    {
      items := [items[0].(dval := v)] + items[1..];
    }

    /** print_rstack: the lexemes from the far end to the head, separated by
        single spaces; the NULL list prints nothing. */
    method PrintRStack(fmtG: real -> string) returns (out: string)
      ensures out == Text(items, fmtG)
    {
      out := "";
      if items == [] {
        return;
      }
      var st := 0;
      while st + 1 < |items|
        invariant 0 <= st < |items|
      {
        st := st + 1;
      }
      var cur: int := st;
      while cur >= 0
        invariant -1 <= cur < |items|
        invariant 0 <= cur < |items| - 1 ==> out == Text(items[cur + 1..], fmtG) + " "
        invariant cur == |items| - 1 ==> out == ""
        invariant cur == -1 ==> out == Text(items, fmtG)
      {
        TextStep(items, cur, fmtG);
        out := out + PrintLexeme(items[cur], fmtG);
        if cur > 0 {
          out := out + " ";
        }
        cur := cur - 1;
      }
    }
  }

  /** st_push then st_pop: the node pushed last comes off first, and the
      list is NULL again once everything pushed has been popped. */
  method PushThenPop(a: Token, b: Token) returns (first: Option<Token>, second: Option<Token>, third: Option<Token>)
    ensures first == Some(b) && second == Some(a) && third == None
  {
    var s := new Stack();
    s.Push(a);
    s.Push(b);
    first := s.Pop();
    second := s.Pop();
    third := s.Pop();
  }

  /** Pushing `toks` in order, as parse_all does, then draining the list from
      its far end with st_rpop, as to_polish and calc_polish do, gives the
      lexemes back in push order. */
  method DrainInPushOrder(toks: seq<Token>) returns (drained: seq<Token>)
    ensures drained == toks
  {
    var s := new Stack();
    var i := 0;
    while i < |toks|
      invariant 0 <= i <= |toks|
      invariant s.items == Reverse(toks[..i])
    {
      ReverseCons(toks[i], toks[..i]);
      assert toks[..i + 1] == toks[..i] + [toks[i]];
      s.Push(toks[i]);
      i := i + 1;
    }
    assert toks[..i] == toks;
    ghost var items0 := s.items;
    drained := [];
    while true
      invariant |drained| <= |toks|
      invariant s.items == items0[..|toks| - |drained|]
      invariant drained == toks[..|drained|]
      decreases |s.items|
    {
      var p := s.RPop();
      if p.None? {
        break;
      }
      assert p.value == toks[|drained|];
      drained := drained + [p.value];
    }
    assert drained == toks;
  }

  /** What print_rstack writes for a list: its lexemes in reading order,
      separated by single spaces. */
  function Text(items: seq<Token>, fmtG: real -> string): string
  {
    JoinSpaces(Lexemes(Reverse(items), fmtG))
  }

  /** Writing node `cur` after the nodes beyond it. */
  lemma TextStep(items: seq<Token>, cur: nat, fmtG: real -> string)
    requires cur < |items|
    ensures Text(items[cur..], fmtG) ==
      if cur == |items| - 1 then PrintLexeme(items[cur], fmtG)
      else Text(items[cur + 1..], fmtG) + " " + PrintLexeme(items[cur], fmtG)
    ensures cur == 0 ==> items[cur..] == items
  {
    var rest := items[cur + 1..];
    assert items[cur..] == [items[cur]] + rest;
    ReverseCons(items[cur], rest);
    LexemesSnoc(Reverse(rest), items[cur], fmtG);
    JoinSpacesSnoc(Lexemes(Reverse(rest), fmtG), PrintLexeme(items[cur], fmtG));
  }

  /** Decimal text of a natural number. */
  function NatToString(n: nat): (r: string)
    ensures |r| >= 1
    ensures forall i :: 0 <= i < |r| ==> '0' <= r[i] <= '9'
  {
    if n < 10 then [(('0' as int) + n) as char]
    else NatToString(n / 10) + [(('0' as int) + n % 10) as char]
  }

  /** printf's "%d". */
  function IntToString(i: int): string
  {
    if i < 0 then "-" + NatToString(-i) else NatToString(i)
  }

  /** printf's "%c": the byte `(unsigned char) i`. */
  function CharOf(i: int): char
  {
    (i % 256) as char
  }

  /** print_lexeme: the text written for one lexeme. Doubles are formatted
      by `fmtG`, which stands for printf's "%g". */
  function PrintLexeme(t: Token, fmtG: real -> string): (r: string)
    ensures t.kind == Integer ==> r == IntToString(t.ival)
    ensures t.kind == Double ==> r == fmtG(t.dval)
    ensures t.kind == Operand || t.kind == UOperand || t.kind == XOperand ==>
      |r| == 1 && r[0] as int == t.ival % 256
    ensures t.kind == Func && 0 <= t.ival < |FuncNames| ==> r == FuncNames[t.ival]
    ensures t.kind == Func && !(0 <= t.ival < |FuncNames|) ==> r == ""
  {
    match t.kind
    case Integer => IntToString(t.ival)
    case Double => fmtG(t.dval)
    case Operand => [CharOf(t.ival)]
    case UOperand => [CharOf(t.ival)]
    case XOperand => [CharOf(t.ival)]
    case Func => if 0 <= t.ival < |FuncNames| then FuncNames[t.ival] else ""
  }

  function Lexemes(ts: seq<Token>, fmtG: real -> string): (ws: seq<string>)
    ensures |ws| == |ts|
    ensures forall i :: 0 <= i < |ts| ==> ws[i] == PrintLexeme(ts[i], fmtG)
  {
    if ts == [] then [] else [PrintLexeme(ts[0], fmtG)] + Lexemes(ts[1..], fmtG)
  }

  lemma LexemesAppend(a: seq<Token>, b: seq<Token>, fmtG: real -> string)
    ensures Lexemes(a + b, fmtG) == Lexemes(a, fmtG) + Lexemes(b, fmtG)
  {
    var l, r := Lexemes(a + b, fmtG), Lexemes(a, fmtG) + Lexemes(b, fmtG);
    forall i | 0 <= i < |l| ensures l[i] == r[i] {
      if i < |a| {
        assert (a + b)[i] == a[i];
      } else {
        assert (a + b)[i] == b[i - |a|];
      }
    }
  }

  lemma LexemesSnoc(ts: seq<Token>, t: Token, fmtG: real -> string)
    ensures Lexemes(ts + [t], fmtG) == Lexemes(ts, fmtG) + [PrintLexeme(t, fmtG)]
  {
  }

  /** A lexeme whose printed text is one word, with no space in it: a double
      whose "%g" text is one, an integer, a function from the table, or an
      operator, sign or variable whose character is not a space. */
  predicate Printable(t: Token, fmtG: real -> string)
  {
    match t.kind
    case Double => IsWord(fmtG(t.dval))
    case Integer => true
    case Func => 0 <= t.ival < |FuncNames|
    case Operand => CharOf(t.ival) != ' '
    case UOperand => CharOf(t.ival) != ' '
    case XOperand => CharOf(t.ival) != ' '
  }

  lemma PrintedWord(t: Token, fmtG: real -> string)
    requires Printable(t, fmtG)
    ensures IsWord(PrintLexeme(t, fmtG))
  {
    if t.kind == Integer {
      var d := NatToString(if t.ival < 0 then -t.ival else t.ival);
      assert ' ' !in d;
      if t.ival < 0 {
        var r := "-" + d;
        assert forall k :: 0 <= k < |r| ==> r[k] == '-' || r[k] == d[k - 1];
      }
    } else if t.kind == Func {
      assert forall i :: 0 <= i < |FuncNames| ==> IsWord(FuncNames[i]);
    }
  }

  /** Splitting what print_rstack writes at its spaces gives back the text
      of every lexeme, from the far end to the head, when each lexeme
      prints as one word. */
  lemma PrintedTextSplits(items: seq<Token>, fmtG: real -> string)
    requires items != []
    requires forall i :: 0 <= i < |items| ==> Printable(items[i], fmtG)
    ensures SplitSpaces(Text(items, fmtG)) == Lexemes(Reverse(items), fmtG)
  {
    var ts := Reverse(items);
    var ws := Lexemes(ts, fmtG);
    forall w | w in ws ensures IsWord(w) {
      var i :| 0 <= i < |ws| && ws[i] == w;
      assert ts[i] == items[|items| - 1 - i];
      PrintedWord(ts[i], fmtG);
    }
    SplitJoinSpaces(ws);
  }
}
