/** The validator of s21_validate.c: every lexeme is checked against its two
    neighbours in the list.

    In a list built by parse_all the `next` of a node is the lexeme read
    before it and its `prew` the lexeme read after it (see module
    Datatypes), so the checks below speak of `next` as the left neighbour
    and of `prew` as the right one. */
module Validator {
  import opened Tokens
  import opened Seqs
  import opened Datatypes

  /** An operator other than the parenthesis `c`: what may not stand next to
      a binary operator on that side. */
  predicate OperandExcept(t: Token, c: char)
  {
    t.kind == Operand && t.ival != Code(c)
  }

  /** check_binar: parentheses always pass; any other operator needs both
      neighbours, neither an operator on its left other than ')' nor a
      function there, and no operator on its right other than '('. */
  predicate BinarOk(node: Token, next: Option<Token>, prew: Option<Token>)
  {
    if node.ival == Code('(') || node.ival == Code(')') then true
    else if prew.None? || next.None? then false
    else if OperandExcept(next.value, ')') then false
    else if next.value.kind == Func then false
    else if OperandExcept(prew.value, '(') then false
    else true
  }

  /** check_unar: a sign needs a right neighbour; a left neighbour must be an
      operator other than ')'; the right one must not be an operator other
      than '(' nor another sign. */
  predicate UnarOk(node: Token, next: Option<Token>, prew: Option<Token>)
  {
    if prew.None? then false
    else
      !(next.Some? && (next.value.kind != Operand || next.value.ival == Code(')')))
      && !(OperandExcept(prew.value, '(') || prew.value.kind == UOperand)
  }

  /** check_func: a function needs '(' on its right and no number, variable
      or ')' on its left. */
  predicate FuncOk(node: Token, next: Option<Token>, prew: Option<Token>)
  {
    if prew.None? then false
    else
      !(next.Some? && (IsValue(next.value) || IsOp(next.value, ')')))
      && IsOp(prew.value, '(')
  }

  /** check_number: a number or the variable has nothing, an operator other
      than ')' or a sign on its left, and nothing or an operator other than
      '(' on its right. */
  predicate NumberOk(node: Token, next: Option<Token>, prew: Option<Token>)
  {
    (next.None? || OperandExcept(next.value, ')') || next.value.kind == UOperand)
    && (prew.None? || OperandExcept(prew.value, '('))
  }

  /** The check s21_validate applies to a lexeme `t` with neighbours `next`
      and `prew`, chosen by its kind. */
  predicate Check(t: Token, next: Option<Token>, prew: Option<Token>)
  {
    match t.kind
    case UOperand => UnarOk(t, next, prew)
    case Operand => BinarOk(t, next, prew)
    case Func => FuncOk(t, next, prew)
    case Integer => NumberOk(t, next, prew)
    case Double => NumberOk(t, next, prew)
    case XOperand => NumberOk(t, next, prew)
  }

  /** The check of node `i` of the list. */
  predicate TokenOk(items: seq<Token>, i: nat)
    requires i < |items|
  {
    Check(items[i], NextNode(items, i), PrewNode(items, i))
  }

  /** Every node passes its check. */
  predicate Valid(items: seq<Token>)
  {
    forall i :: 0 <= i < |items| ==> TokenOk(items, i)
  }

  /** s21_validate: walks from the head along `next`, stops at the first node
      that fails its check and returns ERROR, or returns OK when every node
      passes (the NULL list included). The list is only read. */
  method Validate(root: Stack) returns (error: int)
    ensures error == OK || error == ERROR
    ensures error == ERROR <==> exists i :: 0 <= i < |root.items| && !TokenOk(root.items, i)
    ensures error == OK <==> Valid(root.items)
  {
    error := OK;
    var k := 0;
    while k < |root.items|
      invariant 0 <= k <= |root.items|
      invariant error == OK
      invariant forall j :: 0 <= j < k ==> TokenOk(root.items, j)
    {
      var node := root.items[k];
      var next := NextNode(root.items, k);
      var prew := PrewNode(root.items, k);
      if node.kind == UOperand {
        error := if UnarOk(node, next, prew) then OK else ERROR;
      } else if node.kind == Operand {
        error := if BinarOk(node, next, prew) then OK else ERROR;
      } else if node.kind == Func {
        error := if FuncOk(node, next, prew) then OK else ERROR;
      } else if node.kind == Integer || node.kind == Double || node.kind == XOperand {
        error := if NumberOk(node, next, prew) then OK else ERROR;
      }
      if error == ERROR {
        assert !TokenOk(root.items, k);
        break;
      }
      k := k + 1;
    }
  }

  // ---------------------------------------------------------------- reading order

  /** The lexeme read before position `j` of `toks`. */
  function Before(toks: seq<Token>, j: nat): Option<Token>
  {
    if 0 < j <= |toks| then Some(toks[j - 1]) else None
  }

  /** The lexeme read after position `j` of `toks`. */
  function After(toks: seq<Token>, j: nat): Option<Token>
  {
    if j + 1 < |toks| then Some(toks[j + 1]) else None
  }

  /** In the list parse_all builds from `toks`, the node of lexeme `j` has
      the lexeme read before it as `next` and the one read after it as
      `prew`. */
  lemma {:induction false} Neighbours(toks: seq<Token>, j: nat)
    requires j < |toks|
    ensures Reverse(toks)[|toks| - 1 - j] == toks[j]
    ensures NextNode(Reverse(toks), |toks| - 1 - j) == Before(toks, j)
    ensures PrewNode(Reverse(toks), |toks| - 1 - j) == After(toks, j)
  {
  }

  /** The check of lexeme `j`, read with its neighbours in reading order. */
  predicate TextOk(toks: seq<Token>, j: nat)
    requires j < |toks|
  {
    Check(toks[j], Before(toks, j), After(toks, j))
  }

  lemma TextOkIsTokenOk(toks: seq<Token>, j: nat)
    requires j < |toks|
    ensures TextOk(toks, j) <==> TokenOk(Reverse(toks), |toks| - 1 - j)
  {
    Neighbours(toks, j);
  }

  /** The list parse_all builds from `toks` validates exactly when every
      lexeme passes its check in reading order. */
  lemma ValidInText(toks: seq<Token>)
    ensures Valid(Reverse(toks)) <==> forall j :: 0 <= j < |toks| ==> TextOk(toks, j)
  {
    if Valid(Reverse(toks)) {
      forall j | 0 <= j < |toks| ensures TextOk(toks, j) {
        TextOkIsTokenOk(toks, j);
      }
    }
    if forall j :: 0 <= j < |toks| ==> TextOk(toks, j) {
      forall i | 0 <= i < |toks| ensures TokenOk(Reverse(toks), i) {
        TextOkIsTokenOk(toks, |toks| - 1 - i);
      }
    }
  }

  /** A lexeme that fails its check in reading order makes the list invalid. */
  lemma RejectedAt(toks: seq<Token>, j: nat)
    requires j < |toks| && !TextOk(toks, j)
    ensures !Valid(Reverse(toks))
  {
    TextOkIsTokenOk(toks, j);
  }

  /** Parentheses always pass their own check. */
  lemma ParenthesesPass(toks: seq<Token>, j: nat)
    requires j < |toks| && (IsOp(toks[j], '(') || IsOp(toks[j], ')'))
    ensures TextOk(toks, j)
  {
  }

  /** A binary operator other than a parenthesis: '+', '-', '*', '/', '^',
      or the '%' of "mod". */
  predicate IsBinary(t: Token)
  {
    t.kind == Operand && t.ival != Code('(') && t.ival != Code(')')
  }

  /** Two numbers or variables, one right after the other. */
  lemma AdjacentValuesRejected(toks: seq<Token>, j: nat)
    requires j + 1 < |toks| && IsValue(toks[j]) && IsValue(toks[j + 1])
    ensures !Valid(Reverse(toks))
  {
    RejectedAt(toks, j);
  }

  /** A number or variable followed by '(', as in "7(+3)". */
  lemma ValueBeforeParenRejected(toks: seq<Token>, j: nat)
    requires j + 1 < |toks| && IsValue(toks[j]) && IsOp(toks[j + 1], '(')
    ensures !Valid(Reverse(toks))
  {
    RejectedAt(toks, j);
  }

  /** A binary operator that starts or ends the expression. */
  lemma BinaryAtEdgeRejected(toks: seq<Token>, j: nat)
    requires j < |toks| && (j == 0 || j == |toks| - 1) && IsBinary(toks[j])
    ensures !Valid(Reverse(toks))
  {
    RejectedAt(toks, j);
  }

  /** Two binary operators in a row. */
  lemma AdjacentBinariesRejected(toks: seq<Token>, j: nat)
    requires j + 1 < |toks| && IsBinary(toks[j]) && IsBinary(toks[j + 1])
    ensures !Valid(Reverse(toks))
  {
    RejectedAt(toks, j);
  }

  /** A binary operator right after a function name or '(' , as in "(*5)". */
  lemma BinaryAfterFuncOrParenRejected(toks: seq<Token>, j: nat)
    requires 0 < j < |toks| && IsBinary(toks[j])
    requires toks[j - 1].kind == Func || IsOp(toks[j - 1], '(')
    ensures !Valid(Reverse(toks))
  {
    RejectedAt(toks, j);
  }

  /** A function name not followed by '(', as in "log(x)ln" or "sin x". */
  lemma FuncWithoutParenRejected(toks: seq<Token>, j: nat)
    requires j < |toks| && toks[j].kind == Func
    requires j + 1 == |toks| || !IsOp(toks[j + 1], '(')
    ensures !Valid(Reverse(toks))
  {
    RejectedAt(toks, j);
  }

  /** A sign that ends the expression, or is followed by a binary operator
      or another sign, as in "--5" or "(555-)". */
  lemma SignWithoutOperandRejected(toks: seq<Token>, j: nat)
    requires j < |toks| && toks[j].kind == UOperand
    requires j + 1 == |toks| || IsBinary(toks[j + 1]) || IsOp(toks[j + 1], ')')
      || toks[j + 1].kind == UOperand
    ensures !Valid(Reverse(toks))
  {
    RejectedAt(toks, j);
  }
}
