/** The lexeme record shared by every stage of the engine, with the kind tags
    and status codes of s21_datatypes.h and the function-name table. */
module Tokens {

  datatype Option<T> = None | Some(value: T)

  /** Status codes used throughout the engine. */
  const OK: int := 1
  const ERROR: int := -1

  /** The kinds of lexeme. */
  datatype Kind = Integer | Double | Operand | UOperand | XOperand | Func

  /** The character the C header uses as the tag of each kind. */
  function Tag(k: Kind): char
  {
    match k
    case Integer => 'd'
    case Double => 'f'
    case Operand => 'o'
    case UOperand => '~'
    case XOperand => 'x'
    case Func => '?'
  }

  /** One lexeme. `ival` is the operator's character code, the function's
      table index or an integer literal's value; `dval` is the numeric value
      of a literal or of the variable. The links between lexemes are the
      positions in a Stack (module Datatypes). */
  datatype Token = Token(kind: Kind, ival: int, dval: real)

  /** Character code of `c`, as the C code stores it in `ival`. */
  function Code(c: char): int { c as int }

  /** A binary operator or parenthesis token carrying character `c`. */
  predicate IsOp(t: Token, c: char)
  {
    t.kind == Operand && t.ival == Code(c)
  }

  /** Numbers and the variable: the kinds that carry a value. */
  predicate IsValue(t: Token)
  {
    t.kind == Integer || t.kind == Double || t.kind == XOperand
  }

  /** The table s21_tfuncs without its empty terminating entry. Entries 0..8
      are unary functions; the last one, "mod", is the binary modulo. */
  const FuncNames: seq<string> :=
    ["sin", "cos", "tan", "acos", "asin", "atan", "sqrt", "ln", "log", "mod"]

  /** Index of "mod", the entry that is an operator rather than a function. */
  const ModIndex: nat := 9

  lemma TagsDistinct(a: Kind, b: Kind)
    requires a != b
    ensures Tag(a) != Tag(b)
  {
  }
}
