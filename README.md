# SmartCalc expression engine in Dafny

This project models the expression engine of SmartCalc (`src/lib`), a C calculator, and proves its properties. The engine reads a line of text and works in four stages. All four share one hand-built doubly linked token list.

- **Token list** (`s21_datatypes.c`). `Datatypes.Stack` holds `items: seq<Token>`.
  - `items[0]` is the head, i.e. the node pushed last. `items[i + 1]` is its `next` and `items[i - 1]` its `prew`.
  - The empty sequence is the NULL list.
  - `st_push` prepends, `st_pop` removes the head and `st_rpop` removes the far end.
  - `print_rstack` prints the list from the far end to the head.
- **Tokenizer** (`s21_lexeme_parser.c`):
  - `comma_check` checks the parentheses on raw characters.
  - `parse_number`, `parse_func` and `parse_operator` each read one lexeme and push it.
  - `parse_all` skips spaces and returns the list, or NULL on any failure.
  - The reading of a whole line is specified by the function `LexemeParser.Lex`. `ParseAll` is proved to build exactly `Reverse(Lex(line, x))`, so its head is the last lexeme read.
- **Validator** (`s21_validate.c`). Every node is checked against its two neighbours.
  - In a parsed list, `next` is the lexeme read *before* a node and `prew` the lexeme read *after* it.
  - Module `Validator` states the checks on the list, in the same form as the C code.
  - It also restates them in reading order and proves the two forms agree.
- **Converter and evaluator** (`s21_polish.c`):
  - `to_polish` is a shunting-yard conversion. It is specified by `Polish.Postfix` on the reading-order sequence.
  - `calc_polish` runs a value stack over the postfix list. It is specified by `Calc.Exec`, a machine on a list of values plus the soft division-by-zero flag.

Choices made in the model:

- Numbers are `real`. The maths functions and IEEE division are the fields of a `Calc.Libm` record, so nothing is assumed about their values. `+`, `-` and `*` are exact.
- The variable `x` (read by `get_x` from the environment in the C) is a parameter of the tokenizer.
- `%g` formatting of doubles is a parameter `fmtG` of the printer.

Two behaviours of the code that the model follows as written:

- `calc_uoperand` reports the square root of a negative value as ERROR (`src/lib/s21_polish.c:189-192`), but `calc_polish` drops that status (`src/lib/s21_polish.c:143`). The model keeps the error in `CalcUOperand` and drops it in `Exec` (`Calc.SqrtOfNegativeNotReported`).
- `parse_number` accepts `"5."` as 5.0 and refuses a point only when the integer part is 0 and no fraction digit follows, so `"."` and `"0."` fail (`src/lib/s21_lexeme_parser.c:241-248`; `LexemeParser.FivePointIsDouble` and `LexemeParser.BarePointsRejected`).

## Model

| member | source | states |
|---|---|---|
| Datatypes.Stack.Push | src/lib/s21_datatypes.c:19-28 | the new head carries the payload; its `next` is the old head and it has no `prew`; the old head's `prew` is now the new node; the rest of the list is unchanged |
| Datatypes.Stack.Pop | src/lib/s21_datatypes.c:37-44 | on NULL it returns nothing and the list stays NULL; otherwise it returns the old head and the head becomes that node's `next` |
| Datatypes.Stack.RPop | src/lib/s21_datatypes.c:72-79 | on NULL it returns nothing; otherwise it returns the far-end node and the list loses exactly that node |
| Datatypes.Stack.RemoveStack | src/lib/s21_datatypes.c:54-61 | every node is popped and the list ends up NULL |
| Datatypes.PushThenPop | src/lib/s21_datatypes.c:19-44 | after two pushes, three pops give the second value, then the first, then nothing: the list is LIFO and pops back to its previous head |
| Datatypes.DrainInPushOrder | src/lib/s21_datatypes.c:72-79 | a list built only by pushes, drained with `st_rpop`, yields the values in push order, which is how `to_polish` and `calc_polish` read their input |
| Datatypes.PrintLexeme | src/lib/s21_datatypes.c:90-110 | an integer prints as its decimal `ival`; a double as its `%g` text; an operator, sign or `x` as the one character in `ival`; a function as its table entry (its partner is `LexemeParser.LexemeReadBack`) |
| Datatypes.Stack.PrintRStack | src/lib/s21_datatypes.c:120-129 | the output is the lexemes from the far end to the head, joined by single spaces with none leading or trailing; a NULL list writes nothing |
| Datatypes.NatToString | src/lib/s21_datatypes.c:95 | the decimal text of a count is non-empty and made of digits only |
| LexemeParser.NatToStringValue | src/lib/s21_datatypes.c:95 | the `%d` text of a natural number is a digit string whose decimal value is that number |
| Datatypes.PrintedWord | src/lib/s21_datatypes.c:90-110 | a lexeme prints as a non-empty text without spaces when it is an integer, a function inside the table, an operator, sign or `x` whose character is not a space, or a double whose `%g` text is such a word |
| Datatypes.PrintedTextSplits | src/lib/s21_datatypes.c:120-129 | when every lexeme of a non-NULL list prints as a word, splitting `print_rstack`'s text at spaces gives exactly the printed lexemes from the far end to the head |
| Words.SplitJoinSpaces | src/lib/s21_datatypes.c:120-129 | for any non-empty list of non-empty words without spaces, splitting their space-joined text at spaces gives back the list |
| LexemeParser.CommaCheck | src/lib/s21_lexeme_parser.c:117-135 | returns ERROR exactly when a `)` is read at depth 0, a `(` follows `)`, a `)` follows `(`, or the final depth is not 0; OK otherwise |
| LexemeParser.NoParensOk | src/lib/s21_lexeme_parser.c:117-135 | a line without parentheses always passes the parenthesis check |
| LexemeParser.DigitRun | src/lib/s21_lexeme_parser.c:268 | the run of digits at a position is maximal: all characters in it satisfy `is_digit` and the one after it does not |
| LexemeParser.NumberSpec | src/lib/s21_lexeme_parser.c:211-258 | a literal is accepted only when it starts with a digit or a point; it gives an integer or a double and consumes at least one character of the input |
| LexemeParser.ParseNumber | src/lib/s21_lexeme_parser.c:211-258 | on a rejected literal it returns ERROR and pushes nothing; otherwise it pushes the token of the literal and returns the number of characters consumed |
| LexemeParser.IntegerLiteral | src/lib/s21_lexeme_parser.c:221-235 | a run of digits not followed by a digit or a point is an integer whose `ival` is the run's decimal value, with `dval` equal to it, and consumes the run |
| LexemeParser.PointLiteralAt | src/lib/s21_lexeme_parser.c:239-257 | digits, one point and digits give a double whose value is the integer part plus the fraction over 10 to the number of fraction digits |
| LexemeParser.SecondPointRejected | src/lib/s21_lexeme_parser.c:241-248 | a literal with a second point is rejected |
| LexemeParser.BarePointsRejected | src/lib/s21_lexeme_parser.c:241-248 | `"."` and `"0."` are rejected: a point with a zero integer part needs a fraction digit |
| LexemeParser.FivePointIsDouble | src/lib/s21_lexeme_parser.c:241-248 | `"5."` is accepted as the double 5.0 and consumes two characters |
| LexemeParser.TwelveIsInteger | src/lib/s21_lexeme_parser.c:221-235 | `"12"` is the integer 12 and consumes two characters |
| LexemeParser.QuarterIsDouble | src/lib/s21_lexeme_parser.c:239-257 | `"0.25"` is the double 0.25 and consumes four characters |
| LexemeParser.PointFiveIsDouble | src/lib/s21_lexeme_parser.c:239-257 | `".5"` is the double 0.5 and consumes two characters |
| LexemeParser.TwoPointsRejected | src/lib/s21_lexeme_parser.c:241-248 | `"5.5.5"` is rejected |
| LexemeParser.AddLexeme | src/lib/s21_lexeme_parser.c:28-34 | the lexeme becomes the new head of the list |
| LexemeParser.FuncMatchFrom | src/lib/s21_lexeme_parser.c:82-106 | the table scan finds the first entry from the given index that is a prefix of the input, or reports that none of the remaining entries is |
| LexemeParser.FuncSpec | src/lib/s21_lexeme_parser.c:82-106 | a match consumes a table entry that the input starts with, and gives a function token with index below `mod`, or the `%` operator |
| LexemeParser.ParseFunc | src/lib/s21_lexeme_parser.c:82-106 | with no matching entry it returns ERROR and pushes nothing; otherwise it pushes the entry's token and returns the entry's length |
| LexemeParser.PrefixByChars | src/lib/s21_lexeme_parser.c:85-88 | the character loop over an entry finds the entry at the start of the line exactly when it reaches the entry's end; the line's terminator stops it at the latest |
| LexemeParser.FuncNamesHeads | src/lib/s21_lexeme_parser.c:16-17 | every table entry has at least two characters, and no two entries share their first two |
| LexemeParser.FuncNamesPrefixFree | src/lib/s21_lexeme_parser.c:16-17 | no table entry is a prefix of a text starting with another entry, so the scan order never matters |
| LexemeParser.FuncEntry | src/lib/s21_lexeme_parser.c:82-106 | input starting with entry `i` consumes that entry; entries 0 to 8 give a function token with `ival = i`, and `mod` gives the `%` operator |
| LexemeParser.ModIsOperator | src/lib/s21_lexeme_parser.c:91-94 | `mod` reads as the binary operator `%` and consumes three characters |
| LexemeParser.FuncStart | src/lib/s21_lexeme_parser.c:16-17 | a function name can only start with one of `s c t a l m` |
| LexemeParser.IsOperator | src/lib/s21_lexeme_parser.c:193-200 | yes exactly for the characters of `+-*/()x^` |
| LexemeParser.OperatorToken | src/lib/s21_lexeme_parser.c:146-183 | the token carries the character; `x` becomes the variable with the value at reading time; `+` or `-` is a sign exactly after nothing or after one of `( * / % ^`, and is binary otherwise |
| LexemeParser.ParseOperator | src/lib/s21_lexeme_parser.c:146-183 | a character outside the operator set gives ERROR and pushes nothing; otherwise it pushes the operator's token and advances by one |
| LexemeParser.OperatorLexeme | src/lib/s21_lexeme_parser.c:57-59 | at an operator character the next lexeme is that one-character operator |
| LexemeParser.NextLexeme | src/lib/s21_lexeme_parser.c:57-59 | a lexeme that is read consumes at least one character and no more than the rest of the line |
| LexemeParser.ParseAll | src/lib/s21_lexeme_parser.c:45-70 | builds a fresh list; it is NULL when the line is rejected, and otherwise holds the lexemes in reading order, with the last one read as head |
| LexemeParser.BracketFaultRejects | src/lib/s21_lexeme_parser.c:48-69 | a line that fails the parenthesis check is rejected even when every position reads as a lexeme |
| LexemeParser.ScanSpace | src/lib/s21_lexeme_parser.c:49-53 | a space is skipped without producing a lexeme |
| LexemeParser.ScanOperator | src/lib/s21_lexeme_parser.c:57-62 | an operator character adds its token, signed by the previous lexeme, and reading goes on after it |
| LexemeParser.ScanInteger | src/lib/s21_lexeme_parser.c:57-62 | a run of digits adds its integer and reading goes on after the run |
| LexemeParser.ScanFunc | src/lib/s21_lexeme_parser.c:57-62 | a table name adds its token and reading goes on after the name |
| LexemeParser.ScanStuck | src/lib/s21_lexeme_parser.c:57-69 | a character that starts no number, no function and no operator makes the whole line rejected |
| LexemeParser.LexWellLexed | src/lib/s21_lexeme_parser.c:159-173 | in every accepted line each sign is `+` or `-` read after nothing or after `( * / % ^`; each binary `+`/`-` comes after anything else; each `x` carries the variable's value; each function has an index below `mod` |
| LexemeParser.ScanWellLexed | src/lib/s21_lexeme_parser.c:146-183 | reading keeps the sign rule true of the whole prefix read so far |
| LexemeParser.NextLexemeRule | src/lib/s21_lexeme_parser.c:159-173 | each single lexeme read obeys the sign rule with respect to the lexeme before it |
| LexemeParser.IntegerReadBack | src/lib/s21_datatypes.c:94-95 | the `%d` text of an integer lexeme, followed by anything but a digit or a point, is read back by `parse_number` as the same integer and consumes the whole text |
| LexemeParser.FuncReadBack | src/lib/s21_datatypes.c:105-106 | the printed name of a function 0 to 8 is read back by `parse_func` as the same function and consumes the whole name |
| LexemeParser.OperatorReadBack | src/lib/s21_datatypes.c:99-103 | an operator, sign or `x` prints as its one character, which `parse_operator` reads back as the same token after the same predecessor |
| LexemeParser.PercentNotReadBack | src/lib/s21_datatypes.c:99-103 | the remainder operator, read from `mod`, prints as `%`, which no reader of the tokenizer accepts |
| LexemeParser.LexemeReadBack | src/lib/s21_datatypes.c:90-110 | every lexeme the tokenizer reads, except a double and the remainder operator, prints to a non-empty text that the tokenizer reads back, in the same place, as the same lexeme consuming the whole text |
| LexemeParser.NextLexemePrintable | src/lib/s21_lexeme_parser.c:57-59 | every lexeme read other than a double prints as one word |
| LexemeParser.ScanPrintable | src/lib/s21_lexeme_parser.c:45-70 | reading keeps every non-double lexeme of the prefix read so far printable as one word |
| LexemeParser.LexPrintable | src/lib/s21_lexeme_parser.c:45-70 | every non-double lexeme of an accepted line prints as one word, so `print_rstack`'s spaces separate exactly its lexemes |
| LexemeParser.HeadOfReverse | src/lib/s21_lexeme_parser.c:61-62 | the head of the list being built is the last lexeme read, which is what the sign rule consults |
| LexCases.MinusMinusFive | src/unit_tests.c:206-231 | `"--5"` reads as a sign, a binary minus and 5, and that list fails validation |
| LexCases.FiveSpacesFive | src/unit_tests.c:206-231 | `"5   5"` reads as two integers 5, and that list fails validation |
| LexCases.OpenOnly | src/unit_tests.c:206-231 | `"("` is rejected by the tokenizer |
| LexCases.EmptyParens | src/unit_tests.c:206-231 | `"()"` is rejected by the tokenizer |
| LexCases.CloseFirst | src/unit_tests.c:206-231 | `")5+7("` is rejected by the tokenizer |
| LexCases.VariablePoint | src/unit_tests.c:206-231 | `"x."` is rejected by the tokenizer |
| LexCases.MinusFourPlusFour | src/unit_tests.c:235-260 | `"-4 + 4"` reads as a sign, 4, a binary plus and 4 |
| LexCases.MinusFourPlusFourValid | src/unit_tests.c:235-260 | the list read from `"-4 + 4"` passes validation |
| LexCases.TwoPowMinusThree | src/unit_tests.c:235-260 | `"2 ^ -3"` reads as 2, `^`, a sign and 3 |
| LexCases.TwoPowMinusThreeValid | src/unit_tests.c:235-260 | the list read from `"2 ^ -3"` passes validation |
| LexCases.ThreeModTwoMinusOne | src/unit_tests.c:235-260 | `"3 mod 2 - 1"` reads as 3, `%`, 2, a binary minus and 1 |
| LexCases.ThreeModTwoMinusOneValid | src/unit_tests.c:235-260 | the list read from `"3 mod 2 - 1"` passes validation |
| LexCases.SpacedEmptyParens | src/lib/s21_polish.c:148-149 | `"( )"` passes the parenthesis check, reads as `(` and `)`, passes validation, converts to an empty postfix list, and is not evaluable: `calc_polish` would pop a NULL value stack |
| Validator.Validate | src/lib/s21_validate.c:25-43 | returns OK or ERROR; ERROR exactly when some node fails the check for its kind and OK exactly when all pass, so the NULL list is OK; the list is only read |
| Validator.Neighbours | src/lib/s21_validate.c:80-81 | in a parsed list a node's `next` is the lexeme read before it and its `prew` the lexeme read after it |
| Validator.ValidInText | src/lib/s21_validate.c:25-43 | a parsed list validates exactly when every lexeme passes its check against the lexemes read before and after it |
| Validator.RejectedAt | src/lib/s21_validate.c:25-43 | one lexeme failing its check makes the whole list invalid |
| Validator.ParenthesesPass | src/lib/s21_validate.c:56 | `(` and `)` always pass their own check |
| Validator.AdjacentValuesRejected | src/lib/s21_validate.c:134-143 | two numbers or variables in a row are rejected |
| Validator.ValueBeforeParenRejected | src/lib/s21_validate.c:134-143 | a number or variable followed by `(` is rejected |
| Validator.BinaryAtEdgeRejected | src/lib/s21_validate.c:57-66 | a binary operator with no lexeme before it or none after it is rejected |
| Validator.AdjacentBinariesRejected | src/lib/s21_validate.c:57-66 | two binary operators in a row are rejected |
| Validator.BinaryAfterFuncOrParenRejected | src/lib/s21_validate.c:57-66 | a binary operator after a function name or after `(` is rejected |
| Validator.FuncWithoutParenRejected | src/lib/s21_validate.c:105-123 | a function name not followed by `(` is rejected |
| Validator.SignWithoutOperandRejected | src/lib/s21_validate.c:78-94 | a sign at the end, or followed by a binary operator, `)` or another sign, is rejected |
| Polish.Priority | src/lib/s21_polish.c:29-54 | priorities lie between -1 and 4; exactly functions and signs get 4, and exactly `(` gets 0 |
| Polish.PriorityTable | src/lib/s21_polish.c:36-47 | exactly `+ -` get 1, `* / %` get 2 and `^` gets 3, the missing `break` after `^` notwithstanding |
| Polish.PopCount | src/lib/s21_polish.c:91-97 | the operators popped before a push are the longest run at the buffer top with priority at least the new one's and no `(` |
| Polish.ToPolish | src/lib/s21_polish.c:66-110 | consumes the input list, leaving it NULL, and returns a fresh list whose lexemes in reading order are the shunting-yard postfix of the input's lexemes |
| Polish.FlushBuffer | src/lib/s21_polish.c:104-108 | at end of input the buffer is emptied onto the output in LIFO order |
| Polish.ConvertLexeme | src/lib/s21_polish.c:76-100 | handling one lexeme moves output and buffer exactly as one shunting-yard step does |
| Polish.PopToOutput | src/lib/s21_polish.c:91-96 | the pop loop moves exactly the poppable run from the buffer to the output |
| Polish.ValuesInOrder | src/lib/s21_polish.c:76-78 | the numbers and variables come out in the order they were read |
| Polish.Permutation | src/lib/s21_polish.c:75-109 | with balanced parentheses the output is a permutation of the input without its parentheses |
| Polish.RunParens | src/lib/s21_polish.c:80-89 | while no `)` is unmatched, the buffer holds one `(` per open parenthesis, and output plus buffer hold every non-parenthesis lexeme read so far |
| Polish.Precedence | src/lib/s21_polish.c:91-97 | `a o1 b o2 c` gives `a b o1 c o2` when `o1` has priority at least that of `o2`, and `a b c o2 o1` otherwise |
| Polish.PowerLeftAssociative | src/lib/s21_polish.c:91-97 | `2^2^3` gives `2 2 ^ 3 ^`: equal priorities, `^` included, associate to the left |
| UnitCases.TestPolish | src/unit_tests.c:181-190 | the lexemes of `1/2+(2+3)/(sin(9-2)^2-6/7.4)` convert to `1 2 / 2 3 + 9 2 - sin 2 ^ 6 7.4 / - / +` |
| UnitCases.TestPolishText | src/unit_tests.c:181-190 | the converted list prints as the text `1 2 / 2 3 + 9 2 - sin 2 ^ 6 7.4 / - / +` when `%g` prints 7.4 as `7.4` |
| Calc.CalcUOperand | src/lib/s21_polish.c:164-203 | `+` leaves the top value unchanged, `-` negates it and `i` applies table function `i` in place; ERROR only for sqrt of a negative value; the rest of the stack is unchanged |
| Calc.Apply | src/lib/s21_polish.c:130-146 | a value is pushed; a binary operator replaces the two top values by its result, with the newer one as right operand; a sign or function keeps the height; the flag is raised exactly by `/` with a zero right operand |
| Calc.CalcPolish | src/lib/s21_polish.c:123-153 | consumes the postfix list; the result is the top value of the machine run over it, and ERROR is returned exactly when that run raised the division flag |
| Calc.CalcPolishGuarded | src/lib/s21_polish.c:123-153 | for any postfix list, it consumes the list and returns ERROR when the machine run would pop an empty value stack or ends with none; otherwise the result is the top value and ERROR is returned exactly when the division flag was raised |
| Calc.CalcLexeme | src/lib/s21_polish.c:130-146 | one loop turn changes the value stack and the flag exactly as one machine step |
| Calc.ExecHeight | src/lib/s21_polish.c:130-146 | the value stack's height is the number of values read minus the number of binary operators |
| Calc.ExecDefined | src/lib/s21_polish.c:134-143 | the run never pops an empty stack exactly when every binary operator has two values and every sign or function one value beneath it |
| Calc.OneValueLeft | src/lib/s21_polish.c:148-152 | well-formed postfix leaves exactly one value, which is the result |
| Calc.DivZeroExactly | src/lib/s21_polish.c:138 | the division flag is raised exactly when some `/` had a zero right operand; evaluation goes on after it |
| Calc.OperandOrder | src/lib/s21_polish.c:134-139 | running `a b op` leaves the single value `op(a, b)` computed by `calc_bioperand` with the most recent value `b` as right operand, and raises the flag exactly when `op` is `/` and `b` is zero |
| Calc.SqrtOfNegativeNotReported | src/lib/s21_polish.c:143 | sqrt of a negative value fails in `calc_uoperand` yet leaves the division flag down |
| Calc.ModByZeroNotReported | src/lib/s21_polish.c:235-237 | `mod` by zero raises no flag |
| Calc.DivisionByZeroReported | src/lib/s21_polish.c:138 | `/` by zero raises the flag |
| Calc.SignsCancel | src/lib/s21_polish.c:166-170 | unary `+` is the identity, `-` applied twice restores the value, and neither fails |

## Left out

- Memory: `malloc` failure (the `perror` in `add_lexeme`) and every `free` are not modelled. Reading a node and freeing it is a `Pop`/`RPop`; the nodes a successful call frees are the elements it removes.
- Pointer identity: the list is a sequence of values in a class field, so raw `stack *` aliasing, dangling pointers and the in-place rewiring of `prew`/`next` are captured only through `NextNode`/`PrewNode` of the sequence.
- Datatypes.Stack.RPop: the walk of `to_polish` and `calc_polish` to the far end along `next` is folded into `RPop`, which removes the far end directly.
- Datatypes.PrintLexeme: the `%g` conversion of a double is the parameter `fmtG`. A function token whose index lies outside the table prints as the empty string, while the C reads past the table; no parsed list holds such a token.
- LexemeParser.ParseNumber: the `int` accumulator is unbounded, so overflow of long digit runs is not modelled, and the double value is the exact real `int + frac / 10^k` with no rounding.
- LexemeParser.ParseAll: `get_x` (an environment-variable read) is the parameter `x`; `set_x` is not part of this model.
- Polish.ToPolish: requires a non-empty list, because the C dereferences `*head` before its first test.
- Calc.CalcPolish: requires that no step pops an empty value stack (`Evaluable`), because the C then dereferences NULL; validated input does not always meet it (see Findings). `Calc.ExecDefined` characterises exactly which postfix lists meet this requirement, and `Calc.CalcPolishGuarded` handles the rest.
- LexemeParser.LexemeReadBack: a double is left out because its `%g` text is the parameter `fmtG`; the remainder operator is left out because it does not read back (`LexemeParser.PercentNotReadBack`).
- Arithmetic: `sin`, `cos`, `tan`, `acos`, `asin`, `atan`, `sqrt`, `log`, `log10`, `pow`, `fmod` and IEEE division are uninterpreted fields of `Calc.Libm`; `+`, `-` and `*` are exact on reals, so rounding, NaN and infinities are not modelled.
- Unit tests: only some strings of the invalid and valid lists of `src/unit_tests.c` are read through `Lex` (the `LexCases` module); the others are covered by the rejection lemmas of `Validator` on token level rather than one by one. The numeric assertions of the tests (for example the result of `test_complex`) are left out with the arithmetic.
- The Qt front end and the credit calculator are not part of this model.

## Findings

| source | as written | input that shows it | evidently intended | confidence | as-written member | corrected member |
|---|---|---|---|---|---|---|
| src/lib/s21_polish.c:148-149 | after the loop, `calc_polish` pops the value stack and reads `final->dval` without testing `final` against NULL | `"( )"`: `comma_check` sees no two brackets side by side, `s21_validate` passes both brackets, and `to_polish` returns an empty list, so `final` is NULL | report ERROR when no value is left, as the guarded loop does | not executed | LexCases.SpacedEmptyParens | Calc.CalcPolishGuarded |
