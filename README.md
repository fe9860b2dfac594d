# Scarpet interpreter core, modelled in Dafny

This project models the language engine of the standalone Scarpet
interpreter: the expression language of the Carpet mod, run outside the
game. A program is tokenized, turned into reverse Polish notation by a
shunting-yard pass, checked for arity, compiled into a tree of thunks and
evaluated against a context of variables. Around the engine sit the tables
of a script host and the event and script servers that schedule calls into
hosts.

The model follows the program's own structure:

- **Values** (`values.dfy`): the value variants (null, booleans as 1/0,
  strings, lists, the `outer` marker, function signatures), each carrying the
  name of the variable it was bound to, with their truth, string and
  ordering rules. Numbers are integers.
- **Tokens and registry** (`tokens.dfy`): tokens, `morph`/`morphedInto`, the
  operator precedence table as registered (with the assignment group passed
  in, see Findings) and the arity of every built-in.
- **Tokenizer** (`lexspec.dfy`, `lexer.dfy`, `lexfacts.dfy`): one
  `next()` call as a function of input and cursor, the `Tokenizer` class
  whose scanning loops are proved to compute it, and what it promises about
  numbers, strings, names, operators, the strict-mode checks and
  `postProcess`. The bracket `switch` is kept as written: every bracket,
  comma and brace is typed MARKER.
- **Parser** (`parsespec.dfy`, `parser.dfy`, `parsefacts.dfy`): the stored
  text, `shuntingYard`, `validate` and `getAST` as functions, the
  `Expression` class whose loops over stacks and queues are proved to compute
  them, and worked cases on small programs.
- **Scoping and evaluation** (`scope.dfy`, `ast.dfy`, `interp.dfy`,
  `interpfacts.dfy`): the local map in front of the host tables with the
  `global_` rule, the compiled tree as a datatype, and an interpreter that
  returns a value or one of the unwinding outcomes (return, throw, exit,
  error), with the operators, control flow, user functions and `outer`
  copy-in/copy-out.
- **Built-ins** (`arith.dfy`, `sysfuncs.dfy`, `loops.dfy`, `loopfacts.dfy`): `not`, `fact`,
  `max`, `min`, `relu`; `bool`, `number`, the `str` specifier count, `var`,
  `undef`, `vars`; and the loop built-ins as methods on a context that save,
  rebind and restore `_`, `_i` and `_a`, proved equal to the interpreter's
  definitions, with the exact results of each loop built-in in `loopfacts.dfy`.
- **Hosts** (`hosts.dfy`): `ScriptHost` and `Context` as classes whose
  methods are proved against the scoping functions; seeded globals, the
  public/available filters and the argument mini-parser of `call`.
- **Servers** (`servers.dfy`): callback lists (add, remove, call), the
  countdown queue of scheduled calls, `decodeCallback` and its printed form,
  host lookup, `__on_` wiring and `runas`.
- **Messages** (`messages.dfy`): the program snippet around a token, the
  error line and `makeMessage` with an error snooper.

Input and output, the clock, randomness and the game are not modelled; what
the source prints is dropped, and a snooper's or a host's answer is passed
in as a parameter.

## Model

| member | source | states |
|---|---|---|
| Values.AssertAssignable | src/main/java/adsen/scarpet/interpreter/parser/value/GlobalValue.java:5-9 | succeeds exactly on a value bound to a variable, and then yields that variable's name |
| Values.Rebound | src/main/java/adsen/scarpet/interpreter/parser/Expression.java:349 | the rebound value carries the new variable name |
| Values.BoolOf | src/main/java/adsen/scarpet/interpreter/parser/value/BooleanValue.java:14-32 | `of(b)` is numeric with payload 1 or 0, is truthy exactly when `b`, prints as true/false and has type "bool" |
| Values.BoolHash | src/main/java/adsen/scarpet/interpreter/parser/value/BooleanValue.java:40-42 | true hashes to 1231 and false to 1237 |
| Values.StringOf | src/main/java/adsen/scarpet/interpreter/parser/value/StringValue.java:7-35 | a string value prints as its text, is truthy exactly when non-empty, has type "string" and clones to itself |
| Values.MakeGlobal | src/main/java/adsen/scarpet/interpreter/parser/value/GlobalValue.java:5-28 | construction succeeds exactly for an assignable value; the marker prints as the variable name, is never truthy and has type "global variable" |
| Values.MakeSignature | src/main/java/adsen/scarpet/interpreter/parser/value/FunctionSignatureValue.java:14-41 | keeps name, arguments and globals; printing, truth, cloning and type queries all throw the errors the class throws |
| Values.LowerAsciiIdempotent | src/main/java/adsen/scarpet/interpreter/parser/Expression.java:263 | lower-casing a built-in's name twice gives the same key as once |
| Values.IntRoundTrip | src/main/java/adsen/scarpet/interpreter/parser/value/NumericValue.java:64-71 | the decimal rendering of an integer parses back to the same integer |
| Values.StrCompare | src/main/java/adsen/scarpet/interpreter/parser/value/NumericValue.java:140-149 | string comparison returns -1, 0 or 1, and 0 exactly for equal strings |
| Values.Compare | src/main/java/adsen/scarpet/interpreter/parser/value/NullValue.java:39-42 | null sorts before every non-null value and equals null; numeric values compare by the sign of the payload difference |
| Values.Equal | src/main/java/adsen/scarpet/interpreter/parser/value/NullValue.java:34-37 | a null equals exactly another null |
| Values.NullSortsFirst | src/main/java/adsen/scarpet/interpreter/parser/value/NullValue.java:39-42 | nothing compares below null, only null compares equal to it, and numbers compare above it symmetrically |
| Values.CompareAntisymmetric | src/main/java/adsen/scarpet/interpreter/parser/value/NumericValue.java:140-149 | comparing b with a gives the negation of comparing a with b |
| Tokens.MorphedInto | src/main/java/adsen/scarpet/interpreter/parser/Tokenizer.java:353-366 | the new token has the requested type and text at the old token's position, line and column |
| Registry.PrecedenceOrder | src/main/java/adsen/scarpet/interpreter/parser/language/Operators.java:21-36 | the groups are in strictly decreasing precedence down to `;` at 0, and the table has no `assign=<>` key |
| Registry.LookupLatest | src/main/java/adsen/scarpet/interpreter/parser/Expression.java:252-260 | a map filled by successive puts answers with the last put of a key |
| Registry.Unbox | src/main/java/adsen/scarpet/interpreter/parser/language/Operators.java:38-212 | unboxing a group's precedence succeeds exactly when the group is in the table or a fallback is given, and otherwise throws NullPointerException |
| Registry.Register | src/main/java/adsen/scarpet/interpreter/parser/language/Operators.java:38-212 | a registration that succeeds registers one entry per put |
| Registry.MissingGroupCrashes | src/main/java/adsen/scarpet/interpreter/parser/language/Operators.java:38-212 | one put naming a group missing from the table makes the whole registration throw |
| Registry.AssignmentRegistrationCrashes | src/main/java/adsen/scarpet/interpreter/parser/language/Operators.java:91-152 | as written, `=`, `+=` and `<>` look up `assign=<>`, so registering the operators always throws NullPointerException |
| Registry.RegisterWithFallback | src/main/java/adsen/scarpet/interpreter/parser/language/Operators.java:38-212 | with a precedence for the missing group, registration succeeds and entry i is put i with its group's precedence |
| Registry.LookupRegistered | src/main/java/adsen/scarpet/interpreter/parser/Expression.java:171-173 | looking up a key in the registered table finds the registration of the last put of that key |
| Registry.CorrectedRegistration | src/main/java/adsen/scarpet/interpreter/parser/language/Operators.java:21-212 | with `assign=<>` supplied, registration succeeds and builds exactly the operator table the parser consults |
| Registry.XorReplacesExponent | src/main/java/adsen/scarpet/interpreter/parser/language/Operators.java:45-56 | `^` ends up with the bit-xor precedence, not the exponent one, because the later put wins |
| Registry.ArithmeticPrecedences | src/main/java/adsen/scarpet/interpreter/parser/language/Operators.java:39-42 | `+`, `-` and `*` take their group's precedence and associate to the left |
| Registry.UnaryPrecedence | src/main/java/adsen/scarpet/interpreter/parser/Expression.java:243-250 | unary minus has the `unary+-!` precedence, the highest in the table |
| Registry.ComparisonPrecedences | src/main/java/adsen/scarpet/interpreter/parser/language/Operators.java:84-89 | `<=` and `!=` take the compare and equality precedences |
| Registry.LogicPrecedences | src/main/java/adsen/scarpet/interpreter/parser/language/Operators.java:60-74 | `&&` and `||` take the and/or precedences |
| Registry.SequencePrecedences | src/main/java/adsen/scarpet/interpreter/parser/language/Operators.java:91-211 | `;` is loosest and left-associative, `->` is just above it, and `=` takes the assignment precedence |
| Registry.ControlFlowArities | src/main/java/adsen/scarpet/interpreter/parser/language/FunctionsAndControlFlow.java:130-199 | `.`, `try` and `if` take any number of arguments, `outer` takes one |
| Registry.LoopArities | src/main/java/adsen/scarpet/interpreter/parser/language/LoopsAndHigherOrderFunctions.java:173-428 | `while` and `reduce` take three arguments, `first` and `all` take two |
| Ast.ResolveBinary | src/main/java/adsen/scarpet/interpreter/parser/Expression.java:563-567 | an operator surface with no dedicated case keeps its surface, so evaluation can still report it |
| Ast.ResolveBuiltin | src/main/java/adsen/scarpet/interpreter/parser/Expression.java:578-590 | a registered name with no dedicated case keeps its name |
| Ast.MakeUdf | src/main/java/adsen/scarpet/interpreter/parser/UserDefinedFunction.java:10-27 | the function keeps its arguments, globals, body, name and token, and its fixed parameter count is the number of arguments |
| Scope.SetVariable | src/main/java/adsen/scarpet/interpreter/parser/Context.java:42-48 | a `global_` name changes only the host's global table; any other name changes only the locals |
| Scope.DelVariable | src/main/java/adsen/scarpet/interpreter/parser/Context.java:56-62 | a `global_` name is removed from the host's globals only; any other name from the locals only |
| Scope.With | src/main/java/adsen/scarpet/interpreter/parser/Context.java:72-75 | binding with `with` never touches the host |
| Scope.Recreate | src/main/java/adsen/scarpet/interpreter/parser/Context.java:81-83 | a recreated frame shares the host and has no locals |
| Scope.AllVariableNames | src/main/java/adsen/scarpet/interpreter/parser/Context.java:77-79 | the names are exactly the local names |
| Scope.SetThenGet | src/main/java/adsen/scarpet/interpreter/parser/Context.java:35-53 | a name that was set reads back as the value set (unless a local binding hides a `global_` entry), and is then a variable |
| Scope.SetKeepsOthers | src/main/java/adsen/scarpet/interpreter/parser/Context.java:35-53 | setting one name leaves every other name's binding and existence unchanged |
| Scope.DeleteThenGet | src/main/java/adsen/scarpet/interpreter/parser/Context.java:35-62 | after deleting a local name, reads fall through to the host global; after deleting an unshadowed `global_` name, nothing is left |
| Scope.WithThenGet | src/main/java/adsen/scarpet/interpreter/parser/Context.java:35-79 | `with` makes the binding visible under any name and adds exactly that name to the local names |
| Scope.RecreateSeesGlobals | src/main/java/adsen/scarpet/interpreter/parser/Context.java:35-83 | a recreated frame sees exactly the host's global variables |
| Arith.WrapLong | src/main/java/adsen/scarpet/interpreter/parser/language/Arithmetic.java:92-97 | a Java `long` result lies in the 64-bit range and is the exact value whenever that fits |
| Arith.WrapShift | src/main/java/adsen/scarpet/interpreter/parser/language/Arithmetic.java:95 | wrapping ignores whole multiples of 2^64 |
| Arith.WrapTimes | src/main/java/adsen/scarpet/interpreter/parser/language/Arithmetic.java:95 | multiplying an already wrapped product wraps like multiplying the exact product |
| Arith.FactStep | src/main/java/adsen/scarpet/interpreter/parser/language/Arithmetic.java:94-96 | one loop step turns the wrapped (i-1)! into the wrapped i! |
| Arith.MulLong | src/main/java/adsen/scarpet/interpreter/parser/language/Arithmetic.java:95 | `factorial * i` yields the wrapped i! |
| Arith.AsNumber | src/main/java/adsen/scarpet/interpreter/parser/value/NumericValue.java:43-55 | succeeds exactly on numeric values (null, booleans, numbers) and yields their payload |
| Arith.Not | src/main/java/adsen/scarpet/interpreter/parser/language/Arithmetic.java:88 | `not` succeeds exactly when the argument has a truth value, and returns the boolean opposite of it |
| Arith.FactOf | src/main/java/adsen/scarpet/interpreter/parser/language/Arithmetic.java:90-98 | there is no result exactly when the argument is at or above `Integer.MAX_VALUE`, where the `int` counter wraps before passing it; a result that exists is a 64-bit value |
| Arith.FactBoundary | src/main/java/adsen/scarpet/interpreter/parser/language/Arithmetic.java:94 | `Integer.MAX_VALUE` is the first argument whose loop never ends: one below it still gives a result |
| Arith.FactExactUpTo20 | src/main/java/adsen/scarpet/interpreter/parser/language/Arithmetic.java:90-98 | 20! is exact, 21! wraps to a negative number, and 0 or a negative argument gives 1 |
| Arith.Fact | src/main/java/adsen/scarpet/interpreter/parser/language/Arithmetic.java:90-98 | the loop ends exactly when the argument fits an `int` below `Integer.MAX_VALUE`, and then returns the factorial wrapped to 64 bits |
| Arith.MaxFrom | src/main/java/adsen/scarpet/interpreter/parser/language/Arithmetic.java:160-162 | the kept index never moves backwards and stays in the list |
| Arith.MinFrom | src/main/java/adsen/scarpet/interpreter/parser/language/Arithmetic.java:173-175 | the kept index never moves backwards and stays in the list |
| Arith.Candidates | src/main/java/adsen/scarpet/interpreter/parser/language/Arithmetic.java:158-159 | a single list argument stands for its items; otherwise the arguments are the candidates |
| Arith.MaxFromKeepsMaximum | src/main/java/adsen/scarpet/interpreter/parser/language/Arithmetic.java:160-162 | no element after the kept one compares strictly greater than it |
| Arith.MinFromKeepsMinimum | src/main/java/adsen/scarpet/interpreter/parser/language/Arithmetic.java:173-175 | no element after the kept one compares strictly less than it |
| Arith.MaxOfOne | src/main/java/adsen/scarpet/interpreter/parser/language/Arithmetic.java:153-164 | `max` of one non-list value, or of a one-element list, is that value |
| Arith.Max | src/main/java/adsen/scarpet/interpreter/parser/language/Arithmetic.java:153-164 | the loop of `max` computes the specification: an error for no arguments, no value for an empty list, otherwise the kept element |
| Arith.Min | src/main/java/adsen/scarpet/interpreter/parser/language/Arithmetic.java:166-177 | the loop of `min` computes the specification |
| Arith.MaxSpec | src/main/java/adsen/scarpet/interpreter/parser/language/Arithmetic.java:153-164 | `max` as a function of its arguments: an error for none, nothing for an empty list, otherwise the kept element; Arith.Max runs it with a loop and Arith.MaxFromKeepsMaximum states that no element after the kept one compares strictly greater than it |
| Arith.MinSpec | src/main/java/adsen/scarpet/interpreter/parser/language/Arithmetic.java:166-177 | `min` as a function of its arguments, the mirror of `max`; Arith.Min runs it with a loop and Arith.MinFromKeepsMinimum states that no element after the kept one compares strictly less than it |
| Arith.Relu | src/main/java/adsen/scarpet/interpreter/parser/language/Arithmetic.java:179 | `relu` succeeds when comparison with ZERO does, gives ZERO exactly for values below it, and otherwise the value itself |
| Arith.ReluOfNumbers | src/main/java/adsen/scarpet/interpreter/parser/language/Arithmetic.java:179 | negative numbers become ZERO; other numbers are returned unchanged |
| SysFuncs.BoolFn | src/main/java/adsen/scarpet/interpreter/parser/language/SystemFunctions.java:30-40 | the strings "false" and "null" in any letter case give FALSE; otherwise the result is the number 1 or 0 for the argument's truth; it fails exactly on a function signature |
| SysFuncs.BoolOfWords | src/main/java/adsen/scarpet/interpreter/parser/language/SystemFunctions.java:30-40 | "FALSE" and "Null" are FALSE, "no" is 1 and the empty string is 0 |
| SysFuncs.ReadNumber | src/main/java/adsen/scarpet/interpreter/parser/language/SystemFunctions.java:44 | decimal integer text reads as its value, text without a numeral as NaN, and a read that succeeds is one of these two |
| SysFuncs.NumberFn | src/main/java/adsen/scarpet/interpreter/parser/language/SystemFunctions.java:41-48 | a numeric argument is returned unchanged, decimal integer text gives its number, text without a numeral gives NULL, and any other text is outside the model |
| SysFuncs.NumberOfWords | src/main/java/adsen/scarpet/interpreter/parser/language/SystemFunctions.java:41-48 | `abc` and the empty text give NULL, `-12` gives -12, while `+5` and `1.5` are left to the `double` parse |
| SysFuncs.NumberOfRendered | src/main/java/adsen/scarpet/interpreter/parser/language/SystemFunctions.java:41-48 | `number` of an integer's decimal text is that integer |
| SysFuncs.SkipWhile | src/main/java/adsen/scarpet/interpreter/parser/language/SystemFunctions.java:22 | a greedy regex run: the longest stretch from `i` whose characters all match |
| SysFuncs.MatchAt | src/main/java/adsen/scarpet/interpreter/parser/language/SystemFunctions.java:22 | a format specifier matched at a `%` starts there, ends after its conversion character, and the conversion is a letter or `%` |
| SysFuncs.Find | src/main/java/adsen/scarpet/interpreter/parser/language/SystemFunctions.java:22 | `Matcher.find(i)` finds a specifier of at least two characters at or after `i` |
| SysFuncs.StrCheckCounts | src/main/java/adsen/scarpet/interpreter/parser/language/SystemFunctions.java:63-101 | the checks of `str` pass exactly when every conversion is supported and the arguments cover every consuming specifier |
| SysFuncs.StrCheck | src/main/java/adsen/scarpet/interpreter/parser/language/SystemFunctions.java:63-101 | the checks `str` makes before formatting, specifier by specifier, whose outcome SysFuncs.StrCheckCounts states |
| SysFuncs.SpecifierExamples | src/main/java/adsen/scarpet/interpreter/parser/language/SystemFunctions.java:63-101 | `%d%%` consumes one argument and `%q` is refused as "format not supported: q" |
| SysFuncs.BackslashIsNoFlag | src/main/java/adsen/scarpet/interpreter/parser/language/SystemFunctions.java:22 | the flag class holds no backslash: `%\s` is not a specifier, and in `%\s %d` only `%d` counts |
| SysFuncs.CheckFormat | src/main/java/adsen/scarpet/interpreter/parser/language/SystemFunctions.java:56-101 | the checking loop of `str` with its argument cursor computes the recursive check |
| SysFuncs.StrFn | src/main/java/adsen/scarpet/interpreter/parser/language/SystemFunctions.java:49-60 | no arguments is an error; a lone format is returned as a string unchanged |
| SysFuncs.StripStars | src/main/java/adsen/scarpet/interpreter/parser/language/SystemFunctions.java:160 | removing trailing stars keeps a prefix of the name that does not end in `*` and removes only stars |
| SysFuncs.TwoMatchesThrow | src/main/java/adsen/scarpet/interpreter/parser/language/SystemFunctions.java:161-166 | as written, two keys matching the prefix make the removal loop throw ConcurrentModificationException, whatever the iteration order |
| SysFuncs.WithoutPrefix | src/main/java/adsen/scarpet/interpreter/parser/language/SystemFunctions.java:161-166 | every key with the prefix is removed, and every other key keeps its value |
| SysFuncs.Undef | src/main/java/adsen/scarpet/interpreter/parser/language/SystemFunctions.java:154-173 | a name starting with `_` is refused; `name*` drops every user function and host global with that prefix and then the bare name; a plain name drops that function and that variable, and nothing else changes |
| SysFuncs.StrLeTransitive | src/main/java/adsen/scarpet/interpreter/parser/value/NumericValue.java:148 | the `String.compareTo` order that values fall back to when compared by their text is transitive |
| SysFuncs.StrLeTotal | src/main/java/adsen/scarpet/interpreter/parser/value/NumericValue.java:148 | that text order is total, and two texts ordered both ways are equal |
| SysFuncs.StrLeAntisymmetric | src/main/java/adsen/scarpet/interpreter/parser/value/NumericValue.java:148 | two texts ordered both ways by `String.compareTo` are equal |
| SysFuncs.VarsNames | src/main/java/adsen/scarpet/interpreter/parser/language/SystemFunctions.java:176-189 | a prefix starting "global" selects host globals with that prefix; otherwise the local names with that prefix |
| SysFuncs.Vars | src/main/java/adsen/scarpet/interpreter/parser/language/SystemFunctions.java:176-192 | `vars` returns a plain list holding exactly one string per selected name |
| Interp.Located | src/main/java/adsen/scarpet/interpreter/parser/Expression.java:306-320 | an InternalExpressionException thrown inside a lazy built-in becomes an ExpressionException with the same text; every other outcome and the frame pass through |
| Interp.HexDigitValue | src/main/java/adsen/scarpet/interpreter/parser/Expression.java:612 | a hex digit's value is between 0 and 15 |
| Interp.HexValue | src/main/java/adsen/scarpet/interpreter/parser/Expression.java:612 | a hex literal that parses has a non-negative value |
| Interp.HexExamples | src/main/java/adsen/scarpet/interpreter/parser/Expression.java:612 | `0xff` is 255, and `0x` with no digits throws NumberFormatException |
| Interp.NumberLiteral | src/main/java/adsen/scarpet/interpreter/parser/Expression.java:603-610 | an integer numeral evaluates to its number |
| Interp.AutoVivify | src/main/java/adsen/scarpet/interpreter/parser/Expression.java:569-577 | reading an unknown variable first binds it to zero under its own name; a known variable is left as it is |
| Interp.EvalArgs | src/main/java/adsen/scarpet/interpreter/parser/Expression.java:285-295 | evaluating arguments from `i` on appends one value per argument after those already evaluated |
| Interp.Add | src/main/java/adsen/scarpet/interpreter/parser/language/Operators.java:39 | `+` on numeric values adds their payloads |
| Interp.Names | src/main/java/adsen/scarpet/interpreter/parser/language/Operators.java:100 | the names of unpacked values exist exactly when every value is bound to a variable, and are those variables in order |
| Interp.UnpackCheck | src/main/java/adsen/scarpet/interpreter/parser/language/Operators.java:98-99 | unpacking succeeds exactly when both lists have the same length |
| Interp.AddContextFunction | src/main/java/adsen/scarpet/interpreter/parser/Expression.java:322-334 | defining a function fails exactly when its lower-cased name is a built-in, with the masking message; otherwise only the host's function table changes, gaining that function |
| Interp.OuterBinding | src/main/java/adsen/scarpet/interpreter/parser/Expression.java:347-353 | an outer name gets the caller's binding when there is one, and otherwise a zero renamed to it; never nothing |
| Interp.CopyIn | src/main/java/adsen/scarpet/interpreter/parser/Expression.java:346-354 | copying outer names into the new frame leaves the caller's locals alone; InterpFacts.CopyInBinds states what each name is bound to |
| Interp.CopyBack | src/main/java/adsen/scarpet/interpreter/parser/Expression.java:374-379 | copying outer names back leaves the callee's locals alone; InterpFacts.CopyBackSets states what the caller then sees |
| Interp.BindElement | src/main/java/adsen/scarpet/interpreter/parser/language/LoopsAndHigherOrderFunctions.java:244-249 | binding `_` and `_i` for an element leaves the host tables alone |
| Interp.ExitCondition | src/main/java/adsen/scarpet/interpreter/parser/language/LoopsAndHigherOrderFunctions.java:251-254 | the loop stops only after an exit condition that evaluated to a value |
| Interp.Restore | src/main/java/adsen/scarpet/interpreter/parser/language/LoopsAndHigherOrderFunctions.java:259-261 | putting the saved variables back keeps the loop's outcome, and changes nothing when the loop did not complete |
| Interp.ListArg | src/main/java/adsen/scarpet/interpreter/parser/language/LoopsAndHigherOrderFunctions.java:231-235 | the list argument is accepted exactly when it is a list, and yields its items |
| Interp.OptionalArg | src/main/java/adsen/scarpet/interpreter/parser/language/LoopsAndHigherOrderFunctions.java:237-238 | an optional argument is present exactly when the call supplied it |
| Interp.Eval | src/main/java/adsen/scarpet/interpreter/parser/Expression.java:552-617 | running a compiled thunk with a depth budget: no depth left is a stack overflow (InterpFacts.NoFuelOverflows), otherwise the node's thunk runs |
| Interp.EvalNode | src/main/java/adsen/scarpet/interpreter/parser/Expression.java:555-616 | each kind of tree node runs the thunk `getAST` builds for its token: literals, strings, variables (auto-vivified), operators and calls |
| Interp.EvalUnary | src/main/java/adsen/scarpet/interpreter/parser/language/Operators.java:188-192 | unary `-` and `+` on the operand's number, and `!` as the negated truth of the operand inside the lazy adaptor |
| Interp.EvalBinary | src/main/java/adsen/scarpet/interpreter/parser/language/Operators.java:39-211 | the binary operators: `&&` and `||` short-circuit (InterpFacts.ShortCircuitStops), `;` runs its left side for effect and then its right, `->` defines, the assignments bind, and the eager operators apply to both values left to right |
| Interp.ShortCircuit | src/main/java/adsen/scarpet/interpreter/parser/language/Operators.java:60-74 | the second half of `&&` and `||`, whose results InterpFacts.ShortCircuitStops and InterpFacts.ShortCircuitContinues state |
| Interp.Assignment | src/main/java/adsen/scarpet/interpreter/parser/language/Operators.java:91-185 | `=`, `+=` and `<>` on their two values, whose effects InterpFacts.AssignBinds, Destructures, SwapExchanges and AddAssignAppends state |
| Interp.Define | src/main/java/adsen/scarpet/interpreter/parser/language/Operators.java:201-211 | `->` defines a user function when its left side is a signature and otherwise binds the body to the variable, returning `OK` |
| Interp.CallUdf | src/main/java/adsen/scarpet/interpreter/parser/Expression.java:336-385 | a user function call, whose arity check, unwinding and effect on the caller's variables InterpFacts.CallArityChecked, InterpFacts.ReturnEndsCall and InterpFacts.CallCopiesBack state |
| Interp.CallDot | src/main/java/adsen/scarpet/interpreter/parser/language/FunctionsAndControlFlow.java:130-145 | the `.` handler calls the user function named by its last argument, failing with "Function ... is not defined yet" when there is none |
| Interp.SignatureOf | src/main/java/adsen/scarpet/interpreter/parser/language/FunctionsAndControlFlow.java:147-162 | in a signature every argument must evaluate to a bound variable; `outer` ones become the globals, the rest the positional names |
| Interp.TryCall | src/main/java/adsen/scarpet/interpreter/parser/language/FunctionsAndControlFlow.java:180-196 | `try`, whose outcomes InterpFacts.TryAbsorbsThrow and InterpFacts.TryRestoresUnderscore state |
| Interp.IfFrom | src/main/java/adsen/scarpet/interpreter/parser/language/FunctionsAndControlFlow.java:199-215 | `if` evaluates conditions in turn and runs the branch of the first truthy one, else the default, else 0 |
| Interp.WhileFrom | src/main/java/adsen/scarpet/interpreter/parser/language/LoopsAndHigherOrderFunctions.java:183-188 | the `while` rounds, whose result LoopFacts.WhileGivesLast states |
| Interp.LoopFrom | src/main/java/adsen/scarpet/interpreter/parser/language/LoopsAndHigherOrderFunctions.java:210-216 | the `loop` rounds, whose result LoopFacts.LoopGivesLast states |
| Interp.MapFrom | src/main/java/adsen/scarpet/interpreter/parser/language/LoopsAndHigherOrderFunctions.java:243-256 | the `map` steps, whose result LoopFacts.MapGivesValues states |
| Interp.FilterFrom | src/main/java/adsen/scarpet/interpreter/parser/language/LoopsAndHigherOrderFunctions.java:285-299 | the `filter` steps, whose result LoopFacts.FilterKeepsTruthy states |
| Interp.FirstFrom | src/main/java/adsen/scarpet/interpreter/parser/language/LoopsAndHigherOrderFunctions.java:323-336 | the `first` steps, whose result LoopFacts.FirstGivesHit and LoopFacts.FirstGivesNull state |
| Interp.AllFrom | src/main/java/adsen/scarpet/interpreter/parser/language/LoopsAndHigherOrderFunctions.java:359-372 | the `all` steps, whose result LoopFacts.AllGivesMiss and LoopFacts.AllGivesTrue state |
| Interp.ForFrom | src/main/java/adsen/scarpet/interpreter/parser/language/LoopsAndHigherOrderFunctions.java:400-414 | the `for` steps, whose result LoopFacts.ForCountsTruthy states |
| Interp.ReduceFrom | src/main/java/adsen/scarpet/interpreter/parser/language/LoopsAndHigherOrderFunctions.java:447-456 | the `reduce` steps, whose result LoopFacts.ReduceGivesLast states |
| Interp.WhileCall | src/main/java/adsen/scarpet/interpreter/parser/language/LoopsAndHigherOrderFunctions.java:173-193 | `while` with its argument checks, whose result LoopFacts.WhileCallResult states |
| Interp.LoopCall | src/main/java/adsen/scarpet/interpreter/parser/language/LoopsAndHigherOrderFunctions.java:198-221 | `loop` with its argument checks, whose result LoopFacts.LoopCallResult states |
| Interp.ElementCall | src/main/java/adsen/scarpet/interpreter/parser/language/LoopsAndHigherOrderFunctions.java:225-421 | the argument-count checks of `map`, `filter`, `first`, `all` and `for`, before the list is evaluated and the loop runs with `_` and `_i` saved and put back, as InterpFacts.ElementLoopRestores states |
| Interp.ReduceCall | src/main/java/adsen/scarpet/interpreter/parser/language/LoopsAndHigherOrderFunctions.java:428-464 | `reduce` with its argument checks, whose result LoopFacts.ReduceCallResult and InterpFacts.ReduceOfEmpty state |
| Interp.ApplyEager | src/main/java/adsen/scarpet/interpreter/parser/language/FunctionsAndControlFlow.java:170-178 | the eager built-ins on their evaluated arguments: `exit`, `return` and `throw` unwind with their argument or NULL, and the others give their value or error |
| Interp.EvalCall | src/main/java/adsen/scarpet/interpreter/parser/Expression.java:578-601 | a call node: eager built-ins evaluate their arguments left to right first, lazy ones run in the adaptor that turns internal errors into expression errors |
| Interp.EvalValue | src/main/java/adsen/scarpet/interpreter/parser/Expression.java:149-161 | the top-level outcome of a program, which InterpFacts.EvalValueOutcomes states |
| InterpFacts.SetKeepsNoShadow | src/main/java/adsen/scarpet/interpreter/parser/Context.java:42-48 | with no local hiding a `global_` name, setting keeps that so and reads back the value set |
| InterpFacts.ShortCircuitStops | src/main/java/adsen/scarpet/interpreter/parser/language/Operators.java:60-74 | `&&` stops at a falsy left operand and `||` at a truthy one, giving it back without evaluating the right operand |
| InterpFacts.ShortCircuitContinues | src/main/java/adsen/scarpet/interpreter/parser/language/Operators.java:60-74 | otherwise the result is the right operand when it is truthy and FALSE when it is not, so it is truthy exactly when the right operand is |
| InterpFacts.NotEqualsNegates | src/main/java/adsen/scarpet/interpreter/parser/language/Operators.java:86-89 | `!=` fails exactly when `==` does, and otherwise is its negation |
| InterpFacts.ComparisonsMirror | src/main/java/adsen/scarpet/interpreter/parser/language/Operators.java:78-85 | `a < b` is `b > a` and `a <= b` is `b >= a` on non-null values |
| InterpFacts.AssignBinds | src/main/java/adsen/scarpet/interpreter/parser/language/Operators.java:110-115 | `=` binds the variable to the value renamed to it and returns that copy |
| InterpFacts.BindAllBinds | src/main/java/adsen/scarpet/interpreter/parser/language/Operators.java:101-107 | destructuring binds each distinct name to its value renamed to it and leaves every other name unchanged |
| InterpFacts.Destructures | src/main/java/adsen/scarpet/interpreter/parser/language/Operators.java:95-109 | `[a, b] = list` throws "Too many values to unpack" or "Too few values to unpack" on a length mismatch; otherwise it binds each name to its value and returns true |
| InterpFacts.SwapExchanges | src/main/java/adsen/scarpet/interpreter/parser/language/Operators.java:177-185 | `a <> b` exchanges the two values, each renamed to its new name, and returns the new left value |
| InterpFacts.AddAssignAppends | src/main/java/adsen/scarpet/interpreter/parser/language/Operators.java:138-149 | `list += x` appends `x` to the list bound to the variable and returns it |
| InterpFacts.RestorePutsBack | src/main/java/adsen/scarpet/interpreter/parser/language/LoopsAndHigherOrderFunctions.java:259-261 | putting saved bindings back restores each of the distinct names and leaves every other name unchanged |
| InterpFacts.ElementLoopRestores | src/main/java/adsen/scarpet/interpreter/parser/language/LoopsAndHigherOrderFunctions.java:225-421 | after `map`, `filter`, `first`, `all` or `for` completes, `_` and `_i` are bound as they were before the loop |
| InterpFacts.ReduceOfEmpty | src/main/java/adsen/scarpet/interpreter/parser/language/LoopsAndHigherOrderFunctions.java:428-441 | `reduce` over an empty list returns the initial value and changes no variable |
| InterpFacts.TryRestoresUnderscore | src/main/java/adsen/scarpet/interpreter/parser/language/FunctionsAndControlFlow.java:180-196 | when the body throws and the handler completes, the handler's value is the result and `_` is put back |
| InterpFacts.TryAbsorbsThrow | src/main/java/adsen/scarpet/interpreter/parser/language/FunctionsAndControlFlow.java:180-189 | `try(expr)` turns a throw into NULL and lets every other outcome through |
| InterpFacts.CallArityChecked | src/main/java/adsen/scarpet/interpreter/parser/Expression.java:337-343 | a call with the wrong number of arguments fails with the arity message before anything is evaluated |
| InterpFacts.CopyInBinds | src/main/java/adsen/scarpet/interpreter/parser/Expression.java:346-354 | after the copy each outer name holds, in the callee, the caller's binding or a zero renamed to it, and every other name keeps its callee binding |
| InterpFacts.CopyInKeeps | src/main/java/adsen/scarpet/interpreter/parser/Expression.java:346-354 | a name bound in the callee stays bound through the copy |
| InterpFacts.ReturnEndsCall | src/main/java/adsen/scarpet/interpreter/parser/Expression.java:360-384 | a `return` or a completed body ends the call with its value; an exit or a throw unwinds past the call; an internal error is re-raised as an ExpressionException |
| InterpFacts.CopyBackSets | src/main/java/adsen/scarpet/interpreter/parser/Expression.java:374-379 | after the copy back each outer name the callee holds is bound in the caller to the callee's binding, every other name keeps the caller's binding, and the callee's view is unchanged |
| InterpFacts.CallCopiesBack | src/main/java/adsen/scarpet/interpreter/parser/language/FunctionsAndControlFlow.java:68-82 | when the body completes, returns or throws, each outer name it leaves bound reaches the caller with that binding and no other callee name does; an exit or an error leaves the caller's frame as the arguments left it |
| InterpFacts.EvalValueOutcomes | src/main/java/adsen/scarpet/interpreter/parser/Expression.java:149-161 | at the top level an exit gives its value, a stack overflow is "Your thoughts are too deep", and an internal error gets the "result is incorrect" prefix |
| InterpFacts.NoFuelOverflows | src/main/java/adsen/scarpet/interpreter/parser/Expression.java:154-155 | evaluating with no depth left is a stack overflow |
| Loops.EvalIn | src/main/java/adsen/scarpet/interpreter/parser/Context.java:17-18 | evaluating a thunk in a context leaves it exactly as the interpreter's evaluation does, on the same host |
| Loops.While | src/main/java/adsen/scarpet/interpreter/parser/language/LoopsAndHigherOrderFunctions.java:173-193 | the `while` loop, run in place on the context, yields `Interp.WhileCall`'s result and bindings: the last body value or NULL with `_` counting rounds and put back after (LoopFacts.WhileCallResult) |
| Loops.Loop | src/main/java/adsen/scarpet/interpreter/parser/language/LoopsAndHigherOrderFunctions.java:198-221 | the `loop` loop, run in place, yields `Interp.LoopCall`'s result and bindings: the last body value or NULL with `_` the round number and put back after (LoopFacts.LoopCallResult) |
| Loops.BindNext | src/main/java/adsen/scarpet/interpreter/parser/language/LoopsAndHigherOrderFunctions.java:244-249 | binding `_` and `_i` in place gives the frame the interpreter binds |
| Loops.Exit | src/main/java/adsen/scarpet/interpreter/parser/language/LoopsAndHigherOrderFunctions.java:251-254 | evaluating the exit condition in place agrees with the interpreter, including whether to stop |
| Loops.MapLoop | src/main/java/adsen/scarpet/interpreter/parser/language/LoopsAndHigherOrderFunctions.java:242-256 | the `map` loop, run in place, yields `Interp.MapFrom`'s outcome: the expression's value for each visited element, in order (LoopFacts.MapGivesValues) |
| Loops.FilterLoop | src/main/java/adsen/scarpet/interpreter/parser/language/LoopsAndHigherOrderFunctions.java:284-299 | the `filter` loop, run in place, yields `Interp.FilterFrom`'s outcome: exactly the elements whose value is truthy (LoopFacts.FilterKeepsTruthy) |
| Loops.FirstLoop | src/main/java/adsen/scarpet/interpreter/parser/language/LoopsAndHigherOrderFunctions.java:322-336 | the `first` loop, run in place, yields `Interp.FirstFrom`'s outcome: the element of the first truthy value, else NULL (LoopFacts.FirstGivesHit, LoopFacts.FirstGivesNull) |
| Loops.AllLoop | src/main/java/adsen/scarpet/interpreter/parser/language/LoopsAndHigherOrderFunctions.java:358-372 | the `all` loop, run in place, yields `Interp.AllFrom`'s outcome: FALSE at the first falsy value, else TRUE (LoopFacts.AllGivesMiss, LoopFacts.AllGivesTrue) |
| Loops.ForLoop | src/main/java/adsen/scarpet/interpreter/parser/language/LoopsAndHigherOrderFunctions.java:399-414 | the `for` loop, run in place, yields `Interp.ForFrom`'s outcome: the number of truthy values (LoopFacts.ForCountsTruthy) |
| Loops.ElementLoopOf | src/main/java/adsen/scarpet/interpreter/parser/language/LoopsAndHigherOrderFunctions.java:225-421 | the loop of each element built-in, run in place, agrees with the interpreter |
| Loops.SearchOrForLoop | src/main/java/adsen/scarpet/interpreter/parser/language/LoopsAndHigherOrderFunctions.java:311-421 | the loops of `first`, `all` and `for`, run in place, agree with the interpreter |
| Loops.Elements | src/main/java/adsen/scarpet/interpreter/parser/language/LoopsAndHigherOrderFunctions.java:225-421 | the argument-count check, list evaluation, loop and restore of each element built-in agree with the interpreter |
| Loops.ElementsOnList | src/main/java/adsen/scarpet/interpreter/parser/language/LoopsAndHigherOrderFunctions.java:231-262 | evaluating the list, looping and putting `_` and `_i` back agree with the interpreter |
| Loops.PutBack | src/main/java/adsen/scarpet/interpreter/parser/language/LoopsAndHigherOrderFunctions.java:259-261 | putting the saved bindings back in place agrees with the interpreter's restore |
| Loops.Reduce | src/main/java/adsen/scarpet/interpreter/parser/language/LoopsAndHigherOrderFunctions.java:428-464 | `reduce`, run in place with `_a` and `_`, yields `Interp.ReduceCall`'s result and bindings: the last step's value with `_a` and `_` put back (LoopFacts.ReduceCallResult) |
| LoopFacts.Visit | src/main/java/adsen/scarpet/interpreter/parser/language/LoopsAndHigherOrderFunctions.java:243-256 | an element loop visits at most the remaining elements, evaluating the expression once per element it completes, and every element when there is no exit condition and nothing unwinds |
| LoopFacts.VisitBinds | src/main/java/adsen/scarpet/interpreter/parser/language/LoopsAndHigherOrderFunctions.java:246-249 | at the `j`-th step of an element loop, `_` is element `i + j` renamed `_` and `_i` is its index |
| LoopFacts.VisitComputes | src/main/java/adsen/scarpet/interpreter/parser/language/LoopsAndHigherOrderFunctions.java:250 | the value recorded at each step is what the expression evaluates to in that step's frame |
| LoopFacts.MapGivesValues | src/main/java/adsen/scarpet/interpreter/parser/language/LoopsAndHigherOrderFunctions.java:243-256 | `map` returns the list of the expression's values, one per visited element in order, or the first unwinding outcome unchanged |
| LoopFacts.Kept | src/main/java/adsen/scarpet/interpreter/parser/language/LoopsAndHigherOrderFunctions.java:294-296 | the elements kept are as many as the truthy values |
| LoopFacts.KeptFromItems | src/main/java/adsen/scarpet/interpreter/parser/language/LoopsAndHigherOrderFunctions.java:294-296 | every kept element is an element of the list |
| LoopFacts.FilterCompletes | src/main/java/adsen/scarpet/interpreter/parser/language/LoopsAndHigherOrderFunctions.java:285-299 | `filter` completes exactly when no step unwinds and every value has a truth value |
| LoopFacts.FilterKeepsTruthy | src/main/java/adsen/scarpet/interpreter/parser/language/LoopsAndHigherOrderFunctions.java:285-299 | a completed `filter` returns exactly the elements, in order, whose expression value is truthy |
| LoopFacts.ForCompletes | src/main/java/adsen/scarpet/interpreter/parser/language/LoopsAndHigherOrderFunctions.java:400-414 | `for` completes exactly when no step unwinds and every value has a truth value |
| LoopFacts.ForCountsTruthy | src/main/java/adsen/scarpet/interpreter/parser/language/LoopsAndHigherOrderFunctions.java:400-420 | a completed `for` returns the number of steps whose expression value is truthy |
| LoopFacts.FirstGivesHit | src/main/java/adsen/scarpet/interpreter/parser/language/LoopsAndHigherOrderFunctions.java:323-336 | when the `j`-th value is the first truthy one and every earlier one is falsy, `first` returns element `i + j` itself |
| LoopFacts.FirstGivesNull | src/main/java/adsen/scarpet/interpreter/parser/language/LoopsAndHigherOrderFunctions.java:323-342 | when every value is falsy and nothing unwinds, `first` returns NULL |
| LoopFacts.FirstOnlyThese | src/main/java/adsen/scarpet/interpreter/parser/language/LoopsAndHigherOrderFunctions.java:323-342 | `first` gives a value only in those two cases |
| LoopFacts.AllGivesMiss | src/main/java/adsen/scarpet/interpreter/parser/language/LoopsAndHigherOrderFunctions.java:359-372 | when the `j`-th value is the first falsy one and every earlier one is truthy, `all` returns FALSE |
| LoopFacts.AllGivesTrue | src/main/java/adsen/scarpet/interpreter/parser/language/LoopsAndHigherOrderFunctions.java:358-377 | when every value is truthy and nothing unwinds, `all` returns TRUE |
| LoopFacts.AllOnlyThese | src/main/java/adsen/scarpet/interpreter/parser/language/LoopsAndHigherOrderFunctions.java:358-377 | `all` gives a value only in those two cases |
| LoopFacts.WhileRounds | src/main/java/adsen/scarpet/interpreter/parser/language/LoopsAndHigherOrderFunctions.java:183-188 | `while` runs its body at most `limit - i` times, once per truthy condition |
| LoopFacts.WhileGivesLast | src/main/java/adsen/scarpet/interpreter/parser/language/LoopsAndHigherOrderFunctions.java:183-192 | `while` returns the last body value, or the initial one if the body never ran, or the first unwinding outcome unchanged |
| LoopFacts.WhileCounts | src/main/java/adsen/scarpet/interpreter/parser/language/LoopsAndHigherOrderFunctions.java:182-187 | at each condition check `_` holds the number of rounds done so far |
| LoopFacts.WhileCallResult | src/main/java/adsen/scarpet/interpreter/parser/language/LoopsAndHigherOrderFunctions.java:173-193 | `while(cond, limit, body)` runs the body at most `limit` times with `_` counting from 0, returns the last body value or NULL, and puts `_` back; an unwinding outcome passes through untouched |
| LoopFacts.LoopRounds | src/main/java/adsen/scarpet/interpreter/parser/language/LoopsAndHigherOrderFunctions.java:210-216 | `loop` runs its body at most `limit - i` times, stopping after a truthy exit condition |
| LoopFacts.LoopGivesLast | src/main/java/adsen/scarpet/interpreter/parser/language/LoopsAndHigherOrderFunctions.java:204-217 | `loop` returns the last body value, or the initial one if the body never ran, or the first unwinding outcome unchanged |
| LoopFacts.LoopCounts | src/main/java/adsen/scarpet/interpreter/parser/language/LoopsAndHigherOrderFunctions.java:211-212 | each round runs with `_` set to its round number |
| LoopFacts.LoopComputes | src/main/java/adsen/scarpet/interpreter/parser/language/LoopsAndHigherOrderFunctions.java:213 | the value recorded for each round is what the body evaluates to in that round's frame |
| LoopFacts.LoopCallResult | src/main/java/adsen/scarpet/interpreter/parser/language/LoopsAndHigherOrderFunctions.java:198-221 | `loop(body, limit, cond?)` runs the body at most `limit` times with `_` counting from 0, returns the last body value or NULL, and puts `_` back; an unwinding outcome passes through untouched |
| LoopFacts.ReduceFrame | src/main/java/adsen/scarpet/interpreter/parser/language/LoopsAndHigherOrderFunctions.java:452-453 | each `reduce` step binds `_a` to the accumulator and `_` to the element, each renamed |
| LoopFacts.Accumulate | src/main/java/adsen/scarpet/interpreter/parser/language/LoopsAndHigherOrderFunctions.java:447-456 | `reduce` takes at most one step per element, and one for each when nothing unwinds |
| LoopFacts.ReduceGivesLast | src/main/java/adsen/scarpet/interpreter/parser/language/LoopsAndHigherOrderFunctions.java:447-463 | `reduce` returns the accumulator after the last step, or the first unwinding outcome unchanged |
| LoopFacts.AccumulateSteps | src/main/java/adsen/scarpet/interpreter/parser/language/LoopsAndHigherOrderFunctions.java:447-456 | each step sees the previous step's value as `_a` (the initial value first) and its element as `_`, and yields what the expression evaluates to there |
| LoopFacts.ReduceCallResult | src/main/java/adsen/scarpet/interpreter/parser/language/LoopsAndHigherOrderFunctions.java:428-464 | on a non-empty list `reduce` returns the last step's value and puts `_a` and `_` back; an unwinding outcome passes through untouched |
| Hosts.PublicNames | src/main/java/adsen/scarpet/interpreter/parser/ScriptHost.java:55-57 | the public functions are exactly the stored names not starting with `_` |
| Hosts.AvailableNames | src/main/java/adsen/scarpet/interpreter/parser/ScriptHost.java:59-61 | the available functions are exactly the stored names not starting with `__` |
| Hosts.PublicWithinAvailable | src/main/java/adsen/scarpet/interpreter/parser/ScriptHost.java:55-61 | every public function is available, and the available functions that are not public start with exactly one `_` |
| Hosts.StringArg | src/main/java/adsen/scarpet/interpreter/parser/ScriptHost.java:76-77 | a string or plain-variable token passes its text as a string value |
| Hosts.ArgsCount | src/main/java/adsen/scarpet/interpreter/parser/ScriptHost.java:67-115 | an accepted token list passes one argument per value token; a list of value tokens only is always accepted; a refusal points at a token that is not a value |
| Hosts.MinusNegates | src/main/java/adsen/scarpet/interpreter/parser/ScriptHost.java:99-102 | a minus before a number negates it |
| Hosts.SecondMinusRefused | src/main/java/adsen/scarpet/interpreter/parser/ScriptHost.java:99-105 | a second pending minus is refused with the operator message |
| Hosts.ScanArgs | src/main/java/adsen/scarpet/interpreter/parser/ScriptHost.java:67-115 | the token loop of `call` computes the argument scan |
| Hosts.ReportShowsAll | src/main/java/adsen/scarpet/interpreter/parser/ScriptHost.java:117-122 | the arity report keeps the text built before it, and can be built exactly when every remaining argument can be shown |
| Hosts.Report | src/main/java/adsen/scarpet/interpreter/parser/ScriptHost.java:116-122 | the report loop of `call` computes the report |
| Hosts.Reported | src/main/java/adsen/scarpet/interpreter/parser/ScriptHost.java:124-133 | `call` answers with the value's text, or with the message of an ExpressionException thrown during evaluation or by `getString` |
| Hosts.CallRunsOnlyWhenAccepted | src/main/java/adsen/scarpet/interpreter/parser/ScriptHost.java:63-134 | an unknown function gives "UNDEFINED" and changes nothing; a refused argument text or a wrong argument count returns before anything runs |
| Hosts.CallbackSpec | src/main/java/adsen/scarpet/interpreter/parser/ScriptHost.java:136-151 | a wrong argument count throws InvalidCallbackException and changes nothing |
| Hosts.ScriptHost.constructor | src/main/java/adsen/scarpet/interpreter/parser/ScriptHost.java:27-41 | a new host keeps its name, has no functions, and has exactly the seeded globals, with `null`, `true` and `false` bound to their values and `_`, `_i` and `_a` to zero |
| Hosts.ScriptHost.PublicFunctions | src/main/java/adsen/scarpet/interpreter/parser/ScriptHost.java:55-57 | the host's public function names |
| Hosts.ScriptHost.AvailableFunctions | src/main/java/adsen/scarpet/interpreter/parser/ScriptHost.java:59-61 | the host's available function names |
| Hosts.ScriptHost.Call | src/main/java/adsen/scarpet/interpreter/parser/ScriptHost.java:63-134 | `call` returns what the call specification gives and leaves the host's tables as it says |
| Hosts.ScriptHost.CallUdf | src/main/java/adsen/scarpet/interpreter/parser/ScriptHost.java:136-151 | `callUDF` returns and changes the tables as the callback specification says |
| Hosts.Context.constructor | src/main/java/adsen/scarpet/interpreter/parser/Context.java:20-22 | a new context is on the given host and has no locals |
| Hosts.Context.SimpleParse | src/main/java/adsen/scarpet/interpreter/parser/Context.java:31-33 | a fresh context on a fresh host named "command line", with no locals, no functions and the seeded globals |
| Hosts.Context.GetVariable | src/main/java/adsen/scarpet/interpreter/parser/Context.java:35-40 | the binding the scope lookup gives |
| Hosts.Context.SetVariable | src/main/java/adsen/scarpet/interpreter/parser/Context.java:42-48 | the frame becomes the one the scope update gives |
| Hosts.Context.IsAVariable | src/main/java/adsen/scarpet/interpreter/parser/Context.java:51-53 | whether the scope has the name |
| Hosts.Context.DelVariable | src/main/java/adsen/scarpet/interpreter/parser/Context.java:56-62 | the frame becomes the one the scope deletion gives |
| Hosts.Context.ClearAll | src/main/java/adsen/scarpet/interpreter/parser/Context.java:64-70 | `clearAll` does what `delVariable` does |
| Hosts.Context.With | src/main/java/adsen/scarpet/interpreter/parser/Context.java:72-75 | `with` binds locally and returns the same context |
| Hosts.Context.GetAllVariableNames | src/main/java/adsen/scarpet/interpreter/parser/Context.java:77-79 | the local names |
| Hosts.Context.Recreate | src/main/java/adsen/scarpet/interpreter/parser/Context.java:81-83 | a fresh context on the same host with no locals |
| Hosts.CallSpec | src/main/java/adsen/scarpet/interpreter/parser/ScriptHost.java:63-134 | `call` as a function of the host's tables: UNDEFINED for an unknown function, the argument errors, or the reported outcome of running it; Hosts.CallRunsOnlyWhenAccepted states when the tables can change, Hosts.CarriageReturnArgumentCrashes that a `\r` escape in the argument text ends it in a NullPointerException, and `Hosts.ScriptHost.Call` runs it in place |
| Hosts.CarriageReturnArgumentCrashes | src/main/java/adsen/scarpet/interpreter/parser/ScriptHost.java:69 | the argument text is tokenized outside the error handler and without an expression, so a `\r` escape in it ends `call` in a NullPointerException with the tables unchanged |
| LexSpec.PeekNext | src/main/java/adsen/scarpet/interpreter/parser/Tokenizer.java:74-76 | the character after `pos` when there is one, the zero character at or past the last position |
| LexSpec.SkipSpace | src/main/java/adsen/scarpet/interpreter/parser/Tokenizer.java:126-134 | the whitespace loop stops on a non-blank character at or after the start, or runs off the end (`None`) |
| LexSpec.NumberEnd | src/main/java/adsen/scarpet/interpreter/parser/Tokenizer.java:141-159 | the number loop ends between its start and the end of the input |
| LexSpec.NumberToken | src/main/java/adsen/scarpet/interpreter/parser/Tokenizer.java:141-159 | the cursor after a number token lies strictly after its first digit and within the input |
| LexSpec.ScanString | src/main/java/adsen/scarpet/interpreter/parser/Tokenizer.java:160-200 | a finished string ends strictly after where the loop started and within the input; the NullPointerException of a `\r` escape arises only without an expression |
| LexSpec.StringChar | src/main/java/adsen/scarpet/interpreter/parser/Tokenizer.java:166-193 | one string character or escape moves one or two positions and appends at most one character to the text, keeping what was decoded |
| LexSpec.ScanQuoted | src/main/java/adsen/scarpet/interpreter/parser/Tokenizer.java:160-200 | a finished string literal ends strictly after its opening quote and within the input; the NullPointerException of a `\r` escape arises only without an expression |
| LexSpec.WordEnd | src/main/java/adsen/scarpet/interpreter/parser/Tokenizer.java:201-208 | every character up to the end is a letter, digit or `_`, and the character at the end (if any) is not |
| LexSpec.TrailingSpace | src/main/java/adsen/scarpet/interpreter/parser/Tokenizer.java:209-220 | the whitespace after a name is skipped without going back or past the input |
| LexSpec.WordToken | src/main/java/adsen/scarpet/interpreter/parser/Tokenizer.java:201-221 | the cursor after a name token lies strictly after its first character and within the input |
| LexSpec.BracketType | src/main/java/adsen/scarpet/interpreter/parser/Tokenizer.java:222-232 | as written, every bracket, comma and brace is typed MARKER |
| LexSpec.IntendedBracketType | src/main/java/adsen/scarpet/interpreter/parser/Tokenizer.java:222-232 | `(` is OPEN_PAREN, `)` CLOSE_PAREN, `,` COMMA and each of `{}[]` MARKER, each in both directions |
| LexSpec.RunEnd | src/main/java/adsen/scarpet/interpreter/parser/Tokenizer.java:244-253 | every character of the symbol run is a symbol character and the one after it (if any) is not |
| LexSpec.LongestOperator | src/main/java/adsen/scarpet/interpreter/parser/Tokenizer.java:271-289 | the recorded operator end is -1 or lies inside the run read so far |
| LexSpec.LongestOperatorIsLongest | src/main/java/adsen/scarpet/interpreter/parser/Tokenizer.java:271-289 | the recorded end marks an operator prefix and no longer prefix is an operator; -1 means no prefix is one |
| LexSpec.CommentEnd | src/main/java/adsen/scarpet/interpreter/parser/Tokenizer.java:254-268 | a `//` comment ends between its start and the end of the input |
| LexSpec.SymbolToken | src/main/java/adsen/scarpet/interpreter/parser/Tokenizer.java:244-300 | a symbol run always yields a token (comment, `$` or operator) ending strictly after its start |
| LexSpec.Scan | src/main/java/adsen/scarpet/interpreter/parser/Tokenizer.java:135-300 | a scanned token ends strictly after its start and within the input; a NullPointerException arises only without an expression |
| LexSpec.Step | src/main/java/adsen/scarpet/interpreter/parser/Tokenizer.java:120-323 | `next()` returns `null` exactly at the end of the input, an emitted token moves the cursor forward, and a NullPointerException arises only without an expression |
| LexSpec.Prepend | src/main/java/adsen/scarpet/interpreter/parser/Tokenizer.java:52-57 | collecting a token keeps the collected tokens in front of the rest, and a failure stays the same failure |
| LexSpec.PrependNothing | src/main/java/adsen/scarpet/interpreter/parser/Tokenizer.java:52-57 | collecting nothing leaves the outcome unchanged |
| LexSpec.PrependTwice | src/main/java/adsen/scarpet/interpreter/parser/Tokenizer.java:52-57 | collecting in two steps is collecting the concatenation |
| LexSpec.TokenizeDone | src/main/java/adsen/scarpet/interpreter/parser/Tokenizer.java:64-67 | at the end of the input the pass yields no tokens |
| LexSpec.TokenizeUnfold | src/main/java/adsen/scarpet/interpreter/parser/Tokenizer.java:52-57 | before the end, the pass is one `next()` followed by the pass from its cursor |
| LexSpec.Desugared | src/main/java/adsen/scarpet/interpreter/parser/Tokenizer.java:98-110 | a kept token becomes one or two tokens |
| LexSpec.Reversed | src/main/java/adsen/scarpet/interpreter/parser/Tokenizer.java:115 | the list has the same length with every element mirrored |
| Lexer.Tokenizer.constructor | src/main/java/adsen/scarpet/interpreter/parser/Tokenizer.java:45-50 | a new tokenizer holds its settings and starts at position 0, line 0, with no previous token |
| Lexer.Tokenizer.HasNext | src/main/java/adsen/scarpet/interpreter/parser/Tokenizer.java:64-67 | there is a next token exactly when `next()` would not return `null` |
| Lexer.Tokenizer.Next | src/main/java/adsen/scarpet/interpreter/parser/Tokenizer.java:120-323 | `next()` yields exactly the step of the specification and moves the cursor to where it says |
| Lexer.Tokenizer.RemainingTokens | src/main/java/adsen/scarpet/interpreter/parser/Tokenizer.java:52-57 | draining the tokenizer yields exactly the pass from the current cursor |
| Lexer.Tokenizer.PostProcess | src/main/java/adsen/scarpet/interpreter/parser/Tokenizer.java:83-117 | the processed list is the post-processing of the pass, or its failure |
| Lexer.SimplePass | src/main/java/adsen/scarpet/interpreter/parser/Tokenizer.java:52-57 | `simplePass` yields exactly the pass with no expression, comments or `$` markers, where a `\r` escape ends in a NullPointerException (LexFacts.CarriageReturnWithoutExpression) |
| Lexer.CleanTokens | src/main/java/adsen/scarpet/interpreter/parser/Tokenizer.java:86-116 | the loop drops comments, `$` and redundant `;`, desugars `{` and `[`, and reverses, as the specification says |
| Lexer.ReadSpace | src/main/java/adsen/scarpet/interpreter/parser/Tokenizer.java:126-134 | the whitespace loop stops where the specification does, counting lines |
| Lexer.ReadNumber | src/main/java/adsen/scarpet/interpreter/parser/Tokenizer.java:141-159 | the number loop yields the specification's token and cursor |
| Lexer.ReadString | src/main/java/adsen/scarpet/interpreter/parser/Tokenizer.java:160-200 | the string loop yields the specification's text and cursor, or its error: the carriage-return error with an expression, a NullPointerException without one |
| Lexer.ReadStringChar | src/main/java/adsen/scarpet/interpreter/parser/Tokenizer.java:166-193 | one step of the string loop agrees with the specification |
| Lexer.ReadWord | src/main/java/adsen/scarpet/interpreter/parser/Tokenizer.java:201-221 | the name loop and its whitespace look-ahead yield the specification's token and cursor |
| Lexer.ReadComment | src/main/java/adsen/scarpet/interpreter/parser/Tokenizer.java:254-268 | the comment runs to the first newline or the end, keeping the doubled `/` of the source |
| Lexer.ReadRun | src/main/java/adsen/scarpet/interpreter/parser/Tokenizer.java:250-275 | a symbol run is either a comment start or read up to the specification's run end |
| Lexer.ReadSymbols | src/main/java/adsen/scarpet/interpreter/parser/Tokenizer.java:244-300 | the symbol branch yields the specification's token |
| Lexer.ReadToken | src/main/java/adsen/scarpet/interpreter/parser/Tokenizer.java:135-300 | the token branch of `next()` yields exactly the specification's scan |
| LexSpec.Tokenize | src/main/java/adsen/scarpet/interpreter/parser/Tokenizer.java:52-57 | the tokens `next()` yields from a cursor to the end of the input, or its first error; `Lexer.Tokenizer.RemainingTokens` drains the tokenizer to exactly this |
| LexSpec.PostProcessed | src/main/java/adsen/scarpet/interpreter/parser/Tokenizer.java:83-117 | `postProcess` as a function of the token list, whose output LexFacts.PostProcessedClean and LexFacts.PostProcessedPlain state |
| LexFacts.SkipSpaceSkipsBlanks | src/main/java/adsen/scarpet/interpreter/parser/Tokenizer.java:127-134 | every character the whitespace loop skips is blank and the line number grows by the newlines among them; it runs off the end exactly when the rest of the input is blank |
| LexFacts.StepTokenStart | src/main/java/adsen/scarpet/interpreter/parser/Tokenizer.java:120-137 | a token emitted by `next()` starts at the first non-blank character at or after the cursor, and records the cursor's line plus the newlines skipped |
| LexFacts.NumberEndScans | src/main/java/adsen/scarpet/interpreter/parser/Tokenizer.java:146-159 | the number loop takes every character up to where it stops and not the character it stops on |
| LexFacts.NumberTokenShape | src/main/java/adsen/scarpet/interpreter/parser/Tokenizer.java:139-159 | a number token is HEX_LITERAL exactly when it starts with `0x`/`0X`, else LITERAL; its text is the input it spans; a decimal one holds only digits, `.`, `e`, `E` and a sign right after an exponent letter, and stops where the number cannot continue |
| LexFacts.TrailingSpaceFindsParen | src/main/java/adsen/scarpet/interpreter/parser/Tokenizer.java:216-220 | after a name and its whitespace, the last character the loop read is `(` exactly when the first non-blank character is `(` |
| LexFacts.LastAfterWordFindsParen | src/main/java/adsen/scarpet/interpreter/parser/Tokenizer.java:201-221 | the character the name scan ends on is `(` exactly when the first non-blank character after the name is `(` |
| LexFacts.WordTokenShape | src/main/java/adsen/scarpet/interpreter/parser/Tokenizer.java:201-221 | a name token is the whole run of letters, digits and `_`, and it is a FUNCTION exactly when the first non-blank character after it is `(`, a VARIABLE otherwise |
| LexFacts.SymbolTokenOperator | src/main/java/adsen/scarpet/interpreter/parser/Tokenizer.java:245-300 | an operator token is the longest prefix of the symbol run that is a registered operator, or the whole run when none is; it is UNARY_OPERATOR with `u` appended exactly when the previous token is absent, an operator, an open parenthesis, a comma, or a `{`/`[` marker |
| LexFacts.CleanBackwardsClean | src/main/java/adsen/scarpet/interpreter/parser/Tokenizer.java:88-113 | whatever the loop of `postProcess` pushes is free of comments, brace and bracket markers and unary `;` |
| LexFacts.PostProcessedClean | src/main/java/adsen/scarpet/interpreter/parser/Tokenizer.java:83-117 | the output of `postProcess` has no comment, no `{`, `}`, `[` or `]` marker and no unary `;` |
| LexFacts.CleanBackwardsPlain | src/main/java/adsen/scarpet/interpreter/parser/Tokenizer.java:88-113 | on tokens that are not comments, `;` or brace or bracket markers, the backward loop pushes them unchanged in reverse order |
| LexFacts.PostProcessedPlain | src/main/java/adsen/scarpet/interpreter/parser/Tokenizer.java:83-117 | `postProcess` leaves such a token list exactly as it is, order included |
| LexFacts.OnlyKeepingMatters | src/main/java/adsen/scarpet/interpreter/parser/Tokenizer.java:92-113 | the token taken last affects `postProcess` only through whether it lets a `;` before it stay |
| LexFacts.FinalSemicolonDropped | src/main/java/adsen/scarpet/interpreter/parser/Tokenizer.java:92-93 | a `;` at the end of the program is dropped: the result equals that of the program without it |
| LexFacts.SemicolonBeforeCloseDropped | src/main/java/adsen/scarpet/interpreter/parser/Tokenizer.java:92-108 | a `;` right before `}` or `]` is dropped: the result equals that of the program without it |
| LexFacts.BraceBecomesMapCall | src/main/java/adsen/scarpet/interpreter/parser/Tokenizer.java:98-102 | a lone `{` becomes a call of `m` followed by an opening parenthesis at the same position |
| LexFacts.ScanStringPlain | src/main/java/adsen/scarpet/interpreter/parser/Tokenizer.java:166-197 | a string literal without backslashes yields exactly the characters up to the first quote, and the cursor stops just past that quote |
| LexFacts.EscapesDecoded | src/main/java/adsen/scarpet/interpreter/parser/Tokenizer.java:168-185 | `\n` and `\t` decode to newline and tab, `\\` and `\'` to the escaped character, and a backslash before any other character is dropped while that character is kept |
| LexFacts.CarriageReturnRejected | src/main/java/adsen/scarpet/interpreter/parser/Tokenizer.java:174-177 | a `\r` escape inside a string fails with "Carriage return character is not supported" |
| LexFacts.CarriageReturnWithoutExpression | src/main/java/adsen/scarpet/interpreter/parser/Tokenizer.java:174-177 | without an expression the same escape ends the scan, and the whole `simplePass`, in a NullPointerException, because the error is raised with no expression to describe |
| LexFacts.UnterminatedString | src/main/java/adsen/scarpet/interpreter/parser/Tokenizer.java:164-197 | a string the input ends inside fails with "Program truncated" under an expression, and reads past the input without one |
| LexFacts.StrictNoAdjacentValues | src/main/java/adsen/scarpet/interpreter/parser/Tokenizer.java:303-321 | under an expression, no number, string or name token is ever emitted right after a value-like token |
| LexFacts.AdjacentNumbersRefused | src/main/java/adsen/scarpet/interpreter/parser/Tokenizer.java:303-321 | under an expression, `1 2` fails with "'2' is not allowed after '1'" |
| LexFacts.AdjacentNumbersLoose | src/main/java/adsen/scarpet/interpreter/parser/Tokenizer.java:120-159 | without an expression, `1 2` gives the two literals with their positions |
| LexFacts.OperatorBeforeCloseRejected | src/main/java/adsen/scarpet/interpreter/parser/Tokenizer.java:236-243 | under an expression, `1+)` fails with "Can't have operator + at the end of a subexpression" |
| ParseSpec.TrimStart | src/main/java/adsen/scarpet/interpreter/parser/Expression.java:81 | the kept text is a suffix that starts with a non-blank character, and everything cut before it is blank |
| ParseSpec.TrimEnd | src/main/java/adsen/scarpet/interpreter/parser/Expression.java:81 | the kept text is a prefix that ends with a non-blank character, and everything cut after it is blank |
| ParseSpec.UnifyNewlines | src/main/java/adsen/scarpet/interpreter/parser/Expression.java:82 | no `\r` is left, the text does not grow, and a last character other than a line break survives at the end |
| ParseSpec.DropSemicolons | src/main/java/adsen/scarpet/interpreter/parser/Expression.java:83 | the kept text is a prefix not ending in `;`, and everything cut is `;` |
| ParseSpec.NormaliseNoCarriageReturn | src/main/java/adsen/scarpet/interpreter/parser/Expression.java:81-83 | the stored program text holds no `\r` |
| ParseSpec.NormaliseNoFinalSemicolon | src/main/java/adsen/scarpet/interpreter/parser/Expression.java:81-83 | the stored program text does not end in `;` |
| ParseSpec.NormaliseKeepsClean | src/main/java/adsen/scarpet/interpreter/parser/Expression.java:81-83 | a text already trimmed, free of `\r` and not ending in `;` or a line break is stored unchanged |
| ParseSpec.NoCarriageReturn | src/main/java/adsen/scarpet/interpreter/parser/Expression.java:82 | without `\r` the newline rewrite changes nothing |
| ParseSpec.ShuntOperators | src/main/java/adsen/scarpet/interpreter/parser/Expression.java:515-525 | exactly the topmost operators that yield to the incoming one (left-associative and not tighter, or looser) move to the output, top first; the one left on top does not yield |
| ParseSpec.PopToParen | src/main/java/adsen/scarpet/interpreter/parser/Expression.java:419-493 | the stack is popped onto the output, top first, down to the nearest open parenthesis, which stays on top (or the stack empties) |
| ParseSpec.Drain | src/main/java/adsen/scarpet/interpreter/parser/Expression.java:505-511 | the drain succeeds exactly when no parenthesis is left on the stack, appending the stack top first; otherwise it fails with "Mismatched parentheses" |
| ParseSpec.ShuntTokenized | src/main/java/adsen/scarpet/interpreter/parser/Expression.java:389-513 | shunting tokens as the tokenizer reads them equals shunting the whole token list once the tokenizer succeeds |
| ParseSpec.Operands | src/main/java/adsen/scarpet/interpreter/parser/Expression.java:405-414 | the operand tokens (variables, numbers, strings) of a list, each an operand |
| ParseSpec.OperandsAppend | src/main/java/adsen/scarpet/interpreter/parser/Expression.java:405-414 | the operands of a concatenation are the concatenated operands |
| ParseSpec.NoOperands | src/main/java/adsen/scarpet/interpreter/parser/Expression.java:415-502 | a list with no operand token has no operands |
| ParseSpec.Moved | src/main/java/adsen/scarpet/interpreter/parser/Expression.java:505-525 | moving the top of the stack to the output keeps both containers well formed and adds no operand |
| ParseSpec.OperandCase | src/main/java/adsen/scarpet/interpreter/parser/Expression.java:405-414 | an accepted operand is appended to the output and nothing else changes |
| ParseSpec.CommaCase | src/main/java/adsen/scarpet/interpreter/parser/Expression.java:419-433 | a comma keeps the containers well formed and moves no operand |
| ParseSpec.OperatorCase | src/main/java/adsen/scarpet/interpreter/parser/Expression.java:434-459 | an operator keeps the containers well formed and moves no operand |
| ParseSpec.OpenCase | src/main/java/adsen/scarpet/interpreter/parser/Expression.java:460-478 | an open parenthesis is always accepted and moves no operand |
| ParseSpec.CloseCase | src/main/java/adsen/scarpet/interpreter/parser/Expression.java:479-493 | a close parenthesis keeps the containers well formed and moves no operand |
| ParseSpec.ShuntTokenOperands | src/main/java/adsen/scarpet/interpreter/parser/Expression.java:404-502 | each accepted token adds its own operands, and only those, to the output |
| ParseSpec.ShuntKeepsOperands | src/main/java/adsen/scarpet/interpreter/parser/Expression.java:389-513 | the RPN holds exactly the operands of the tokens, in their order, and only operands, operators, calls and parameter-list opens |
| ParseSpec.Bump | src/main/java/adsen/scarpet/interpreter/parser/Expression.java:646 | only the innermost scope's count changes, by the given amount |
| ParseSpec.ValidateToken | src/main/java/adsen/scarpet/interpreter/parser/Expression.java:633-667 | an accepted token leaves at least the global scope |
| ParseSpec.TakeArgs | src/main/java/adsen/scarpet/interpreter/parser/Expression.java:588-593 | a call takes the nodes above the nearest parameter-list start, in push order, leaving that start on top of the rest (or nothing) |
| ParseSpec.CallOf | src/main/java/adsen/scarpet/interpreter/parser/Expression.java:579-595 | a known (lower-cased) name calls its built-in with the arguments; an unknown one calls `.` with the name appended |
| ParseSpec.Counts | src/main/java/adsen/scarpet/interpreter/parser/Expression.java:625-631 | a scope with a positive count has a node on top of the build stack |
| ParseSpec.TakeArgsCounts | src/main/java/adsen/scarpet/interpreter/parser/Expression.java:588-593 | a call takes as many arguments as its scope counts and leaves the enclosing counts with an empty innermost one |
| ParseSpec.UnaryInStep | src/main/java/adsen/scarpet/interpreter/parser/Expression.java:635-639 | when validate accepts a unary operator, the tree build does too and the counts agree afterwards |
| ParseSpec.BinaryInStep | src/main/java/adsen/scarpet/interpreter/parser/Expression.java:640-649 | when validate accepts a binary operator, the tree build does too and the counts agree afterwards |
| ParseSpec.CallInStep | src/main/java/adsen/scarpet/interpreter/parser/Expression.java:650-661 | when validate accepts a call, the tree build does too and the counts agree afterwards |
| ParseSpec.PushInStep | src/main/java/adsen/scarpet/interpreter/parser/Expression.java:662-666 | when validate accepts an operand or a parameter-list open, the tree build does too and the counts agree afterwards |
| ParseSpec.BuildTokenInStep | src/main/java/adsen/scarpet/interpreter/parser/Expression.java:633-667 | every token validate accepts is accepted by the tree build, with the counts in step |
| ParseSpec.BuildFromValidated | src/main/java/adsen/scarpet/interpreter/parser/Expression.java:552-677 | from a point where the counts match, a validated remainder always builds a tree |
| ParseSpec.ValidatedBuilds | src/main/java/adsen/scarpet/interpreter/parser/Expression.java:552-617 | an RPN that validates builds exactly one tree: `getAST` never fails after `validate` |
| ParseSpec.CompileBuilds | src/main/java/adsen/scarpet/interpreter/parser/Expression.java:545-617 | for a tokenizable program, the RPN holds the program's operands in order, and a validated RPN compiles |
| ParseFacts.OperatorTableArithmetic | src/main/java/adsen/scarpet/interpreter/parser/language/Operators.java:21-36 | the operator table makes `+` and `*` left-associative with `*` binding tighter |
| ParseFacts.OperandNext | src/main/java/adsen/scarpet/interpreter/parser/Expression.java:405-413 | an operand after a non-constant goes to the output |
| ParseFacts.OperatorNext | src/main/java/adsen/scarpet/interpreter/parser/Expression.java:434-446 | an operator with nothing yielding on the stack is pushed |
| ParseFacts.OpenNext | src/main/java/adsen/scarpet/interpreter/parser/Expression.java:460-478 | an open parenthesis at the start is pushed |
| ParseFacts.CloseNext | src/main/java/adsen/scarpet/interpreter/parser/Expression.java:479-493 | a close parenthesis pops the operator above its open one to the output |
| ParseFacts.MarkerNext | src/main/java/adsen/scarpet/interpreter/parser/Expression.java:494-500 | a marker other than `$` changes nothing |
| ParseFacts.ListEnd | src/main/java/adsen/scarpet/interpreter/parser/Expression.java:505-511 | the drain yields the output followed by the stack, top first |
| ParseFacts.NumberNext | src/main/java/adsen/scarpet/interpreter/parser/Expression.java:603-610 | the tree build pushes a number literal |
| ParseFacts.BinaryNext | src/main/java/adsen/scarpet/interpreter/parser/Expression.java:563-568 | a binary operator combines the two topmost nodes, the lower one on the left |
| ParseFacts.FunctionNext | src/main/java/adsen/scarpet/interpreter/parser/Expression.java:415-418 | a function name is pushed and remembered as the last function |
| ParseFacts.CallOpenNext | src/main/java/adsen/scarpet/interpreter/parser/Expression.java:460-478 | an open parenthesis after a function name goes to both the output and the stack |
| ParseFacts.CallCloseNext | src/main/java/adsen/scarpet/interpreter/parser/Expression.java:479-493 | a close parenthesis after a call's argument moves the function name to the output |
| ParseFacts.WrittenGroupingIgnored | src/main/java/adsen/scarpet/interpreter/parser/Tokenizer.java:222-232 | as written, the brackets of `(1+2)*3` are skipped, so its RPN is `1 2 3 * +` |
| ParseFacts.WrittenGroupingTree | src/main/java/adsen/scarpet/interpreter/parser/Expression.java:552-617 | the RPN `1 2 3 * +` builds `1+(2*3)` |
| ParseFacts.WrittenCallRejected | src/main/java/adsen/scarpet/interpreter/parser/Tokenizer.java:222-232 | as written, `user_defined(1)` shunts to `1 user_defined` and validation rejects it as a call outside every scope |
| ParseFacts.IntendedGroupingKept | src/main/java/adsen/scarpet/interpreter/parser/Expression.java:460-493 | with the brackets typed as intended, `(1+2)*3` shunts to `1 2 + 3 *` |
| ParseFacts.IntendedGroupingTree | src/main/java/adsen/scarpet/interpreter/parser/Expression.java:552-617 | the RPN `1 2 + 3 *` builds `(1+2)*3` |
| ParseFacts.IntendedCallAccepted | src/main/java/adsen/scarpet/interpreter/parser/Expression.java:415-493 | with the brackets typed as intended, `user_defined(1)` shunts to `( 1 user_defined` |
| ParseFacts.IntendedCallValid | src/main/java/adsen/scarpet/interpreter/parser/Expression.java:619-677 | that RPN validates |
| ParseFacts.IntendedCallTree | src/main/java/adsen/scarpet/interpreter/parser/Expression.java:578-601 | and builds a call of `.` with the argument and the name appended |
| Parser.Expression.constructor | src/main/java/adsen/scarpet/interpreter/parser/Expression.java:80-93 | the stored text is the normalised input, with the options and no tree yet |
| Parser.Expression.ShuntOperators | src/main/java/adsen/scarpet/interpreter/parser/Expression.java:515-525 | the popping loop does what the specification's operator popping does |
| Parser.Expression.PopToParen | src/main/java/adsen/scarpet/interpreter/parser/Expression.java:422-493 | the popping loop stops at the nearest open parenthesis as the specification says |
| Parser.Expression.Drain | src/main/java/adsen/scarpet/interpreter/parser/Expression.java:505-511 | the final loop yields the specification's drain, including the mismatched-parenthesis error |
| Parser.Expression.AcceptOperand | src/main/java/adsen/scarpet/interpreter/parser/Expression.java:405-414 | the operand case agrees with the specification's case, error included |
| Parser.Expression.AcceptComma | src/main/java/adsen/scarpet/interpreter/parser/Expression.java:419-433 | the comma case agrees with the specification's case, errors included |
| Parser.Expression.AcceptOperator | src/main/java/adsen/scarpet/interpreter/parser/Expression.java:434-459 | the binary and unary operator cases agree with the specification's, errors included |
| Parser.Expression.AcceptOpen | src/main/java/adsen/scarpet/interpreter/parser/Expression.java:460-478 | the open-parenthesis case agrees with the specification's, implicit `*` included |
| Parser.Expression.AcceptClose | src/main/java/adsen/scarpet/interpreter/parser/Expression.java:479-493 | the close-parenthesis case agrees with the specification's, errors included |
| Parser.Expression.AcceptMarker | src/main/java/adsen/scarpet/interpreter/parser/Expression.java:494-500 | a `$` marker rewrites the program text at its position to a newline; other markers change nothing |
| Parser.Expression.Accept | src/main/java/adsen/scarpet/interpreter/parser/Expression.java:404-502 | one pass of the `switch` agrees with the specification's case for every token |
| Parser.Expression.ShuntingYard | src/main/java/adsen/scarpet/interpreter/parser/Expression.java:389-513 | `shuntingYard` yields the specification's RPN or error and leaves the program text as the `$` markers rewrite it |
| Parser.Expression.Validate | src/main/java/adsen/scarpet/interpreter/parser/Expression.java:619-677 | `validate` accepts or rejects, with the same message, exactly as the specification |
| Parser.Expression.PopArgs | src/main/java/adsen/scarpet/interpreter/parser/Expression.java:588-593 | the argument loop takes the specification's arguments |
| Parser.Expression.Apply | src/main/java/adsen/scarpet/interpreter/parser/Expression.java:556-613 | one token of `getAST` agrees with the specification's build step |
| Parser.Expression.BuildTree | src/main/java/adsen/scarpet/interpreter/parser/Expression.java:555-616 | the tree loop yields the specification's tree or error |
| Parser.Expression.GetAst | src/main/java/adsen/scarpet/interpreter/parser/Expression.java:552-617 | `getAST` yields the specification's compilation, leaving the cached tree alone |
| Parser.Expression.Eval | src/main/java/adsen/scarpet/interpreter/parser/Expression.java:545-550 | the first call compiles and caches the tree (an error caches nothing); every call evaluates the cached tree in the context's frame |
| ParseSpec.ShuntingYard | src/main/java/adsen/scarpet/interpreter/parser/Expression.java:389-513 | `shuntingYard` as a function of the program text: the RPN or the first error, and the text as `$` markers leave it; `Parser.Expression.ShuntingYard` runs it in place and ParseSpec.ShuntKeepsOperands states which operands it keeps |
| ParseSpec.Validate | src/main/java/adsen/scarpet/interpreter/parser/Expression.java:619-677 | `validate` as a function of the RPN: the arity and scope checks with their messages; `Parser.Expression.Validate` runs it in place and ParseSpec.ValidatedBuilds shows that what passes builds one tree |
| ParseSpec.Compile | src/main/java/adsen/scarpet/interpreter/parser/Expression.java:552-617 | `getAST`: shunting-yard, then validate, then the tree, stopping at the first error; `Parser.Expression.GetAst` runs it in place |
| Messages.RawSplit | src/main/java/adsen/scarpet/interpreter/parser/Expression.java:106 | cutting a text at its newlines always yields at least one piece |
| Messages.JoinRawSplit | src/main/java/adsen/scarpet/interpreter/parser/Expression.java:106 | joining the pieces with newlines gives back the text |
| Messages.RawSplitNoNewline | src/main/java/adsen/scarpet/interpreter/parser/Expression.java:106 | no piece holds a newline |
| Messages.DropTrailingEmpty | src/main/java/adsen/scarpet/interpreter/parser/Expression.java:106 | `split` drops exactly the empty pieces at the end: the rest is a prefix ending in a non-empty piece |
| Messages.SplitOneLine | src/main/java/adsen/scarpet/interpreter/parser/Expression.java:106 | a text without a newline is one line, even when empty |
| Messages.JoinPrefix | src/main/java/adsen/scarpet/interpreter/parser/Expression.java:106 | the join of the first lines is a prefix of the join of all, followed by a newline when lines remain |
| Messages.JoinEmptyTail | src/main/java/adsen/scarpet/interpreter/parser/Expression.java:106 | empty trailing pieces add only newlines to the join |
| Messages.JoinAllEmpty | src/main/java/adsen/scarpet/interpreter/parser/Expression.java:106 | empty pieces join to newlines only |
| Messages.SplitLines | src/main/java/adsen/scarpet/interpreter/parser/Expression.java:106 | the lines of `split` hold no newline, and joined they give the text less some trailing newlines |
| Messages.OneLineSnippet | src/main/java/adsen/scarpet/interpreter/parser/Expression.java:95-138 | in a one-line program the snippet is up to 40 characters before the token, ` HERE>> `, and up to 41 from it |
| Messages.ManyLineSnippet | src/main/java/adsen/scarpet/interpreter/parser/Expression.java:95-138 | in a longer program the snippet is the line before (if any), the token's line with the marker at its column, and the line after (if any) |
| Messages.ErrorLineShape | src/main/java/adsen/scarpet/interpreter/parser/exception/ExpressionException.java:16-32 | the error line follows the snippet: line and column (1-based) unless the snippet is one line, then the absolute position, then the expression's name if it has one |
| Messages.SnippetLines | src/main/java/adsen/scarpet/interpreter/parser/Expression.java:95-138 | the snippet is one line exactly when the program is |
| Messages.ErrorLinePosition | src/main/java/adsen/scarpet/interpreter/parser/exception/ExpressionException.java:16-32 | the error line gives line and column exactly when the program has several lines |
| Messages.JoinLast | src/main/java/adsen/scarpet/interpreter/parser/exception/ExpressionException.java:47 | joined lines end with the last line, after a newline when there are several |
| Messages.MessageShape | src/main/java/adsen/scarpet/interpreter/parser/exception/ExpressionException.java:41-49 | a snooper's answer replaces the whole message; otherwise the message is the snippet and the error line, one per line, and it fails only where the snippet does |
| Messages.ChatSnooperSilences | src/main/java/adsen/scarpet/interpreter/parser/ScarpetScriptServer.java:51-79 | with the chat snooper installed the exception's message is empty |
| Messages.Snippet | src/main/java/adsen/scarpet/interpreter/parser/Expression.java:95-138 | the lines shown around a token, which Messages.OneLineSnippet and Messages.ManyLineSnippet state |
| Messages.MakeMessage | src/main/java/adsen/scarpet/interpreter/parser/exception/ExpressionException.java:41-49 | the text of an ExpressionException: a snooper's answer, else the joined error lines, as Messages.MessageShape states |
| Servers.ParenIndex | src/main/java/adsen/scarpet/interpreter/parser/ScarpetEventServer.java:156 | the position of the first `(`, or none when the text has no `(` |
| Servers.DecodeCallback | src/main/java/adsen/scarpet/interpreter/parser/ScarpetEventServer.java:154-163 | a decoded host comes with word-character host and function names; without a host the function is named by the whole text |
| Servers.DecodePrints | src/main/java/adsen/scarpet/interpreter/parser/ScarpetEventServer.java:28-32 | printing a decoded callback gives back the decoded text |
| Servers.ParenIndexAt | src/main/java/adsen/scarpet/interpreter/parser/ScarpetEventServer.java:156 | the first `(` is found where it is |
| Servers.WordHasNoParen | src/main/java/adsen/scarpet/interpreter/parser/ScarpetEventServer.java:156 | a run of word characters holds no `(` |
| Servers.DecodeOfText | src/main/java/adsen/scarpet/interpreter/parser/ScarpetEventServer.java:28-32 | decoding the printed form of a callback with word-character names gives the callback back |
| Servers.HostByName | src/main/java/adsen/scarpet/interpreter/parser/ScarpetScriptServer.java:28-32 | no name gives the global host; a name gives a host exactly when a module of that name exists |
| Servers.RunasSpec | src/main/java/adsen/scarpet/interpreter/parser/ScarpetScriptServer.java:97-107 | the set of modules stays the same; `true` means the host and function exist and the argument count matches |
| Servers.RunasRefuses | src/main/java/adsen/scarpet/interpreter/parser/ScarpetScriptServer.java:97-107 | a missing host, a missing function or a wrong argument count answers false and changes nothing |
| Servers.RunasTouchesItsHost | src/main/java/adsen/scarpet/interpreter/parser/ScarpetScriptServer.java:97-107 | a run changes no host but the one it names |
| Servers.Doomed | src/main/java/adsen/scarpet/interpreter/parser/ScarpetEventServer.java:96 | the removal test throws exactly when the names match, a host name is given and the callback has no host |
| Servers.Survivors | src/main/java/adsen/scarpet/interpreter/parser/ScarpetEventServer.java:96 | a removal that does not throw never lengthens the list |
| Servers.SurvivorsFail | src/main/java/adsen/scarpet/interpreter/parser/ScarpetEventServer.java:96 | the removal throws exactly when the test throws on some callback |
| Servers.SurvivorsMembers | src/main/java/adsen/scarpet/interpreter/parser/ScarpetEventServer.java:96 | a removal that does not throw keeps exactly the callbacks the test rejects |
| Servers.SurvivorsKeep | src/main/java/adsen/scarpet/interpreter/parser/ScarpetEventServer.java:96 | both: throws exactly when some test throws, and otherwise keeps exactly the non-matching callbacks |
| Servers.RemoveEventCall | src/main/java/adsen/scarpet/interpreter/parser/ScarpetEventServer.java:94-97 | the list keeps its argument count and exactly the non-matching callbacks, or the removal throws exactly when some test does |
| Servers.AddEventCall | src/main/java/adsen/scarpet/interpreter/parser/ScarpetEventServer.java:74-93 | a refused addition changes nothing; an accepted one names an existing function of an existing host taking the required number of arguments |
| Servers.AddEventCallOnce | src/main/java/adsen/scarpet/interpreter/parser/ScarpetEventServer.java:88-92 | after an accepted addition the new callback is last, appears nowhere else, and the others are exactly the earlier non-matching callbacks |
| Servers.RemoveByText | src/main/java/adsen/scarpet/interpreter/parser/ScarpetEventServer.java:144-163 | removing a listed callback by its printed name removes it, unless the removal throws |
| Servers.CallAll | src/main/java/adsen/scarpet/interpreter/parser/ScarpetEventServer.java:65-73 | running the callbacks keeps the set of modules and never lengthens the list |
| Servers.CallAllKeeps | src/main/java/adsen/scarpet/interpreter/parser/ScarpetEventServer.java:65-73 | every kept callback was in the list and names the global host or an existing module |
| Servers.TockInverse | src/main/java/adsen/scarpet/interpreter/parser/ScarpetEventServer.java:111 | counting a call down and back up are inverse |
| Servers.TickCounts | src/main/java/adsen/scarpet/interpreter/parser/ScarpetEventServer.java:106-117 | every scheduled call is either due or pending after the countdown |
| Servers.DueCalls | src/main/java/adsen/scarpet/interpreter/parser/ScarpetEventServer.java:106-117 | the due calls are exactly the counted-down calls whose due time reached zero or less |
| Servers.PendingCalls | src/main/java/adsen/scarpet/interpreter/parser/ScarpetEventServer.java:106-117 | the pending calls are exactly the counted-down calls whose due time is still positive |
| Servers.RunCalls | src/main/java/adsen/scarpet/interpreter/parser/ScarpetEventServer.java:118-121 | running the due calls keeps the set of modules |
| Servers.AddFrom | src/main/java/adsen/scarpet/interpreter/parser/ScarpetScriptServer.java:40-47 | registering a host's handlers keeps the set of events |
| Servers.AddFromKeepsOthers | src/main/java/adsen/scarpet/interpreter/parser/ScarpetScriptServer.java:40-47 | an event none of whose `__on_` functions is listed keeps its handler list |
| Servers.AddFromRegisters | src/main/java/adsen/scarpet/interpreter/parser/ScarpetScriptServer.java:35-48 | after registration every `__on_<event>` function of the host with a handler list and the right argument count is in that list |
| Servers.EventServer.constructor | src/main/java/adsen/scarpet/interpreter/parser/ScarpetEventServer.java:130-133 | a new event server has no handler lists and no scheduled calls |
| Servers.EventServer.ScheduleCall | src/main/java/adsen/scarpet/interpreter/parser/ScarpetEventServer.java:124-127 | the call is appended to the schedule and nothing else changes |
| Servers.EventServer.Tick | src/main/java/adsen/scarpet/interpreter/parser/ScarpetEventServer.java:104-123 | the schedule becomes the pending calls, and the due calls run in order against the script server |
| Servers.EventServer.AddEvent | src/main/java/adsen/scarpet/interpreter/parser/ScarpetEventServer.java:135-142 | an unknown event answers false; otherwise the event's list is updated as `addEventCall` says |
| Servers.EventServer.RemoveEvent | src/main/java/adsen/scarpet/interpreter/parser/ScarpetEventServer.java:144-152 | an unknown event answers false; otherwise the decoded callback is removed and the answer is true, or the removal's exception escapes and nothing changes |
| Servers.EventServer.CallEvent | src/main/java/adsen/scarpet/interpreter/parser/ScarpetEventServer.java:65-73 | the event's callbacks run in order against the script server and only those answering true stay; an exception leaves the list as it was |
| Servers.ScriptServer.constructor | src/main/java/adsen/scarpet/interpreter/parser/ScarpetScriptServer.java:20-26 | a new script server has a fresh global host, no modules and an empty event server |
| Servers.ScriptServer.GetHostByName | src/main/java/adsen/scarpet/interpreter/parser/ScarpetScriptServer.java:28-32 | the host lookup is the specification's |
| Servers.ScriptServer.AddEvents | src/main/java/adsen/scarpet/interpreter/parser/ScarpetScriptServer.java:35-48 | an unknown host registers nothing; otherwise the handler lists are updated as the registration loop says |
| Servers.ScriptServer.RemoveScriptHost | src/main/java/adsen/scarpet/interpreter/parser/ScarpetScriptServer.java:85-95 | the lower-cased name is removed from the modules, and the answer says whether it was there |
| Servers.ScriptServer.Runas | src/main/java/adsen/scarpet/interpreter/parser/ScarpetScriptServer.java:97-107 | `runas` answers and updates the hosts as the specification says |
| Servers.RemovedHostRefuses | src/main/java/adsen/scarpet/interpreter/parser/ScarpetScriptServer.java:85-107 | after a host is removed, running its functions answers false and changes nothing |

## Left out

- NumberFn: `Value.readNumber` is not part of this model. Decimal integer text gives its number and text without a numeral gives NULL; any other text that a `double` parse could read (`+5`, `1.5`, `1e3`, ` 5`) is an `Unmodelled` error.
- Numbers are integers. `NumericValue` holds a `double`, so floating-point arithmetic and rounding are not modelled. Neither is `getLong`'s truncation of non-integers, and the decimal constants `euler`, `pi` and `phi` are kept only as their text, so reading them is an explicit unmodelled-number error. `avogadro` is held as the exact integer 602214076000000000000000, where the source holds the nearest `double` of that decimal (value/NumericValue.java:21, 31-33).
- Case-insensitive comparison (`equalsIgnoreCase`, `toLowerCase(Locale.ROOT)`) is modelled on ASCII letters only.
- The math built-ins (`sin` and the rest), `rand`, `sleep`, `time`, `mandelbrot`, `sort`, the list built-ins beyond the checks the loop built-ins share, and `Value.slice`, `LazyListValue.range` and `sort_key`'s ordering are not modelled: a call ends in an `Unmodelled` error after the argument checks the source makes. `Value.add`, `subtract` and `multiply` are modelled on numbers only.
- `Value.java`, `NumericValue.java`, `ListValue.java` and `LazyListValue.java` are not part of this model beyond the operations listed in the table.
- `+=` on a list in the source appends to the list object in place, so aliases see the change (language/Operators.java:141-143). Values here are immutable, so the model gives the new list to the assigned variable only.
- `fact` of an argument at or above `Integer.MAX_VALUE` never ends in the source (its `int` counter wraps before passing it). The model gives a `Diverges` error instead.
- `max` and `min` of an empty list return a Java `null` in the source, which fails only where it is first used. The model stops the call there with a NullPointerException.
- Vars: the source lists the names in the iteration order of a `HashMap` key set, which depends on hashing (language/SystemFunctions.java:176-192). The model lists them in `String.compareTo` order (`SortedNames`), and the contract of `Vars` states only which names appear, once each, leaving the order free.
- Wherever else the source iterates a `HashMap` key set, that order is passed in as a parameter.
- A Return or Throw that reaches the top of a program is ended by `evalValue` as the source's catch clauses do. The message a Java stack overflow carries is replaced by the evaluation fuel bound: running out of fuel is "Your thoughts are too deep".
- Recursion depth is bounded by `fuel` in the interpreter, the loop built-ins, `callUDF` and `runas`. A program that needs more fuel is reported as a stack overflow rather than run further.
- The Java `assert` on the argument count in `CallbackList.call` (ScarpetEventServer.java:70) is off unless assertions are enabled, and is not modelled.
- `Expression.print`, `displayOutput` and every `System.out` print are dropped. `errorMaker` prints the message as a side effect, and only the returned text is modelled. `setChatErrorSnooper` and `resetErrorSnooper` are modelled only through the snooper's answer, which is a parameter, and so is anything a chat snooper might throw.
- The one-argument `Expression` constructor and `fatality()` are not modelled.
- Errors from the tokenizer and the parser carry their message text only. The token they point at is rendered separately by `Messages`.
- An ExpressionException raised during evaluation (parser/Expression.java:195-237, 314-316, 325, 331, 339 and 370-372) carries the text `makeMessage` formats from the program snippet, ` HERE>> `, the position and the expression's name, and `call` returns that text (parser/ScriptHost.java:131-132). The model keeps the bare message at these points. `Messages.MakeMessage` gives the formatted text for a token, but it is not composed into evaluation outcomes. The members this affects follow.
- Located: an internal error becomes an expression error with the bare text, not the formatted one.
- AddContextFunction: the masking error has the bare text, not the formatted one.
- CallArityChecked: the arity error has the bare text, not the formatted one.
- ReturnEndsCall: an internal error re-raised at the end of a call has the bare text, not the formatted one.
- Reported: an evaluation error is reported with its bare text.
- ScriptHost.Call: returns the bare text of an evaluation error, where the source returns the formatted one.
- The source renames the list element and the accumulator objects themselves with `bindTo` (language/LoopsAndHigherOrderFunctions.java:246 and 452). It puts an element's old name back after its step, but never the accumulator's. The model binds renamed copies, so another variable holding the same object does not see the rename. For example, after `total = 0; reduce(l(1,2), _a + _, total)` the value of `total` is named `_a` in the source and keeps its name here. `first` and `filter` return the original elements in both (LoopFacts.FirstGivesHit, LoopFacts.FilterKeepsTruthy). The members this affects follow.
- BindElement: binds `_` to a renamed copy of the element, not the element renamed in place.
- BindNext: binds `_` to a renamed copy in place of the context, with the same gap as `BindElement`.
- ReduceFrom: binds `_a` and `_` to renamed copies, so the accumulator object never takes the name `_a`.
- Reduce: runs `ReduceFrom`'s steps in place, with the same gap.
- Whitespace, digits and letters are the ASCII classes, where `Character.isWhitespace`, `isDigit` and `isLetter` (parser/Tokenizer.java:127-251) cover all of Unicode. So `é = 1` names a variable in the source and is an operator run here, and U+2028 is whitespace there and not here. The members this affects follow.
- SkipSpace: skips ASCII whitespace only.
- NumberEnd: reads ASCII digits only.
- WordEnd: reads ASCII letters and digits only.
- RunEnd: treats every non-ASCII letter or digit as an operator character.
- Positions, the 40-character snippet window and `String.compareTo` count characters of the model's strings (Unicode scalar values). The source counts UTF-16 code units. The two differ only on characters outside the Basic Multilingual Plane.
- `Stack` and `List` are sequences. A host is held by the script server as its tables (`Scope.Tables`), not as an object.
- `ScheduledCall`'s `Context` is replaced by the name of the host it runs on. A `long` due time that overflows is not modelled.
- The event server reaches the script server through a static field in the source. Here it is a parameter of each call. `eventHandlers` is never filled in the source and stays empty here.
- `print` is registered twice (language/SystemFunctions.java:25-29 and 126-130). The second registration wins, and both return their argument, so the model has one entry that returns the argument and drops the output.
- `LazyValue.java` is not part of this model. An operator applied to the parameter-list marker `PARAMS_START`, or that marker left as the whole tree, ends `getAST` with an `Unmodelled` error.

## Findings

| source | as written | input that shows it | evidently intended | confidence | as-written member | corrected member |
|---|---|---|---|---|---|---|
| src/main/java/adsen/scarpet/interpreter/parser/Tokenizer.java:223-232 | the bracket `switch` has no `break`, so `(`, `)`, `,` and the braces all end up typed MARKER, which the shunting-yard skips | `(1+2)*3` gives the RPN `1 2 3 * +`, the tree of `1+(2*3)`; `user_defined(1)` gives `1 user_defined`, which `validate` refuses with "Too many function calls, maximum scope exceeded" | `(` is OPEN_PAREN, `)` CLOSE_PAREN, `,` COMMA, so grouping is kept and calls validate | not executed | ParseFacts.WrittenGroupingIgnored, ParseFacts.WrittenGroupingTree, ParseFacts.WrittenCallRejected | LexSpec.IntendedBracketType, ParseFacts.IntendedGroupingKept, ParseFacts.IntendedGroupingTree, ParseFacts.IntendedCallAccepted, ParseFacts.IntendedCallValid, ParseFacts.IntendedCallTree |
| src/main/java/adsen/scarpet/interpreter/parser/language/SystemFunctions.java:161-166 | `undef name*` removes matching keys from a map while iterating over that map's key set | two user functions `ab` and `ac` and `undef('a*')`: after the first removal, the key-set iterator's next step throws ConcurrentModificationException | every key starting with the prefix is removed and every other key stays | not executed | SysFuncs.TwoMatchesThrow | SysFuncs.Undef |
| src/main/java/adsen/scarpet/interpreter/parser/language/Operators.java:21-36 | `=`, `+=` and `<>` are registered with the precedence of the group `assign=<>` (lines 91, 118, 152), which the table does not hold; unboxing the missing entry throws | registering the operators of any new expression: NullPointerException | the assignment operators get a precedence of their own and registration succeeds | not executed | Registry.AssignmentRegistrationCrashes | Registry.CorrectedRegistration |

`Scan` uses the as-written typing `LexSpec.BracketType`, so the parser and
interpreter run on the tokens the source's tokenizer produces; the corrected
half of the first finding shows what the intended typing gives on the same
programs. For the second and third findings the rest of the model uses the
corrected behaviour: `SysFuncs.Undef` removes every matching key, and the
precedence of the assignment group is a parameter.
