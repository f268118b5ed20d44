# toy-compiler in Dafny

A model of the two pieces of logic in the toy compiler. Both are proved
correct against their own specifications.

- **The reader** (`SexprParser`, parse.rb). This is a PEG grammar that reads
  text into a tree of integers, strings, symbols and lists, plus the
  translator that turns each match into a Ruby value. `SexprParser`
  (parser.dfy) writes each rule as a function from the input to the
  translated tree and the unconsumed input. Choice is ordered, and
  repetition is greedy with no backtracking. `ParserProps`
  (parser_props.dfy) adds a printer and proves that reading printed text
  gives the tree back. It also restates the self-test inputs of parse.rb
  as proved facts, along with the corners of the grammar.
- **The code generator** (`Compile`, compile.rb). This lowers a tree into
  instructions, one function at a time:
  - integers become constants;
  - names resolve against the current function's parameter map, then
    against the global table `@symbols`, which starts as the four
    `BUILTINS`;
  - `(defn name (formals) body...)` adds and binds a function;
  - any other list lowers all its elements, then either folds the
    remaining values with a builtin head or calls the head with them.

  The LLVM builder becomes an instruction log: each function has one
  block of `Bin`, `Call` and `Ret` instructions over symbolic values.
  - `Lowering` (lowering.dfy) states what lowering computes, as pure
    functions over a `World`, which is the table plus the functions.
  - `Compiler.Compile` (compiler.dfy) is the object itself. It has fields
    `symbols` and `funcs`, which its methods update in place. Each method
    is proved to compute exactly what `Lowering` describes.
  - `LoweringProps` (lowering_props.dfy) proves:
    - resolution order;
    - frame properties: functions are only added, and blocks only grow;
    - name binding before the body is lowered;
    - the shape of the parameter map;
    - left-to-right order;
    - the fold's shape and its meaning as a left-nested term;
    - exactly when lowering raises;
    - the shape of a whole program's module.
  - `LoweringExamples` (lowering_examples.dfy) works through small
    programs.

`Sexpr` (sexpr.dfy) holds the tree type that both halves share.

The code has no `cond`, `let`, `while` or `set!`, no comparison builtins,
no scope chains and no named compile errors, so none are modelled. The
only error cases are the two ways `defn` raises:
- `ParamsNotList`: `argnames.count` on a parameter list that is missing or
  is not a list;
- `OddHashArguments`: `Hash[]` given an odd number of items.

## Model

| member | source | states |
|---|---|---|
| SexprParser.DigitRun | parse.rb:9 | the digit repetition is greedy: every character it takes is a digit (the class IsDigit), and the next one is not |
| SexprParser.SymbolRun | parse.rb:10 | the symbol-character repetition takes the longest prefix with no `(`, `)` or space (the class IsSymbolChar) |
| SexprParser.DigitValue | parse.rb:18 | a digit's value is below ten |
| SexprParser.ParseNumber | parse.rb:9 | a number matches exactly when a digit starts the input or follows a leading `-`; the result is an integer, negative only after `-`, and no digit is left behind |
| SexprParser.StringBody | parse.rb:8 | a string body is empty or starts with a plain character, one other than `"` and `\` (the class IsPlain), and stops at a character that is not plain |
| SexprParser.ParseString | parse.rb:8 | a string match opens with `"`, consumes at least both quotes, yields a string, and its body starts at a plain character or is empty |
| SexprParser.ParseSymbol | parse.rb:10 | a symbol matches exactly when the first character is allowed; its text plus the rest is the input, it holds no `(`, `)` or space, and no allowed character is left behind |
| SexprParser.ParseAtom | parse.rb:7 | an atom is never a list and always consumes input |
| SexprParser.ParseExpr | parse.rb:5 | an expression always consumes input |
| SexprParser.ParseList | parse.rb:6 | a list match starts with `(`, consumes both parentheses and yields a list |
| SexprParser.ParseGroups | parse.rb:6 | the element repetition never fails and never grows the input |
| SexprParser.ParseGroup | parse.rb:6 | a group reads at least one element and consumes input |
| SexprParser.ParseSpaced | parse.rb:6 | the space-separated repetition never fails and never grows the input |
| SexprParser.DecimalValue | parse.rb:18 | `to_i` on a digit string; specified by NatRoundTrip and NumberRoundTrip, which show it inverts decimal printing |
| SexprParser.Unescape | parse.rb:17 | the `gsub` that drops the backslash of each escape pair; specified by UnescapeEscape, and by ExampleBackslashNewline for an escaped line feed |
| SexprParser.Parse | parse.rb:5 | the reader's entry: one expression that consumes the whole input; specified by ParseRoundTrip and the Example lemmas |
| ParserProps.DigitRunOf | parse.rb:9 | the digit run of digits followed by a non-digit is exactly those digits |
| ParserProps.NatRoundTrip | parse.rb:18 | the digits of a natural number, followed by a non-digit, read back as that number with the rest left |
| ParserProps.NegativeRoundTrip | parse.rb:9 | a `-` followed by the digits of n reads back as -n with the rest left |
| ParserProps.NumberRoundTrip | parse.rb:18 | the decimal text of any integer reads back as that integer, with `to_i`'s value and the delimiter left |
| ParserProps.UnescapeEscape | parse.rb:17 | the `gsub` unescaping undoes backslash-escaping of `"` and `\` |
| ParserProps.StringBodyOfEscape | parse.rb:8 | the body rule consumes exactly an escaped printable string |
| ParserProps.StringRoundTrip | parse.rb:17 | a quoted, escaped printable string reads back as the original text |
| ParserProps.EscapeFirstIsNotString | parse.rb:8 | text whose first body character is a backslash is not a string |
| ParserProps.SymbolRunOf | parse.rb:10 | the symbol run of allowed characters before a delimiter is exactly those characters |
| ParserProps.DigitStartIsNumber | parse.rb:7 | input starting with a digit is read as a number, never a symbol |
| ParserProps.MinusWithoutDigitIsSymbol | parse.rb:7 | a lone `-` falls through number to the symbol `-` |
| ParserProps.SymbolRoundTrip | parse.rb:19 | a printable symbol's text reads back as that symbol |
| ParserProps.ExprFailsAtClose | parse.rb:5 | no expression starts with `)` |
| ParserProps.SpacedStep | parse.rb:6 | a space followed by an element continues the repetition with that element first |
| ParserProps.ListStep | parse.rb:6 | `(`, groups, `)` is a list of the groups' elements |
| ParserProps.GroupsStep | parse.rb:6 | a group that ends at `)` is the whole element sequence |
| ParserProps.ExprRoundTrip | parse.rb:5 | every printable tree, printed and followed by a delimiter, reads back as itself with the delimiter left |
| ParserProps.ListRoundTrip | parse.rb:15 | a printed list reads back with its elements in order |
| ParserProps.EmptyListRoundTrip | parse.rb:6 | `()` followed by a delimiter reads as the empty list, with the delimiter left |
| ParserProps.SpacedRoundTrip | parse.rb:6 | space-separated printed elements read back in order, stopping at `)` |
| ParserProps.SpacedCons | parse.rb:6 | one more leading spaced element adds itself at the front |
| ParserProps.SpacedConsRoundTrip | parse.rb:6 | a non-empty spaced sequence reads back in order |
| ParserProps.ParseRoundTrip | parse.rb:5-19 | the whole reader inverts the printer on every printable tree |
| ParserProps.ExampleNumber | parse.rb:27 | `-23` reads as -23 |
| ParserProps.ExampleString | parse.rb:28 | `"foo"` reads as the string foo |
| ParserProps.ExampleSymbol | parse.rb:29 | `foo` reads as the symbol foo |
| ParserProps.ExampleList | parse.rb:30 | the self-test list reads as foo, bar, -, 123 and `zz"to\p`, in order |
| ParserProps.ExampleEmptyList | parse.rb:6 | `()` reads as the empty list |
| ParserProps.NumberThenSymbolNumber | parse.rb:6 | inside a list, `123abc` first yields the number 123 |
| ParserProps.NumberThenSymbolSymbol | parse.rb:6 | the rest `abc` then yields the symbol abc |
| ParserProps.ExampleNumberThenSymbol | parse.rb:6 | `(123abc)` reads as two elements, since elements need no space between them |
| ParserProps.ExampleEscapeFirst | parse.rb:8 | a quote followed by an escape is not a string, so it is read as a symbol |
| ParserProps.ExampleBackslashNewline | parse.rb:17 | unescaping keeps a backslash before a line feed and drops the backslash in `\n` |
| Lowering.Flatten | compile.rb:41 | deep `flatten` leaves no list |
| Lowering.FlattenAll | compile.rb:41 | deep `flatten` of a sequence leaves no list |
| Lowering.Gen | compile.rb:56-85 | a lowering that succeeds never removes a function |
| Lowering.GenAll | compile.rb:69 | lowering a sequence gives one value per element and never removes a function |
| Lowering.GenAllFailPrefix | compile.rb:69 | once an element raises, lowering the rest of the sequence raises the same error |
| Lowering.Defn | compile.rb:33-54 | a definition that succeeds adds a function, and its value is the new function |
| Lowering.Builtins | compile.rb:5-26 | `BUILTINS`: `+`, `-`, `*` and `/` bound to add, sub, mul and sdiv; specified by BuiltinsRegFree, ExampleSum and RunResult's clause that every builtin name stays bound |
| Lowering.Resolve | compile.rb:82 | a name is looked up in the parameter map first, then in `@symbols`, giving `nil` when neither has it; specified by ResolveOrder |
| Lowering.WithCode | compile.rb:73-79 | the world with one block replaced; specified by GenExtends (only the current block changes) and WithCodeTwice |
| Lowering.Emit | compile.rb:73-79 | one builder request: the instruction is appended and its register is the result; specified by Compile.Build and ReadExtend |
| Lowering.Fold | compile.rb:6-25 | a builtin's reduction of a non-empty argument list with one builder operation; specified by FoldShape, FoldReads and FoldGrows, and implemented by Compile.ApplyBuiltin |
| Lowering.Reduce | compile.rb:7 | `reduce` also accepts no arguments and then gives `nil`; specified by GenList's no-argument clause and Compile.ApplyBuiltin |
| Lowering.Apply | compile.rb:70-79 | the dispatch on a lowered list's head; specified by GenList and ApplyGrows |
| Lowering.Spread | compile.rb:37-41 | each formal paired with its incoming parameter, flattened into items; specified by SpreadOfAtoms |
| Lowering.HashOf | compile.rb:41 | the hash of the flattened items, consecutive items being key and value and a later key winning; specified by HashOfValues and ParamMapStep |
| Lowering.ParamMap | compile.rb:37-42 | the parameter map of a definition, or the `Hash[]` error; specified by ParamMapOfAtoms, ParamMapStep, ParamMapRegFree and DefnFailsIff |
| Lowering.Opened | compile.rb:34-35 | the function added and its name bound before the body is lowered; specified by DefnBindsName |
| Lowering.Run | compile.rb:90 | the program lowered as the body of a parameterless `main`; specified by RunResult and ConstantProgram, and implemented by Compile.Run |
| Compiler.Compile.constructor | compile.rb:28-31 | the table starts as the builtins and there are no functions |
| Compiler.Compile.Build | compile.rb:73-79 | one instruction is appended to the chosen block, and its register is returned |
| Compiler.Compile.ApplyBuiltin | compile.rb:5-26 | a builtin's reduce loop leaves the block and value that the fold specification gives, and `nil` when there are no arguments |
| Compiler.Compile.Gen | compile.rb:56-85 | hands back the state it was given; on success, the new table and functions and the value are those of `Lowering.Gen`; otherwise it reports the same error |
| Compiler.Compile.Defn | compile.rb:33-54 | the object ends as `Lowering.Defn` says, with the same value or the same error |
| Compiler.Compile.Run | compile.rb:87-90 | lowers the program as the body of `main`; on a new object this is `Lowering.Run` |
| LoweringProps.ResolveOrder | compile.rb:82 | a parameter shadows a global; otherwise the global is used; no value exactly when neither has the name |
| LoweringProps.GenAtom | compile.rb:59-60 | an integer lowers to the constant of the same value, and a name to its resolution; the world is unchanged |
| LoweringProps.FoldGrows | compile.rb:7-9 | a fold only appends instructions to the block, and never a `ret` |
| LoweringProps.ApplyGrows | compile.rb:73-79 | the dispatch on a lowered list only appends, and never a `ret` |
| LoweringProps.GenExtends | compile.rb:56-85 | lowering into a block changes only that block, by appending; functions are only added, each complete; a changed binding names an added function |
| LoweringProps.GenAllExtends | compile.rb:69 | the same holds for a sequence of expressions |
| LoweringProps.DefnAdds | compile.rb:33-54 | a definition leaves every existing function unchanged and adds complete ones |
| LoweringProps.DefnReturnsLast | compile.rb:45-52 | the new function has the given name and arity and ends in a single `ret` of the last body value, or `nil` if the body is empty |
| LoweringProps.GenNoDefn | compile.rb:35 | without a definition, lowering changes neither the table nor the number of functions |
| LoweringProps.GenAllNoDefn | compile.rb:69 | the same holds for a sequence without a definition |
| LoweringProps.DefnBindsName | compile.rb:34-35 | the name is bound to the new function while its body is lowered, so a self-call resolves; with no nested definition the table gains just that binding, replacing any builtin of that name |
| LoweringProps.SpreadOfAtoms | compile.rb:37-41 | plain formals give two flattened items each: the name, then its incoming parameter |
| LoweringProps.ParamMapStep | compile.rb:41 | the map of the formals is the map of all but the last, with the last formal bound to its parameter |
| LoweringProps.PairsFormalsStep | compile.rb:37-42 | pairing the formals with their parameters is preserved by adding a formal |
| LoweringProps.ParamMapOfAtoms | compile.rb:37-42 | plain formals give a map that binds each formal, and nothing else, to the incoming parameter of its last position |
| LoweringProps.BodyScope | compile.rb:42 | in a body, a name that is not a formal resolves only through the global table, so the enclosing function's parameters are not visible |
| LoweringProps.GenAllInOrder | compile.rb:69 | the i-th value is element i lowered in the world that the elements before it left |
| LoweringProps.FoldShape | compile.rb:7-9 | a fold of n values appends n-1 binary instructions, each combining the previous register with the next value; one value is returned unchanged |
| LoweringProps.ReadExtend | compile.rb:73-79 | appending to a block does not change what an earlier value computes |
| LoweringProps.FoldReads | compile.rb:6-25 | the fold computes `((a1 op a2) op a3)...` over the arguments |
| LoweringProps.GenSettled | compile.rb:56-85 | every value lowering returns refers only to instructions already emitted |
| LoweringProps.GenAllSettled | compile.rb:69 | the same holds for each value of a sequence |
| LoweringProps.GenList | compile.rb:69-79 | a list with a builtin head computes the left fold of the remaining values; one argument is returned unchanged and no arguments give `nil`, with nothing emitted; any other head emits one call of the head with the remaining values in order |
| LoweringProps.HashOfValues | compile.rb:41 | `Hash[]` of the flattened formals binds only atoms of the formals and incoming parameters of the new function |
| LoweringProps.ParamMapRegFree | compile.rb:37-42 | a definition's parameter map holds no register |
| LoweringProps.BuiltinsRegFree | compile.rb:5-26 | the initial table holds no register |
| LoweringProps.DefnScopeRegFree | compile.rb:34-42 | a body is lowered in a table and a parameter map without registers whenever the enclosing table has none, so GenSettled and GenList apply to every lowering a program performs |
| LoweringProps.ParamMapNilFree | compile.rb:37-42 | a definition's parameter map binds no name to `nil` |
| LoweringProps.BuiltinsNilFree | compile.rb:5-26 | the initial table binds no name to `nil` |
| LoweringProps.GenKeepsNilFree | compile.rb:56-85 | lowering never binds a name to `nil`, so in every scope a program reaches, ResolveOrder's `nil` means the name is unknown |
| LoweringProps.DefnScopeNilFree | compile.rb:34-42 | a body is lowered in a table and a parameter map that bind no name to `nil`, whenever the enclosing table binds none |
| LoweringProps.GenFailsIff | compile.rb:62-67 | lowering raises exactly when a definition it reaches lacks a list of parameters or has an odd number of flattened items |
| LoweringProps.GenAllFailsIff | compile.rb:69 | a sequence raises exactly when one of its elements does |
| LoweringProps.DefnFailsIff | compile.rb:41 | a definition raises exactly when `Hash[]` would get an odd count or its body raises |
| LoweringProps.RunResult | compile.rb:87-90 | a program compiles exactly when it is lowerable; then `main` is function 0, takes no parameters and is bound, every function ends in a single `ret`, every builtin name is still bound, either to its builtin or to a function that replaced it, and `main` ends in a `ret` of the last top-level value, or of `nil` for an empty program |
| LoweringExamples.ConstantProgram | compile.rb:90 | for every integer n, the program `n` gives a module whose only function is `main`, returning the constant n, with `main` bound and the builtins unchanged |
| LoweringExamples.ExampleSum | compile.rb:5-10 | `(+ 1 2 3)` emits two additions chained through a register, then the `ret` |
| LoweringExamples.ExampleRecursion | compile.rb:34-35 | a function that calls itself calls its own handle with its parameter |
| LoweringExamples.ExampleMissingParams | compile.rb:34 | a definition with no parameter list, or with a number in its place, raises |
| LoweringExamples.ExampleOddFormals | compile.rb:41 | a formal made of two atoms makes `Hash[]` raise |
| LoweringExamples.ExampleNestedFormals | compile.rb:37-41 | a formal made of three atoms binds the first to the second atom and the third to the parameter |
| LoweringExamples.ExampleReplaceBuiltin | compile.rb:30-35 | defining `+` replaces the builtin, so a later `(+ 1 2)` calls the new function |
| LoweringExamples.ExampleUnknownName | compile.rb:82 | an unknown name lowers to `nil` |

## Left out

- LLVM module creation, `@m.dump`, JIT initialisation and `run_function`
  (compile.rb:29, 88, 101-104) belong to a foreign library and execution
  engine. The model records builder requests as an instruction list, and
  nothing is executed.
- Names given to LLVM values (`v.name = n.to_s`, compile.rb:38) and the
  names LLVM gives functions. Functions are identified by the order they
  were created in.
- Ruby's `begin`/`rescue` (compile.rb:74-78) is modelled as a dispatch on
  the head's value. A builtin is folded, and anything else becomes a call.
  The model does not capture whether the backend accepts a call of
  something that is not a function (`nil`, a constant, a datum, a
  register). It also does not capture a `nil` operand or `ret nil`.
  A builtin's `Bin` can be emitted with an operand that is not an integer
  value, such as a datum (ExampleNestedFormals emits `Bin(Add, Datum(b), ...)`),
  a function or a builtin; the model records it and does not decide whether
  the builder accepts it. When a builder operation raises partway through a
  fold, Ruby keeps the instructions already emitted and falls into
  `b.call(pred, *args)`; the model always completes the fold.
- An empty list lowers to a call of `nil` with no arguments. In Ruby,
  `[][1..-1]` is `nil`, and the call then raises in the builder. That
  failure is not modelled.
- Integer width, overflow, `sdiv` truncation and division by zero are
  backend and runtime behaviour. Constants are unbounded integers.
- After an error is raised, the `Compile` object's state is not described.
  Ruby would leave the function and binding that `defn` had already added.
- `Hash[]` keys that are incoming LLVM parameters (possible with list
  formals) are dropped from the parameter map. No tree atom can be equal
  to them, so `gen` never looks them up.
- The `neg` library's internals and error reporting, and the mechanics of
  `flattened_results` (parse.rb:1, 15). The grammar's language and the
  element list are modelled. The model assumes that `parse` must consume
  the whole input.
- ParserProps.ParseRoundTrip covers only printable trees. Those are:
  - strings in which every `"` or `\` directly follows a character that is
    neither;
  - symbols that are non-empty, contain no `(`, `)` or space, do not start
    with `"`, and do not read as a number.
- The command-line blocks (compile.rb:108-116, parse.rb:23-31) are not
  modelled, beyond using their inputs as example lemmas. The
  commented-out code (compile.rb:91-99) is not modelled either.
