/**
 * Small programs and what the code generator makes of them.
 */
module LoweringExamples {
  import opened Sexpr
  import opened Lowering

  /** The world in which `run` lowers the program: `main` is open. */
  function MainWorld(): World
  {
    Opened(World(Builtins(), []), Sym("main"), [])
  }

  /** The scope of `main`'s body: no parameters, block 0. */
  function MainScope(): State
  {
    State(map[], 0)
  }

  /** `main`'s block, as the only function. */
  lemma MainCode(code: seq<Instr>)
    ensures WithCode(MainWorld(), 0, code) == World(MainWorld().symbols, [Function(Sym("main"), 0, code)])
  {
    assert MainWorld().funcs == [Function(Sym("main"), 0, [])];
  }

  /** Replacing a block twice keeps the second replacement. */
  lemma WithCodeTwice(w: World, fn: nat, a: seq<Instr>, b: seq<Instr>)
    requires fn < |w.funcs|
    ensures WithCode(WithCode(w, fn, a), fn, b) == WithCode(w, fn, b)
  {
  }

  /** Lowering a sequence one more element at a time. */
  lemma GenAllPush(w: World, st: State, es: seq<SExpr>, l: LoweredAll, e: SExpr, x: Lowered)
    requires st.fn < |w.funcs|
    requires GenAll(w, st, es) == Ok(l) && Gen(l.world, st, e) == Ok(x)
    ensures GenAll(w, st, es + [e]) == Ok(LoweredAll(x.world, l.values + [x.value]))
  {
    assert (es + [e])[..|es|] == es;
  }

  /** A one-expression program: `main` returns that expression's value. */
  lemma RunSingle(e: SExpr, x: Lowered)
    requires Gen(MainWorld(), MainScope(), e) == Ok(x)
    ensures Run([e]) == Ok(Lowered(WithCode(x.world, 0, x.world.funcs[0].code + [Ret(x.value)]), Func(0)))
  {
    assert ParamMap(0, []) == Some(map[]);
    GenAllPush(MainWorld(), MainScope(), [], LoweredAll(MainWorld(), []), e, x);
    assert [] + [e] == [e];
    assert [] + [x.value] == [x.value];
  }

  /** A list that is not a definition: its elements, then the dispatch on them. */
  lemma GenListOf(w: World, st: State, es: seq<SExpr>, l: LoweredAll)
    requires st.fn < |w.funcs| && !(es != [] && es[0] == Sym("defn")) && GenAll(w, st, es) == Ok(l)
    ensures var (code, v) := Apply(l.world.funcs[st.fn].code, st.fn, l.values);
            Gen(w, st, List(es)) == Ok(Lowered(WithCode(l.world, st.fn, code), v))
  {
  }

  /** A definition with a parameter map: the body's values, then the `ret`. */
  lemma DefnOf(w: World, name: SExpr, formals: seq<SExpr>, params: map<SExpr, Value>,
               body: seq<SExpr>, l: LoweredAll)
    requires ParamMap(|w.funcs|, formals) == Some(params)
    requires GenAll(Opened(w, name, formals), State(params, |w.funcs|), body) == Ok(l)
    requires l.values != [] && |w.funcs| < |l.world.funcs|
    ensures Defn(w, name, formals, body)
            == Ok(Lowered(WithCode(l.world, |w.funcs|, l.world.funcs[|w.funcs|].code + [Ret(Last(l.values))]),
                          Func(|w.funcs|)))
  {
  }

  /** A program that is a single integer: `main` returns that constant. */
  lemma ConstantProgram(n: int)
    ensures Run([Int(n)])
            == Ok(Lowered(World(Builtins()[Sym("main") := Func(0)],
                                [Function(Sym("main"), 0, [Ret(Const(n))])]),
                          Func(0)))
  {
    RunSingle(Int(n), Lowered(MainWorld(), Const(n)));
    assert [] + [Ret(Const(n))] == [Ret(Const(n))];
    MainCode([Ret(Const(n))]);
  }

  lemma SumElements()
    ensures GenAll(MainWorld(), MainScope(), [Sym("+"), Int(1), Int(2), Int(3)])
            == Ok(LoweredAll(MainWorld(), [Builtin(Add), Const(1), Const(2), Const(3)]))
  {
    var w, st := MainWorld(), MainScope();
    assert Gen(w, st, Sym("+")) == Ok(Lowered(w, Builtin(Add)));
    GenAllPush(w, st, [], LoweredAll(w, []), Sym("+"), Lowered(w, Builtin(Add)));
    assert [] + [Sym("+")] == [Sym("+")] && [] + [Builtin(Add)] == [Builtin(Add)];
    GenAllPush(w, st, [Sym("+")], LoweredAll(w, [Builtin(Add)]), Int(1), Lowered(w, Const(1)));
    assert [Sym("+")] + [Int(1)] == [Sym("+"), Int(1)];
    assert [Builtin(Add)] + [Const(1)] == [Builtin(Add), Const(1)];
    GenAllPush(w, st, [Sym("+"), Int(1)], LoweredAll(w, [Builtin(Add), Const(1)]), Int(2), Lowered(w, Const(2)));
    assert [Sym("+"), Int(1)] + [Int(2)] == [Sym("+"), Int(1), Int(2)];
    assert [Builtin(Add), Const(1)] + [Const(2)] == [Builtin(Add), Const(1), Const(2)];
    GenAllPush(w, st, [Sym("+"), Int(1), Int(2)], LoweredAll(w, [Builtin(Add), Const(1), Const(2)]),
               Int(3), Lowered(w, Const(3)));
    assert [Sym("+"), Int(1), Int(2)] + [Int(3)] == [Sym("+"), Int(1), Int(2), Int(3)];
    assert [Builtin(Add), Const(1), Const(2)] + [Const(3)] == [Builtin(Add), Const(1), Const(2), Const(3)];
  }

  lemma SumFold()
    ensures Fold([], 0, Add, [Const(1), Const(2), Const(3)])
            == ([Bin(Add, Const(1), Const(2)), Bin(Add, Reg(0, 0), Const(3))], Reg(0, 1))
  {
    var args := [Const(1), Const(2), Const(3)];
    assert args[..2] == [Const(1), Const(2)];
    assert [Const(1), Const(2)][..1] == [Const(1)];
    assert Fold([], 0, Add, [Const(1)]) == ([], Const(1));
    assert [] + [Bin(Add, Const(1), Const(2))] == [Bin(Add, Const(1), Const(2))];
    assert [Bin(Add, Const(1), Const(2))] + [Bin(Add, Reg(0, 0), Const(3))]
           == [Bin(Add, Const(1), Const(2)), Bin(Add, Reg(0, 0), Const(3))];
    assert Fold([], 0, Add, [Const(1), Const(2)]) == ([Bin(Add, Const(1), Const(2))], Reg(0, 0));
  }

  /** `(+ 1 2 3)` folds left to right through registers. */
  lemma ExampleSum()
    ensures Run([List([Sym("+"), Int(1), Int(2), Int(3)])]).Ok?
    ensures Run([List([Sym("+"), Int(1), Int(2), Int(3)])]).value.world.funcs
            == [Function(Sym("main"), 0,
                  [Bin(Add, Const(1), Const(2)), Bin(Add, Reg(0, 0), Const(3)), Ret(Reg(0, 1))])]
  {
    var w := MainWorld();
    var code := [Bin(Add, Const(1), Const(2)), Bin(Add, Reg(0, 0), Const(3))];
    var es := [Sym("+"), Int(1), Int(2), Int(3)];
    var vs := [Builtin(Add), Const(1), Const(2), Const(3)];
    SumElements();
    SumFold();
    assert vs[1..] == [Const(1), Const(2), Const(3)];
    GenListOf(w, MainScope(), es, LoweredAll(w, vs));
    assert w.funcs[0].code == [];
    assert Gen(w, MainScope(), List(es)) == Ok(Lowered(WithCode(w, 0, code), Reg(0, 1)));
    assert WithCode(w, 0, code).funcs[0].code == code;
    RunSingle(List(es), Lowered(WithCode(w, 0, code), Reg(0, 1)));
    assert [] + code == code;
    WithCodeTwice(w, 0, code, code + [Ret(Reg(0, 1))]);
    MainCode(code + [Ret(Reg(0, 1))]);
    assert code + [Ret(Reg(0, 1))]
           == [Bin(Add, Const(1), Const(2)), Bin(Add, Reg(0, 0), Const(3)), Ret(Reg(0, 1))];
  }

  /** The world in which `(defn f (n) ...)` lowers its body, and the body's scope. */
  function FWorld(): World
  {
    Opened(MainWorld(), Sym("f"), [Sym("n")])
  }

  function FScope(): State
  {
    State(map[Sym("n") := Param(1, 0)], 1)
  }

  lemma FParams()
    ensures ParamMap(1, [Sym("n")]) == Some(FScope().params)
  {
    assert [Sym("n")][..0] == [];
    assert Spread([Sym("n")]) == [Atom(Sym("n")), Incoming(0)];
    assert [Atom(Sym("n")), Incoming(0)][..0] == [];
  }

  lemma FCallElements()
    ensures GenAll(FWorld(), FScope(), [Sym("f"), Sym("n")])
            == Ok(LoweredAll(FWorld(), [Func(1), Param(1, 0)]))
  {
    var w, st := FWorld(), FScope();
    assert Gen(w, st, Sym("f")) == Ok(Lowered(w, Func(1)));
    GenAllPush(w, st, [], LoweredAll(w, []), Sym("f"), Lowered(w, Func(1)));
    assert [] + [Sym("f")] == [Sym("f")] && [] + [Func(1)] == [Func(1)];
    GenAllPush(w, st, [Sym("f")], LoweredAll(w, [Func(1)]), Sym("n"), Lowered(w, Param(1, 0)));
    assert [Sym("f")] + [Sym("n")] == [Sym("f"), Sym("n")];
    assert [Func(1)] + [Param(1, 0)] == [Func(1), Param(1, 0)];
  }

  lemma FBody()
    ensures GenAll(FWorld(), FScope(), [List([Sym("f"), Sym("n")])])
            == Ok(LoweredAll(WithCode(FWorld(), 1, [Call(Func(1), [Param(1, 0)])]), [Reg(1, 0)]))
  {
    var w, st := FWorld(), FScope();
    var e := List([Sym("f"), Sym("n")]);
    FCallElements();
    assert [Func(1), Param(1, 0)][1..] == [Param(1, 0)];
    assert w.funcs[1].code == [];
    GenListOf(w, st, e.elems, LoweredAll(w, [Func(1), Param(1, 0)]));
    assert [] + [Call(Func(1), [Param(1, 0)])] == [Call(Func(1), [Param(1, 0)])];
    var x := Lowered(WithCode(w, 1, [Call(Func(1), [Param(1, 0)])]), Reg(1, 0));
    assert Gen(w, st, e) == Ok(x);
    GenAllPush(w, st, [], LoweredAll(w, []), e, x);
    assert [] + [e] == [e] && [] + [Reg(1, 0)] == [Reg(1, 0)];
  }

  lemma FDefn()
    ensures var code := [Call(Func(1), [Param(1, 0)]), Ret(Reg(1, 0))];
            Gen(MainWorld(), MainScope(),
                List([Sym("defn"), Sym("f"), List([Sym("n")]), List([Sym("f"), Sym("n")])]))
            == Ok(Lowered(WithCode(FWorld(), 1, code), Func(1)))
  {
    var call := [Call(Func(1), [Param(1, 0)])];
    var w3 := WithCode(FWorld(), 1, call);
    FParams();
    FBody();
    DefnOf(MainWorld(), Sym("f"), [Sym("n")], FScope().params, [List([Sym("f"), Sym("n")])],
           LoweredAll(w3, [Reg(1, 0)]));
    assert call + [Ret(Reg(1, 0))] == [Call(Func(1), [Param(1, 0)]), Ret(Reg(1, 0))];
    WithCodeTwice(FWorld(), 1, call, call + [Ret(Reg(1, 0))]);
    var e := List([Sym("defn"), Sym("f"), List([Sym("n")]), List([Sym("f"), Sym("n")])]);
    assert e.elems[3..] == [List([Sym("f"), Sym("n")])];
  }

  /** A function that calls itself: its name is bound while its body is lowered. */
  lemma ExampleRecursion()
    ensures var p := [List([Sym("defn"), Sym("f"), List([Sym("n")]), List([Sym("f"), Sym("n")])])];
            && Run(p).Ok?
            && Run(p).value.world.funcs
               == [Function(Sym("main"), 0, [Ret(Func(1))]),
                   Function(Sym("f"), 1, [Call(Func(1), [Param(1, 0)]), Ret(Reg(1, 0))])]
  {
    var code := [Call(Func(1), [Param(1, 0)]), Ret(Reg(1, 0))];
    var w4 := WithCode(FWorld(), 1, code);
    var e := List([Sym("defn"), Sym("f"), List([Sym("n")]), List([Sym("f"), Sym("n")])]);
    FDefn();
    RunSingle(e, Lowered(w4, Func(1)));
    assert w4.funcs[0].code + [Ret(Func(1))] == [Ret(Func(1))];
  }

  /** A definition without a parameter list raises. */
  lemma ExampleMissingParams()
    ensures Run([List([Sym("defn"), Sym("f")])]) == Fail(ParamsNotList)
    ensures Run([List([Sym("defn"), Sym("f"), Int(3), Int(1)])]) == Fail(ParamsNotList)
  {
  }

  /** A nested formal of two atoms leaves `Hash[]` an odd number of items. */
  lemma ExampleOddFormals()
    ensures Run([List([Sym("defn"), Sym("f"), List([List([Sym("a"), Sym("b")])]), Int(1)])])
            == Fail(OddHashArguments)
  {
  }

  /** `((a b c))`: one formal whose flattened atoms pair up with its parameter. */
  function Triple(): SExpr
  {
    List([Sym("a"), Sym("b"), Sym("c")])
  }

  function GWorld(): World
  {
    Opened(MainWorld(), Sym("g"), [Triple()])
  }

  function GScope(): State
  {
    State(map[Sym("a") := Datum(Sym("b")), Sym("c") := Param(1, 0)], 1)
  }

  lemma TripleFlatten()
    ensures Flatten(Triple()) == [Sym("a"), Sym("b"), Sym("c")]
  {
    var es := Triple().elems;
    assert es[1..] == [Sym("b"), Sym("c")] && es[1..][1..] == [Sym("c")] && es[1..][1..][1..] == [];
  }

  lemma GParams()
    ensures ParamMap(1, [Triple()]) == Some(GScope().params)
  {
    TripleFlatten();
    var xs := [Sym("a"), Sym("b"), Sym("c")];
    assert xs[1..] == [Sym("b"), Sym("c")] && xs[1..][1..] == [Sym("c")] && xs[1..][1..][1..] == [];
    assert Atoms(xs) == [Atom(Sym("a")), Atom(Sym("b")), Atom(Sym("c"))];
    assert [Triple()][..0] == [];
    var items := [Atom(Sym("a")), Atom(Sym("b")), Atom(Sym("c")), Incoming(0)];
    assert Spread([Triple()]) == items;
    assert items[..2] == [Atom(Sym("a")), Atom(Sym("b"))] && items[..2][..0] == [];
    assert HashOf(items[..2], 1) == map[Sym("a") := Datum(Sym("b"))];
  }

  lemma GSumElements()
    ensures GenAll(GWorld(), GScope(), [Sym("+"), Sym("a"), Sym("c")])
            == Ok(LoweredAll(GWorld(), [Builtin(Add), Datum(Sym("b")), Param(1, 0)]))
  {
    var w, st := GWorld(), GScope();
    assert Gen(w, st, Sym("+")) == Ok(Lowered(w, Builtin(Add)));
    GenAllPush(w, st, [], LoweredAll(w, []), Sym("+"), Lowered(w, Builtin(Add)));
    assert [] + [Sym("+")] == [Sym("+")] && [] + [Builtin(Add)] == [Builtin(Add)];
    GenAllPush(w, st, [Sym("+")], LoweredAll(w, [Builtin(Add)]), Sym("a"), Lowered(w, Datum(Sym("b"))));
    assert [Sym("+")] + [Sym("a")] == [Sym("+"), Sym("a")];
    assert [Builtin(Add)] + [Datum(Sym("b"))] == [Builtin(Add), Datum(Sym("b"))];
    GenAllPush(w, st, [Sym("+"), Sym("a")], LoweredAll(w, [Builtin(Add), Datum(Sym("b"))]),
               Sym("c"), Lowered(w, Param(1, 0)));
    assert [Sym("+"), Sym("a")] + [Sym("c")] == [Sym("+"), Sym("a"), Sym("c")];
    assert [Builtin(Add), Datum(Sym("b"))] + [Param(1, 0)] == [Builtin(Add), Datum(Sym("b")), Param(1, 0)];
  }

  lemma GBody()
    ensures GenAll(GWorld(), GScope(), [List([Sym("+"), Sym("a"), Sym("c")])])
            == Ok(LoweredAll(WithCode(GWorld(), 1, [Bin(Add, Datum(Sym("b")), Param(1, 0))]), [Reg(1, 0)]))
  {
    var w, st := GWorld(), GScope();
    var e := List([Sym("+"), Sym("a"), Sym("c")]);
    var args := [Datum(Sym("b")), Param(1, 0)];
    GSumElements();
    assert [Builtin(Add), Datum(Sym("b")), Param(1, 0)][1..] == args && args[..1] == [Datum(Sym("b"))];
    assert w.funcs[1].code == [];
    assert [] + [Bin(Add, Datum(Sym("b")), Param(1, 0))] == [Bin(Add, Datum(Sym("b")), Param(1, 0))];
    assert Fold([], 1, Add, args) == ([Bin(Add, Datum(Sym("b")), Param(1, 0))], Reg(1, 0));
    GenListOf(w, st, e.elems, LoweredAll(w, [Builtin(Add), Datum(Sym("b")), Param(1, 0)]));
    var x := Lowered(WithCode(w, 1, [Bin(Add, Datum(Sym("b")), Param(1, 0))]), Reg(1, 0));
    assert Gen(w, st, e) == Ok(x);
    GenAllPush(w, st, [], LoweredAll(w, []), e, x);
    assert [] + [e] == [e] && [] + [Reg(1, 0)] == [Reg(1, 0)];
  }

  /**
   * A nested formal of three atoms pairs them up: the first atom names the
   * second as a value, and the third names the incoming parameter.
   */
  lemma GDefn()
    ensures var code := [Bin(Add, Datum(Sym("b")), Param(1, 0)), Ret(Reg(1, 0))];
            Gen(MainWorld(), MainScope(),
                List([Sym("defn"), Sym("g"), List([Triple()]), List([Sym("+"), Sym("a"), Sym("c")])]))
            == Ok(Lowered(WithCode(GWorld(), 1, code), Func(1)))
  {
    var code := [Bin(Add, Datum(Sym("b")), Param(1, 0))];
    var sum := List([Sym("+"), Sym("a"), Sym("c")]);
    var w3 := WithCode(GWorld(), 1, code);
    GParams();
    GBody();
    DefnOf(MainWorld(), Sym("g"), [Triple()], GScope().params, [sum], LoweredAll(w3, [Reg(1, 0)]));
    assert code + [Ret(Reg(1, 0))] == [Bin(Add, Datum(Sym("b")), Param(1, 0)), Ret(Reg(1, 0))];
    WithCodeTwice(GWorld(), 1, code, code + [Ret(Reg(1, 0))]);
    var e := List([Sym("defn"), Sym("g"), List([Triple()]), sum]);
    assert e.elems[3..] == [sum];
  }

  lemma ExampleNestedFormals()
    ensures var p := [List([Sym("defn"), Sym("g"), List([Triple()]), List([Sym("+"), Sym("a"), Sym("c")])])];
            && Run(p).Ok?
            && Run(p).value.world.funcs[1]
               == Function(Sym("g"), 1, [Bin(Add, Datum(Sym("b")), Param(1, 0)), Ret(Reg(1, 0))])
  {
    var code := [Bin(Add, Datum(Sym("b")), Param(1, 0)), Ret(Reg(1, 0))];
    var e := List([Sym("defn"), Sym("g"), List([Triple()]), List([Sym("+"), Sym("a"), Sym("c")])]);
    GDefn();
    RunSingle(e, Lowered(WithCode(GWorld(), 1, code), Func(1)));
  }

  /** `(defn + (a b) a)`: the builtin's name now names function 1. */
  function PlusWorld(): World
  {
    Opened(MainWorld(), Sym("+"), [Sym("a"), Sym("b")])
  }

  function PlusScope(): State
  {
    State(map[Sym("a") := Param(1, 0), Sym("b") := Param(1, 1)], 1)
  }

  function Replacement(): SExpr
  {
    List([Sym("defn"), Sym("+"), List([Sym("a"), Sym("b")]), Sym("a")])
  }

  lemma PlusParams()
    ensures ParamMap(1, [Sym("a"), Sym("b")]) == Some(PlusScope().params)
  {
    var formals := [Sym("a"), Sym("b")];
    assert formals[..1] == [Sym("a")] && formals[..1][..0] == [];
    assert [Sym("a")][1..] == [] && [Sym("b")][1..] == [];
    assert Spread([Sym("a")]) == [Atom(Sym("a")), Incoming(0)];
    var items := [Atom(Sym("a")), Incoming(0), Atom(Sym("b")), Incoming(1)];
    assert Spread(formals) == items;
    assert items[..2] == [Atom(Sym("a")), Incoming(0)] && items[..2][..0] == [];
    assert HashOf(items[..2], 1) == map[Sym("a") := Param(1, 0)];
  }

  lemma PlusDefn()
    ensures Gen(MainWorld(), MainScope(), Replacement())
            == Ok(Lowered(WithCode(PlusWorld(), 1, [Ret(Param(1, 0))]), Func(1)))
  {
    var w, st := PlusWorld(), PlusScope();
    PlusParams();
    GenAllPush(w, st, [], LoweredAll(w, []), Sym("a"), Lowered(w, Param(1, 0)));
    assert [] + [Sym("a")] == [Sym("a")] && [] + [Param(1, 0)] == [Param(1, 0)];
    DefnOf(MainWorld(), Sym("+"), [Sym("a"), Sym("b")], st.params, [Sym("a")], LoweredAll(w, [Param(1, 0)]));
    assert Replacement().elems[3..] == [Sym("a")];
    assert w.funcs[1].code + [Ret(Param(1, 0))] == [Ret(Param(1, 0))];
  }

  lemma PlusCall(w: World)
    requires w == WithCode(PlusWorld(), 1, [Ret(Param(1, 0))])
    ensures Gen(w, MainScope(), List([Sym("+"), Int(1), Int(2)]))
            == Ok(Lowered(WithCode(w, 0, [Call(Func(1), [Const(1), Const(2)])]), Reg(0, 0)))
  {
    var st := MainScope();
    assert Gen(w, st, Sym("+")) == Ok(Lowered(w, Func(1)));
    GenAllPush(w, st, [], LoweredAll(w, []), Sym("+"), Lowered(w, Func(1)));
    assert [] + [Sym("+")] == [Sym("+")] && [] + [Func(1)] == [Func(1)];
    GenAllPush(w, st, [Sym("+")], LoweredAll(w, [Func(1)]), Int(1), Lowered(w, Const(1)));
    assert [Sym("+")] + [Int(1)] == [Sym("+"), Int(1)] && [Func(1)] + [Const(1)] == [Func(1), Const(1)];
    GenAllPush(w, st, [Sym("+"), Int(1)], LoweredAll(w, [Func(1), Const(1)]), Int(2), Lowered(w, Const(2)));
    assert [Sym("+"), Int(1)] + [Int(2)] == [Sym("+"), Int(1), Int(2)];
    assert [Func(1), Const(1)] + [Const(2)] == [Func(1), Const(1), Const(2)];
    assert [Func(1), Const(1), Const(2)][1..] == [Const(1), Const(2)];
    assert w.funcs[0].code == [];
    GenListOf(w, st, [Sym("+"), Int(1), Int(2)], LoweredAll(w, [Func(1), Const(1), Const(2)]));
    assert [] + [Call(Func(1), [Const(1), Const(2)])] == [Call(Func(1), [Const(1), Const(2)])];
  }

  lemma ReplacementProgram()
    ensures var w3 := WithCode(PlusWorld(), 1, [Ret(Param(1, 0))]);
            GenAll(MainWorld(), MainScope(), [Replacement(), List([Sym("+"), Int(1), Int(2)])])
            == Ok(LoweredAll(WithCode(w3, 0, [Call(Func(1), [Const(1), Const(2)])]), [Func(1), Reg(0, 0)]))
  {
    var w, st := MainWorld(), MainScope();
    var d, u := Replacement(), List([Sym("+"), Int(1), Int(2)]);
    var w3 := WithCode(PlusWorld(), 1, [Ret(Param(1, 0))]);
    var w4 := WithCode(w3, 0, [Call(Func(1), [Const(1), Const(2)])]);
    PlusDefn();
    PlusCall(w3);
    GenAllPush(w, st, [], LoweredAll(w, []), d, Lowered(w3, Func(1)));
    assert [] + [d] == [d] && [] + [Func(1)] == [Func(1)];
    GenAllPush(w, st, [d], LoweredAll(w3, [Func(1)]), u, Lowered(w4, Reg(0, 0)));
    assert [d] + [u] == [d, u] && [Func(1)] + [Reg(0, 0)] == [Func(1), Reg(0, 0)];
  }

  /** Defining a builtin's name replaces it: later uses call the function. */
  lemma ExampleReplaceBuiltin()
    ensures var p := [Replacement(), List([Sym("+"), Int(1), Int(2)])];
            && Run(p).Ok?
            && Run(p).value.world.funcs
               == [Function(Sym("main"), 0, [Call(Func(1), [Const(1), Const(2)]), Ret(Reg(0, 0))]),
                   Function(Sym("+"), 2, [Ret(Param(1, 0))])]
  {
    var p := [Replacement(), List([Sym("+"), Int(1), Int(2)])];
    var call := [Call(Func(1), [Const(1), Const(2)])];
    var w3 := WithCode(PlusWorld(), 1, [Ret(Param(1, 0))]);
    var w4 := WithCode(w3, 0, call);
    ReplacementProgram();
    assert ParamMap(0, []) == Some(map[]);
    DefnOf(World(Builtins(), []), Sym("main"), [], map[], p, LoweredAll(w4, [Func(1), Reg(0, 0)]));
    WithCodeTwice(w3, 0, call, call + [Ret(Reg(0, 0))]);
    assert call + [Ret(Reg(0, 0))] == [Call(Func(1), [Const(1), Const(2)]), Ret(Reg(0, 0))];
  }

  /** An unknown name lowers to `nil`. */
  lemma ExampleUnknownName()
    ensures Run([Sym("x")]).Ok?
    ensures Run([Sym("x")]).value.world.funcs == [Function(Sym("main"), 0, [Ret(Nil)])]
  {
    assert Sym("x") !in MainWorld().symbols;
    RunSingle(Sym("x"), Lowered(MainWorld(), Nil));
    assert [] + [Ret(Nil)] == [Ret(Nil)];
    MainCode([Ret(Nil)]);
  }
}
