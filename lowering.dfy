/**
 * What the code generator computes, as pure functions: the lowering of a
 * tree into instructions appended to per-function blocks, the global symbol
 * table it threads through, and the lookup of names.
 *
 * The LLVM builder is replaced by an instruction log. Every function the
 * generator creates is identified by the order of creation and owns one
 * block; an instruction's result is the register naming its position in
 * that block.
 */
module Lowering {
  import opened Sexpr

  /** The four builder operations behind the builtins. */
  datatype Op = Add | Sub | Mul | SDiv

  /**
   * What `gen` can produce. `Nil` is Ruby's `nil` (an unknown name, or the
   * fold of no arguments); `Datum` is a tree atom that a parameter list
   * placed in the parameter map as a value.
   */
  datatype Value =
    | Nil
    | Const(n: int)
    | Param(fn: nat, index: nat)
    | Reg(fn: nat, at: nat)
    | Builtin(op: Op)
    | Func(id: nat)
    | Datum(atom: SExpr)

  datatype Instr =
    | Bin(op: Op, l: Value, r: Value)
    | Call(callee: Value, args: seq<Value>)
    | Ret(v: Value)

  /** A function added to the module: its name, its arity and its one block. */
  datatype Function = Function(name: SExpr, arity: nat, code: seq<Instr>)

  /** The generator's global state: `@symbols` and the module's functions. */
  datatype World = World(symbols: map<SExpr, Value>, funcs: seq<Function>)

  /** The `state` hash: the parameter map (`:sym`) and the block (`:blk`). */
  datatype State = State(params: map<SExpr, Value>, fn: nat)

  /** The two ways a definition raises. */
  datatype Error =
    | ParamsNotList      // counting a parameter list that is missing or not a list (compile.rb:34)
    | OddHashArguments   // `Hash[]` given an odd number of flattened items

  datatype Result<T> = Ok(value: T) | Fail(error: Error)

  datatype Lowered = Lowered(world: World, value: Value)
  datatype LoweredAll = LoweredAll(world: World, values: seq<Value>)

  /** `BUILTINS`: the table `@symbols` starts from. */
  function Builtins(): map<SExpr, Value>
  {
    map[Sym("+") := Builtin(Add), Sym("-") := Builtin(Sub),
        Sym("*") := Builtin(Mul), Sym("/") := Builtin(SDiv)]
  }

  /** A name's value (compile.rb:82): the parameter map first, then the global table, `nil` when neither has it. */
  function Resolve(st: State, symbols: map<SExpr, Value>, x: SExpr): Value
  {
    if x in st.params then st.params[x]
    else if x in symbols then symbols[x]
    else Nil
  }

  function Last<T>(s: seq<T>): T
    requires s != []
  {
    s[|s| - 1]
  }

  /** The world with function `fn`'s block replaced. */
  function WithCode(w: World, fn: nat, code: seq<Instr>): World
    requires fn < |w.funcs|
  {
    w.(funcs := w.funcs[fn := w.funcs[fn].(code := code)])
  }

  /** One builder request: the instruction is appended, its register returned. */
  function Emit(code: seq<Instr>, fn: nat, i: Instr): (seq<Instr>, Value)
  {
    (code + [i], Reg(fn, |code|))
  }

  /** A builtin's reduction (compile.rb:6-25) of a non-empty argument list, nested to the left. */
  function Fold(code: seq<Instr>, fn: nat, op: Op, args: seq<Value>): (seq<Instr>, Value)
    requires args != []
  {
    if |args| == 1 then (code, args[0])
    else
      var (c, acc) := Fold(code, fn, op, args[..|args| - 1]);
      Emit(c, fn, Bin(op, acc, Last(args)))
  }

  /** `reduce` also accepts no arguments, and then yields `nil`. */
  function Reduce(code: seq<Instr>, fn: nat, op: Op, args: seq<Value>): (seq<Instr>, Value)
  {
    if args == [] then (code, Nil) else Fold(code, fn, op, args)
  }

  /**
   * The dispatch on a lowered list: a builtin head folds the rest, anything
   * else (by the `rescue`) becomes a call of the head with the rest.
   */
  function Apply(code: seq<Instr>, fn: nat, vals: seq<Value>): (seq<Instr>, Value)
  {
    var pred := if vals == [] then Nil else vals[0];
    var args := if vals == [] then [] else vals[1..];
    if pred.Builtin? then Reduce(code, fn, pred.op, args)
    else Emit(code, fn, Call(pred, args))
  }

  // ---------------------------------------------------------------------
  // The parameter map of a definition
  // ---------------------------------------------------------------------

  /** An item of `argsyms.flatten`: an atom of a formal, or an incoming parameter. */
  datatype Item = Atom(a: SExpr) | Incoming(index: nat)

  /** Ruby's deep `flatten` of one formal. */
  function Flatten(e: SExpr): (r: seq<SExpr>)
    ensures forall i :: 0 <= i < |r| ==> !r[i].List?
    decreases Size(e), 0
  {
    match e
    case List(es) => FlattenAll(es)
    case _ => [e]
  }

  function FlattenAll(es: seq<SExpr>): (r: seq<SExpr>)
    ensures forall i :: 0 <= i < |r| ==> !r[i].List?
    decreases SizeAll(es), 1
  {
    if es == [] then []
    else
      SizeAllCons(es);
      Flatten(es[0]) + FlattenAll(es[1..])
  }

  function Atoms(xs: seq<SExpr>): (r: seq<Item>)
  {
    if xs == [] then [] else [Atom(xs[0])] + Atoms(xs[1..])
  }

  /** Each formal paired with its incoming parameter, the pairs deeply flattened (compile.rb:37-41). */
  function Spread(formals: seq<SExpr>): seq<Item>
  {
    if formals == [] then []
    else
      var k := |formals| - 1;
      Spread(formals[..k]) + Atoms(Flatten(formals[k])) + [Incoming(k)]
  }

  function ItemValue(it: Item, fi: nat): Value
  {
    match it
    case Atom(a) => Datum(a)
    case Incoming(j) => Param(fi, j)
  }

  /**
   * The hash built from the flattened items (compile.rb:41): consecutive
   * items are key and value, and a later key wins.
   * A key that is an incoming parameter is dropped, because no tree atom
   * that `gen` looks up can be equal to it.
   */
  function HashOf(items: seq<Item>, fi: nat): map<SExpr, Value>
    requires |items| % 2 == 0
  {
    if items == [] then map[]
    else
      var n := |items|;
      var m := HashOf(items[..n - 2], fi);
      if items[n - 2].Atom? then m[items[n - 2].a := ItemValue(items[n - 1], fi)] else m
  }

  /** The parameter map of function `fi`, or `None` where `Hash[]` raises. */
  function ParamMap(fi: nat, formals: seq<SExpr>): Option<map<SExpr, Value>>
  {
    var items := Spread(formals);
    if |items| % 2 == 1 then None else Some(HashOf(items, fi))
  }

  // ---------------------------------------------------------------------
  // Lowering
  // ---------------------------------------------------------------------

  /** `gen(state, expr)`: the new world and the expression's value. */
  function Gen(w: World, st: State, e: SExpr): (r: Result<Lowered>)
    requires st.fn < |w.funcs|
    ensures r.Ok? ==> |r.value.world.funcs| >= |w.funcs|
    decreases Size(e), 0
  {
    match e
    case Int(n) => Ok(Lowered(w, Const(n)))
    case List(es) =>
      if es != [] && es[0] == Sym("defn") then
        if |es| < 3 || !es[2].List? then Fail(ParamsNotList)
        else
          SizeAllSplit(es, 3);
          Defn(w, es[1], es[2].elems, es[3..])
      else
        match GenAll(w, st, es) {
          case Fail(err) => Fail(err)
          case Ok(l) =>
            var (code, v) := Apply(l.world.funcs[st.fn].code, st.fn, l.values);
            Ok(Lowered(WithCode(l.world, st.fn, code), v))
        }
    case _ => Ok(Lowered(w, Resolve(st, w.symbols, e)))
  }

  /** Lowering every element of a list (compile.rb:69), left to right. */
  function GenAll(w: World, st: State, es: seq<SExpr>): (r: Result<LoweredAll>)
    requires st.fn < |w.funcs|
    ensures r.Ok? ==> |r.value.world.funcs| >= |w.funcs| && |r.value.values| == |es|
    decreases SizeAll(es), 1
  {
    if es == [] then Ok(LoweredAll(w, []))
    else
      SizeAllLast(es);
      match GenAll(w, st, es[..|es| - 1])
      case Fail(err) => Fail(err)
      case Ok(l) =>
        match Gen(l.world, st, Last(es))
        case Fail(err) => Fail(err)
        case Ok(x) => Ok(LoweredAll(x.world, l.values + [x.value]))
  }

  /** An element that raises ends the lowering of the whole sequence. */
  lemma {:induction false} GenAllFailPrefix(w: World, st: State, es: seq<SExpr>, k: nat)
    requires st.fn < |w.funcs| && k <= |es|
    requires GenAll(w, st, es[..k]).Fail?
    ensures GenAll(w, st, es) == GenAll(w, st, es[..k])
    decreases |es| - k
  {
    if k < |es| {
      var es' := es[..|es| - 1];
      assert es'[..k] == es[..k];
      GenAllFailPrefix(w, st, es', k);
    } else {
      assert es[..k] == es;
    }
  }

  /** The world in which `defn` lowers the body: the name already bound. */
  function Opened(w: World, name: SExpr, formals: seq<SExpr>): World
  {
    World(w.symbols[name := Func(|w.funcs|)], w.funcs + [Function(name, |formals|, [])])
  }

  /** `defn(name, argnames, body)`: its value is the new function. */
  function Defn(w: World, name: SExpr, formals: seq<SExpr>, body: seq<SExpr>): (r: Result<Lowered>)
    ensures r.Ok? ==> |r.value.world.funcs| > |w.funcs| && r.value.value == Func(|w.funcs|)
    decreases SizeAll(body), 2
  {
    var fi := |w.funcs|;
    match ParamMap(fi, formals)
    case None => Fail(OddHashArguments)
    case Some(params) =>
      match GenAll(Opened(w, name, formals), State(params, fi), body)
      case Fail(err) => Fail(err)
      case Ok(l) =>
        var v := if l.values == [] then Nil else Last(l.values);
        Ok(Lowered(WithCode(l.world, fi, l.world.funcs[fi].code + [Ret(v)]), Func(fi)))
  }

  /** `run`: the program's expressions become the body of `main`. */
  function Run(program: seq<SExpr>): Result<Lowered>
  {
    Defn(World(Builtins(), []), Sym("main"), [], program)
  }
}
