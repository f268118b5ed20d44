/**
 * The code generator as the object it is: `Compile` keeps the global
 * symbol table and the module's functions in fields and updates them in
 * place while it lowers a tree. Each method is proved to compute exactly
 * what the corresponding function of `Lowering` describes.
 */
module Compiler {
  import opened Sexpr
  import opened Lowering

  class Compile {
    /** `@symbols` */
    var symbols: map<SExpr, Value>
    /** The functions of `@m`, in the order they were added. */
    var funcs: seq<Function>

    function Current(): World
      reads this
    {
      World(symbols, funcs)
    }

    /** `initialize`: the table starts as a copy of the builtins. */
    constructor ()
      ensures symbols == Builtins() && funcs == []
    {
      symbols := Builtins();
      funcs := [];
    }

    /** One builder request on a function's block (compile.rb:50-52, 73-79): one instruction is appended. */
    method Build(fn: nat, i: Instr) returns (v: Value)
      requires fn < |funcs|
      modifies this
      ensures Current() == WithCode(old(Current()), fn, Emit(old(funcs[fn].code), fn, i).0)
      ensures v == Emit(old(funcs[fn].code), fn, i).1
    {
      v := Reg(fn, |funcs[fn].code|);
      funcs := funcs[fn := funcs[fn].(code := funcs[fn].code + [i])];
    }

    /** A builtin (compile.rb:5-26): the arguments reduced left to right with one builder operation. */
    method ApplyBuiltin(fn: nat, op: Op, args: seq<Value>) returns (v: Value)
      requires fn < |funcs|
      modifies this
      ensures Current() == WithCode(old(Current()), fn, Reduce(old(funcs[fn].code), fn, op, args).0)
      ensures v == Reduce(old(funcs[fn].code), fn, op, args).1
    {
      if args == [] {
        v := Nil;
        assert Current() == WithCode(old(Current()), fn, old(funcs[fn].code));
        return;
      }
      ghost var code0 := funcs[fn].code;
      v := args[0];
      assert args[..1] == [args[0]];
      for i := 1 to |args|
        invariant fn < |funcs|
        invariant Current() == WithCode(old(Current()), fn, Fold(code0, fn, op, args[..i]).0)
        invariant v == Fold(code0, fn, op, args[..i]).1
      {
        assert args[..i + 1][..i] == args[..i];
        v := Build(fn, Bin(op, v, args[i]));
      }
      assert args[..|args|] == args;
    }

    /**
     * `gen(state, expr)`: lowers one expression into the block of `st.fn`,
     * hands back the state it was given, and reports what `defn` raised.
     * After a raised error the object's state is not described.
     */
    method Gen(st: State, e: SExpr) returns (st': State, r: Result<Value>)
      requires st.fn < |funcs|
      modifies this
      ensures st' == st
      ensures match Lowering.Gen(old(Current()), st, e)
        case Ok(l) => r == Ok(l.value) && Current() == l.world
        case Fail(err) => r == Fail(err)
      decreases Size(e), 0
    {
      st' := st;
      match e
      case Int(n) =>
        r := Ok(Const(n));
      case List(es) =>
        if es != [] && es[0] == Sym("defn") {
          if |es| < 3 || !es[2].List? {
            r := Fail(ParamsNotList);
          } else {
            SizeAllSplit(es, 3);
            r := Defn(es[1], es[2].elems, es[3..]);
          }
        } else {
          var vals: seq<Value> := [];
          var state := st;
          for i := 0 to |es|
            invariant state == st && st.fn < |funcs|
            invariant GenAll(old(Current()), st, es[..i]) == Ok(LoweredAll(Current(), vals))
          {
            SizeAllElem(es, i);
            assert es[..i + 1][..i] == es[..i];
            var x: Result<Value>;
            state, x := Gen(state, es[i]);
            if x.Fail? {
              GenAllFailPrefix(old(Current()), st, es, i + 1);
              return st, Fail(x.error);
            }
            vals := vals + [x.value];
          }
          assert es[..|es|] == es;
          var pred := if vals == [] then Nil else vals[0];
          var args := if vals == [] then [] else vals[1..];
          var val: Value;
          if pred.Builtin? {
            val := ApplyBuiltin(st.fn, pred.op, args);
          } else {
            val := Build(st.fn, Call(pred, args));
          }
          r := Ok(val);
        }
      case _ =>
        r := Ok(Resolve(st, symbols, e));
    }

    /**
     * `defn(name, argnames, body)`: adds the function, binds its name, lowers
     * the body in a scope holding only the formals, and returns the value of
     * the last body expression.
     */
    method Defn(name: SExpr, formals: seq<SExpr>, body: seq<SExpr>) returns (r: Result<Value>)
      modifies this
      ensures match Lowering.Defn(old(Current()), name, formals, body)
        case Ok(l) => r == Ok(l.value) && Current() == l.world
        case Fail(err) => r == Fail(err)
      decreases SizeAll(body), 2
    {
      var fi := |funcs|;
      ghost var w1 := Opened(Current(), name, formals);
      funcs := funcs + [Function(name, |formals|, [])];
      symbols := symbols[name := Func(fi)];
      assert Current() == w1;
      var pm := ParamMap(fi, formals);
      if pm.None? {
        return Fail(OddHashArguments);
      }
      var state := State(pm.value, fi);
      ghost var vals: seq<Value> := [];
      var v := Nil;
      for i := 0 to |body|
        invariant state == State(pm.value, fi) && fi < |funcs|
        invariant GenAll(w1, state, body[..i]) == Ok(LoweredAll(Current(), vals))
        invariant v == if vals == [] then Nil else Last(vals)
      {
        SizeAllElem(body, i);
        assert body[..i + 1][..i] == body[..i];
        var x: Result<Value>;
        state, x := Gen(state, body[i]);
        if x.Fail? {
          GenAllFailPrefix(w1, state, body, i + 1);
          return Fail(x.error);
        }
        vals := vals + [x.value];
        v := x.value;
      }
      assert body[..|body|] == body;
      var _ := Build(fi, Ret(v));
      r := Ok(Func(fi));
    }

    /**
     * `run`'s wiring: the program becomes the body of `main`. On a freshly
     * constructed object this is exactly `Lowering.Run`.
     */
    method Run(program: seq<SExpr>) returns (r: Result<Value>)
      modifies this
      ensures match Lowering.Defn(old(Current()), Sym("main"), [], program)
        case Ok(l) => r == Ok(l.value) && Current() == l.world
        case Fail(err) => r == Fail(err)
      ensures old(symbols) == Builtins() && old(funcs) == [] ==>
        match Lowering.Run(program)
        case Ok(l) => r == Ok(l.value) && Current() == l.world
        case Fail(err) => r == Fail(err)
    {
      r := Defn(Sym("main"), [], program);
    }
  }
}
