/**
 * Properties of the lowering: how names resolve, what a lowering may change
 * (the current function's block only grows, other functions stay as they
 * were, new functions are complete), the shape of a builtin fold, the
 * parameter map of a definition, when lowering raises, and the generator's
 * output on small programs.
 */
module LoweringProps {
  import opened Sexpr
  import opened Lowering

  // ---------------------------------------------------------------------
  // Name resolution
  // ---------------------------------------------------------------------

  /** No binding of the table is `nil`, so a lookup result of `nil` means "unknown". */
  predicate NilFree(m: map<SExpr, Value>)
  {
    forall x :: x in m ==> m[x] != Nil
  }

  /**
   * Parameters shadow globals, globals come next, and a name bound in
   * neither yields `nil`; with tables free of `nil` that is the only way to
   * get `nil`.
   */
  lemma ResolveOrder(st: State, symbols: map<SExpr, Value>, x: SExpr)
    requires NilFree(st.params) && NilFree(symbols)
    ensures x in st.params ==> Resolve(st, symbols, x) == st.params[x]
    ensures x !in st.params && x in symbols ==> Resolve(st, symbols, x) == symbols[x]
    ensures Resolve(st, symbols, x) == Nil <==> x !in st.params && x !in symbols
  {
  }

  /** An atom changes nothing: an integer is a constant, a name is looked up. */
  lemma GenAtom(w: World, st: State, e: SExpr)
    requires st.fn < |w.funcs| && !e.List?
    ensures Gen(w, st, e).Ok? && Gen(w, st, e).value.world == w
    ensures e.Int? ==> Gen(w, st, e).value.value == Const(e.n)
    ensures !e.Int? ==> Gen(w, st, e).value.value == Resolve(st, w.symbols, e)
  {
  }

  // ---------------------------------------------------------------------
  // What a lowering changes
  // ---------------------------------------------------------------------

  predicate NoRet(code: seq<Instr>)
  {
    forall k :: 0 <= k < |code| ==> !code[k].Ret?
  }

  /** A finished function: exactly one `ret`, and it is the last instruction. */
  predicate Complete(f: Function)
  {
    f.code != [] && Last(f.code).Ret? && NoRet(f.code[..|f.code| - 1])
  }

  /** A block that was only appended to, and never with a `ret`. */
  predicate Grows(code: seq<Instr>, code': seq<Instr>)
  {
    |code| <= |code'| && code'[..|code|] == code && NoRet(code'[|code|..])
  }

  /**
   * What every lowering keeps: functions are only added, and each added one
   * is complete; names stay bound, and a binding that changed names an
   * added function.
   */
  predicate Keeps(w: World, w': World)
  {
    && |w.funcs| <= |w'.funcs|
    && (forall j :: |w.funcs| <= j < |w'.funcs| ==> Complete(w'.funcs[j]))
    && (forall x :: x in w.symbols ==> x in w'.symbols)
    && (forall x :: x in w'.symbols && (x !in w.symbols || w'.symbols[x] != w.symbols[x]) ==>
          w'.symbols[x].Func? && |w.funcs| <= w'.symbols[x].id < |w'.funcs|)
  }

  /** A lowering into function `fn`: only `fn`'s block changed, and it grew. */
  predicate Extends(w: World, w': World, fn: nat)
  {
    && Keeps(w, w')
    && fn < |w.funcs|
    && (forall j :: 0 <= j < |w.funcs| && j != fn ==> w'.funcs[j] == w.funcs[j])
    && w'.funcs[fn].name == w.funcs[fn].name
    && w'.funcs[fn].arity == w.funcs[fn].arity
    && Grows(w.funcs[fn].code, w'.funcs[fn].code)
  }

  /** A definition: every existing function unchanged, at least one added. */
  predicate Adds(w: World, w': World)
  {
    && Keeps(w, w')
    && |w.funcs| < |w'.funcs|
    && (forall j :: 0 <= j < |w.funcs| ==> w'.funcs[j] == w.funcs[j])
  }

  lemma GrowsTrans(a: seq<Instr>, b: seq<Instr>, c: seq<Instr>)
    requires Grows(a, b) && Grows(b, c)
    ensures Grows(a, c)
  {
    assert c[..|a|] == c[..|b|][..|a|];
    forall k | 0 <= k < |c[|a|..]| ensures !c[|a|..][k].Ret? {
      if |a| + k < |b| {
        assert c[|a|..][k] == b[|a|..][k];
      } else {
        assert c[|a|..][k] == c[|b|..][|a| + k - |b|];
      }
    }
  }

  /** The functions the first step added are left alone by the second. */
  lemma KeepsTrans(w1: World, w2: World, w3: World)
    requires Keeps(w1, w2) && Keeps(w2, w3)
    requires forall j :: |w1.funcs| <= j < |w2.funcs| ==> w3.funcs[j] == w2.funcs[j]
    ensures Keeps(w1, w3)
  {
    forall j | |w1.funcs| <= j < |w3.funcs| ensures Complete(w3.funcs[j]) {
      if j < |w2.funcs| {
        assert w3.funcs[j] == w2.funcs[j];
      }
    }
  }

  lemma ExtendsRefl(w: World, fn: nat)
    requires fn < |w.funcs|
    ensures Extends(w, w, fn)
  {
    assert w.funcs[fn].code[..|w.funcs[fn].code|] == w.funcs[fn].code;
  }

  lemma ExtendsTrans(w1: World, w2: World, w3: World, fn: nat)
    requires Extends(w1, w2, fn) && Extends(w2, w3, fn)
    ensures Extends(w1, w3, fn)
  {
    KeepsTrans(w1, w2, w3);
    GrowsTrans(w1.funcs[fn].code, w2.funcs[fn].code, w3.funcs[fn].code);
  }

  lemma AddsExtends(w: World, w': World, fn: nat)
    requires Adds(w, w') && fn < |w.funcs|
    ensures Extends(w, w', fn)
  {
    ExtendsRefl(w, fn);
  }

  /** Replacing a block by a grown one is a lowering into that block. */
  lemma ExtendsWithCode(w: World, fn: nat, code': seq<Instr>)
    requires fn < |w.funcs| && Grows(w.funcs[fn].code, code')
    ensures Extends(w, WithCode(w, fn, code'), fn)
  {
  }

  lemma {:induction false} FoldGrows(code: seq<Instr>, fn: nat, op: Op, args: seq<Value>)
    requires args != []
    ensures Grows(code, Fold(code, fn, op, args).0)
  {
    if |args| == 1 {
      assert code[..|code|] == code;
    } else {
      var c := Fold(code, fn, op, args[..|args| - 1]).0;
      FoldGrows(code, fn, op, args[..|args| - 1]);
      var c' := Fold(code, fn, op, args).0;
      assert c' == c + [Bin(op, Fold(code, fn, op, args[..|args| - 1]).1, Last(args))];
      assert Grows(c, c') by {
        assert c'[..|c|] == c;
        assert c'[|c|..] == [c'[|c|]];
      }
      GrowsTrans(code, c, c');
    }
  }

  /** The dispatch appends instructions and never a `ret`. */
  lemma ApplyGrows(code: seq<Instr>, fn: nat, vals: seq<Value>)
    ensures Grows(code, Apply(code, fn, vals).0)
  {
    var pred := if vals == [] then Nil else vals[0];
    var args := if vals == [] then [] else vals[1..];
    if pred.Builtin? && args != [] {
      FoldGrows(code, fn, pred.op, args);
    } else if pred.Builtin? {
      assert code[..|code|] == code;
    } else {
      var c' := code + [Call(pred, args)];
      assert c'[..|code|] == code;
      assert c'[|code|..] == [Call(pred, args)];
    }
  }

  /**
   * Lowering an expression into function `fn` grows `fn`'s block without a
   * `ret`, leaves every other existing function as it was, and completes
   * every function that a nested definition adds.
   */
  lemma {:induction false} GenExtends(w: World, st: State, e: SExpr)
    requires st.fn < |w.funcs| && Gen(w, st, e).Ok?
    ensures Extends(w, Gen(w, st, e).value.world, st.fn)
    decreases Size(e), 0
  {
    match e
    case List(es) =>
      if es != [] && es[0] == Sym("defn") {
        SizeAllSplit(es, 3);
        DefnAdds(w, es[1], es[2].elems, es[3..]);
        AddsExtends(w, Gen(w, st, e).value.world, st.fn);
      } else {
        GenAllExtends(w, st, es);
        var l := GenAll(w, st, es).value;
        ApplyGrows(l.world.funcs[st.fn].code, st.fn, l.values);
        ExtendsWithCode(l.world, st.fn, Apply(l.world.funcs[st.fn].code, st.fn, l.values).0);
        ExtendsTrans(w, l.world, Gen(w, st, e).value.world, st.fn);
      }
    case _ =>
      ExtendsRefl(w, st.fn);
  }

  lemma {:induction false} GenAllExtends(w: World, st: State, es: seq<SExpr>)
    requires st.fn < |w.funcs| && GenAll(w, st, es).Ok?
    ensures Extends(w, GenAll(w, st, es).value.world, st.fn)
    decreases SizeAll(es), 1
  {
    if es == [] {
      ExtendsRefl(w, st.fn);
    } else {
      SizeAllLast(es);
      var l := GenAll(w, st, es[..|es| - 1]).value;
      GenAllExtends(w, st, es[..|es| - 1]);
      GenExtends(l.world, st, Last(es));
      ExtendsTrans(w, l.world, GenAll(w, st, es).value.world, st.fn);
    }
  }

  /**
   * A definition leaves every existing function as it was and adds complete
   * functions only: the new one ends in its single `ret`.
   */
  lemma {:induction false} DefnAdds(w: World, name: SExpr, formals: seq<SExpr>, body: seq<SExpr>)
    requires Defn(w, name, formals, body).Ok?
    ensures Adds(w, Defn(w, name, formals, body).value.world)
    decreases SizeAll(body), 2
  {
    var fi := |w.funcs|;
    var w1 := Opened(w, name, formals);
    var st := State(ParamMap(fi, formals).value, fi);
    var l := GenAll(w1, st, body).value;
    GenAllExtends(w1, st, body);
    var v := if l.values == [] then Nil else Last(l.values);
    var code := l.world.funcs[fi].code + [Ret(v)];
    var w' := WithCode(l.world, fi, code);
    assert w' == Defn(w, name, formals, body).value.world;
    assert Complete(w'.funcs[fi]) by {
      assert code[..|code| - 1] == l.world.funcs[fi].code;
      assert l.world.funcs[fi].code == l.world.funcs[fi].code[|w1.funcs[fi].code|..];
    }
    forall j | fi < j < |w'.funcs| ensures Complete(w'.funcs[j]) {
      assert w'.funcs[j] == l.world.funcs[j];
    }
  }

  /**
   * The function a definition adds carries the definition's name and arity,
   * and its single `ret` returns the value of the last body expression, or
   * `nil` for an empty body.
   */
  lemma DefnReturnsLast(w: World, name: SExpr, formals: seq<SExpr>, body: seq<SExpr>)
    requires Defn(w, name, formals, body).Ok?
    ensures var fi := |w.funcs|;
            var f := Defn(w, name, formals, body).value.world.funcs[fi];
            var vals := GenAll(Opened(w, name, formals), State(ParamMap(fi, formals).value, fi), body).value.values;
            && f.name == name && f.arity == |formals| && Complete(f)
            && Last(f.code) == Ret(if body == [] then Nil else Last(vals))
  {
    DefnAdds(w, name, formals, body);
    var fi := |w.funcs|;
    var st := State(ParamMap(fi, formals).value, fi);
    GenAllExtends(Opened(w, name, formals), st, body);
  }

  // ---------------------------------------------------------------------
  // The global table
  // ---------------------------------------------------------------------

  /** A tree holding no definition form anywhere that lowering reaches. */
  predicate NoDefn(e: SExpr)
  {
    match e
    case List(es) => !(es != [] && es[0] == Sym("defn")) && forall i :: 0 <= i < |es| ==> NoDefn(es[i])
    case _ => true
  }

  predicate NoDefnAll(es: seq<SExpr>)
  {
    forall i :: 0 <= i < |es| ==> NoDefn(es[i])
  }

  lemma NoDefnAllPrefix(es: seq<SExpr>, k: nat)
    requires NoDefnAll(es) && k <= |es|
    ensures NoDefnAll(es[..k])
  {
    forall i | 0 <= i < k ensures NoDefn(es[..k][i]) {
      assert es[..k][i] == es[i];
    }
  }

  /** Without definitions, lowering adds no function and binds no name. */
  lemma {:induction false} GenNoDefn(w: World, st: State, e: SExpr)
    requires st.fn < |w.funcs| && NoDefn(e) && Gen(w, st, e).Ok?
    ensures Gen(w, st, e).value.world.symbols == w.symbols
    ensures |Gen(w, st, e).value.world.funcs| == |w.funcs|
    decreases Size(e), 0
  {
    match e
    case List(es) =>
      GenAllNoDefn(w, st, es);
    case _ =>
  }

  lemma {:induction false} GenAllNoDefn(w: World, st: State, es: seq<SExpr>)
    requires st.fn < |w.funcs| && NoDefnAll(es) && GenAll(w, st, es).Ok?
    ensures GenAll(w, st, es).value.world.symbols == w.symbols
    ensures |GenAll(w, st, es).value.world.funcs| == |w.funcs|
    decreases SizeAll(es), 1
  {
    if es != [] {
      SizeAllLast(es);
      NoDefnAllPrefix(es, |es| - 1);
      var l := GenAll(w, st, es[..|es| - 1]).value;
      GenAllNoDefn(w, st, es[..|es| - 1]);
      GenNoDefn(l.world, st, Last(es));
    }
  }

  /**
   * `defn` binds its name to the new function: before the body is lowered,
   * so a call of the name inside the body resolves to the function itself
   * (unless a formal has that name), and afterwards, replacing whatever the
   * name was bound to, a builtin included.
   */
  lemma DefnBindsName(w: World, name: SExpr, formals: seq<SExpr>, body: seq<SExpr>)
    ensures var fi := |w.funcs|;
            forall params :: name !in params ==>
              Resolve(State(params, fi), Opened(w, name, formals).symbols, name) == Func(fi)
    ensures NoDefnAll(body) && Defn(w, name, formals, body).Ok? ==>
              && Defn(w, name, formals, body).value.world.symbols == w.symbols[name := Func(|w.funcs|)]
              && |Defn(w, name, formals, body).value.world.funcs| == |w.funcs| + 1
  {
    if NoDefnAll(body) && Defn(w, name, formals, body).Ok? {
      var fi := |w.funcs|;
      GenAllNoDefn(Opened(w, name, formals), State(ParamMap(fi, formals).value, fi), body);
    }
  }

  // ---------------------------------------------------------------------
  // The parameter map
  // ---------------------------------------------------------------------

  /** A parameter list of plain names: nothing for `flatten` to open. */
  predicate AtomFormals(formals: seq<SExpr>)
  {
    forall i :: 0 <= i < |formals| ==> !formals[i].List?
  }

  /** A plain formal adds itself and its incoming parameter to the items. */
  lemma {:induction false} SpreadOfAtoms(formals: seq<SExpr>)
    requires AtomFormals(formals)
    ensures |Spread(formals)| == 2 * |formals|
    ensures formals != [] ==>
              Spread(formals) == Spread(formals[..|formals| - 1]) + [Atom(Last(formals)), Incoming(|formals| - 1)]
  {
    if formals != [] {
      AtomFormalsPrefix(formals);
      SpreadOfAtoms(formals[..|formals| - 1]);
      assert Atoms(Flatten(Last(formals))) == [Atom(Last(formals))];
    }
  }

  /**
   * `m` pairs the formals with the incoming parameters of function `fi`:
   * every formal is a key, and every key is bound to the incoming parameter
   * at the last position holding that name, so a later repetition wins and
   * nothing else is in the map.
   */
  predicate PairsFormals(m: map<SExpr, Value>, fi: nat, formals: seq<SExpr>)
  {
    && (forall j :: 0 <= j < |formals| ==> formals[j] in m)
    && forall x :: x in m ==>
         && m[x].Param? && m[x].fn == fi && m[x].index < |formals|
         && formals[m[x].index] == x
         && forall k :: m[x].index < k < |formals| ==> formals[k] != x
  }

  lemma AtomFormalsPrefix(formals: seq<SExpr>)
    requires AtomFormals(formals) && formals != []
    ensures AtomFormals(formals[..|formals| - 1])
  {
    var p := formals[..|formals| - 1];
    forall i | 0 <= i < |p| ensures !p[i].List? {
      assert p[i] == formals[i];
    }
  }

  /** One more plain formal: the map gains, or rebinds, that name. */
  lemma ParamMapStep(fi: nat, formals: seq<SExpr>)
    requires AtomFormals(formals) && formals != []
    requires ParamMap(fi, formals[..|formals| - 1]).Some?
    ensures ParamMap(fi, formals)
         == Some(ParamMap(fi, formals[..|formals| - 1]).value[Last(formals) := Param(fi, |formals| - 1)])
  {
    AtomFormalsPrefix(formals);
    SpreadOfAtoms(formals);
    SpreadOfAtoms(formals[..|formals| - 1]);
    var items := Spread(formals);
    assert items[..|items| - 2] == Spread(formals[..|formals| - 1]);
  }

  lemma PairsFormalsStep(m: map<SExpr, Value>, fi: nat, formals: seq<SExpr>)
    requires formals != []
    requires PairsFormals(m, fi, formals[..|formals| - 1])
    ensures PairsFormals(m[Last(formals) := Param(fi, |formals| - 1)], fi, formals)
  {
    var k := |formals| - 1;
    var p := formals[..k];
    var m' := m[Last(formals) := Param(fi, k)];
    forall j | 0 <= j < |formals| ensures formals[j] in m' {
      if j < k {
        assert formals[j] == p[j];
      }
    }
    forall x | x in m'
      ensures && m'[x].Param? && m'[x].fn == fi && m'[x].index < |formals|
              && formals[m'[x].index] == x
              && forall k' :: m'[x].index < k' < |formals| ==> formals[k'] != x
    {
      if x != Last(formals) {
        assert formals[m[x].index] == p[m[x].index];
        forall k' | m[x].index < k' < |formals| ensures formals[k'] != x {
          if k' < k {
            assert formals[k'] == p[k'];
          }
        }
      }
    }
  }

  /** With plain formals the parameter map is defined and pairs them in order. */
  lemma {:induction false} ParamMapOfAtoms(fi: nat, formals: seq<SExpr>)
    requires AtomFormals(formals)
    ensures ParamMap(fi, formals).Some?
    ensures PairsFormals(ParamMap(fi, formals).value, fi, formals)
  {
    if formals == [] {
      SpreadOfAtoms(formals);
    } else {
      AtomFormalsPrefix(formals);
      ParamMapOfAtoms(fi, formals[..|formals| - 1]);
      ParamMapStep(fi, formals);
      PairsFormalsStep(ParamMap(fi, formals[..|formals| - 1]).value, fi, formals);
    }
  }

  /**
   * The body of a definition sees its formals and the global table, and no
   * parameter of an enclosing function.
   */
  lemma BodyScope(fi: nat, formals: seq<SExpr>, symbols: map<SExpr, Value>, x: SExpr)
    requires AtomFormals(formals)
    requires forall j :: 0 <= j < |formals| ==> formals[j] != x
    ensures ParamMap(fi, formals).Some?
    ensures Resolve(State(ParamMap(fi, formals).value, fi), symbols, x)
         == if x in symbols then symbols[x] else Nil
  {
    ParamMapOfAtoms(fi, formals);
  }

  // ---------------------------------------------------------------------
  // Lowering order and the builtin folds
  // ---------------------------------------------------------------------

  /**
   * The elements of a list are lowered left to right, each in the world the
   * previous ones left behind, and the values come out in element order.
   */
  lemma {:induction false} GenAllInOrder(w: World, st: State, es: seq<SExpr>, i: nat)
    requires st.fn < |w.funcs| && GenAll(w, st, es).Ok? && i < |es|
    ensures GenAll(w, st, es[..i]).Ok?
    ensures var before := GenAll(w, st, es[..i]).value.world;
            && Gen(before, st, es[i]).Ok?
            && GenAll(w, st, es).value.values[i] == Gen(before, st, es[i]).value.value
    decreases |es|
  {
    var n := |es| - 1;
    if i < n {
      assert es[..n][..i] == es[..i];
      GenAllInOrder(w, st, es[..n], i);
    } else {
      assert es[..i] == es[..n];
    }
  }

  /**
   * The closed form of a builtin's reduction (compile.rb:6-25): one
   * instruction per argument after the first, the first combining the first
   * two arguments and each later one combining the previous result with the
   * next argument, so the value is `((a1 op a2) op a3) ...`; a single
   * argument is returned unchanged and nothing is emitted.
   */
  lemma {:induction false} FoldShape(code: seq<Instr>, fn: nat, op: Op, args: seq<Value>)
    requires args != []
    ensures var (c, v) := Fold(code, fn, op, args);
            && |c| == |code| + |args| - 1
            && c[..|code|] == code
            && (forall k :: |code| <= k < |c| ==>
                  c[k] == Bin(op, if k == |code| then args[0] else Reg(fn, k - 1), args[k - |code| + 1]))
            && v == if |args| == 1 then args[0] else Reg(fn, |c| - 1)
  {
    if |args| > 1 {
      var n := |args| - 1;
      var p := args[..n];
      FoldShape(code, fn, op, p);
      var (c0, acc) := Fold(code, fn, op, p);
      var c := c0 + [Bin(op, acc, Last(args))];
      assert Fold(code, fn, op, args).0 == c;
      assert c[..|code|] == c0[..|code|];
      forall k | |code| <= k < |c|
        ensures c[k] == Bin(op, if k == |code| then args[0] else Reg(fn, k - 1), args[k - |code| + 1])
      {
        if k < |c0| {
          assert c[k] == c0[k];
          assert p[k - |code| + 1] == args[k - |code| + 1];
          assert p[0] == args[0];
        }
      }
    }
  }

  /** A tree of builtin operations over values: what a register computes. */
  datatype Term = Leaf(v: Value) | Node(op: Op, l: Term, r: Term)

  /** The left fold of terms: `((t1 op t2) op t3) ...`. */
  function LeftFold(op: Op, ts: seq<Term>): Term
    requires ts != []
  {
    if |ts| == 1 then ts[0] else Node(op, LeftFold(op, ts[..|ts| - 1]), Last(ts))
  }

  /**
   * What value `v` computes in function `fn`'s block `code`: a register of a
   * builtin instruction is read as that operation over its operands, read
   * in the instructions before it; anything else is a leaf.
   */
  function Read(code: seq<Instr>, fn: nat, v: Value): Term
    decreases |code|
  {
    if v.Reg? && v.fn == fn && v.at < |code| && code[v.at].Bin? then
      Node(code[v.at].op, Read(code[..v.at], fn, code[v.at].l), Read(code[..v.at], fn, code[v.at].r))
    else Leaf(v)
  }

  function ReadAll(code: seq<Instr>, fn: nat, vs: seq<Value>): (ts: seq<Term>)
    ensures |ts| == |vs|
  {
    seq(|vs|, i requires 0 <= i < |vs| => Read(code, fn, vs[i]))
  }

  /** A value that names no instruction of `fn` beyond the end of `code`. */
  predicate Settled(code: seq<Instr>, fn: nat, v: Value)
  {
    !(v.Reg? && v.fn == fn && v.at >= |code|)
  }

  /** Appending to a block does not change what a settled value computes. */
  lemma ReadExtend(code: seq<Instr>, more: seq<Instr>, fn: nat, v: Value)
    requires Settled(code, fn, v)
    ensures Read(code + more, fn, v) == Read(code, fn, v)
  {
    if v.Reg? && v.fn == fn && v.at < |code| {
      assert (code + more)[v.at] == code[v.at];
      assert (code + more)[..v.at] == code[..v.at];
    }
  }

  /** The register a builtin fold returns computes the left fold of its arguments. */
  lemma {:induction false} FoldReads(code: seq<Instr>, fn: nat, op: Op, args: seq<Value>)
    requires args != []
    requires forall i :: 0 <= i < |args| ==> Settled(code, fn, args[i])
    ensures var (c, v) := Fold(code, fn, op, args);
            Read(c, fn, v) == LeftFold(op, ReadAll(code, fn, args))
  {
    if |args| > 1 {
      var n := |args| - 1;
      var p := args[..n];
      assert forall i :: 0 <= i < |p| ==> Settled(code, fn, p[i]) by {
        forall i | 0 <= i < |p| ensures Settled(code, fn, p[i]) {
          assert p[i] == args[i];
        }
      }
      FoldReads(code, fn, op, p);
      FoldGrows(code, fn, op, p);
      var (c0, acc) := Fold(code, fn, op, p);
      var c := c0 + [Bin(op, acc, Last(args))];
      assert c[|c0|] == Bin(op, acc, Last(args)) && c[..|c0|] == c0;
      assert Read(c, fn, Reg(fn, |c0|)) == Node(op, Read(c0, fn, acc), Read(c0, fn, Last(args)));
      assert c0 == code + c0[|code|..];
      ReadExtend(code, c0[|code|..], fn, Last(args));
      assert ReadAll(code, fn, args)[..n] == ReadAll(code, fn, p);
    }
  }

  // ---------------------------------------------------------------------
  // What a lowered list computes
  // ---------------------------------------------------------------------

  /** A table holding no register: parameters, builtins and functions only. */
  predicate RegFree(m: map<SExpr, Value>)
  {
    forall x :: x in m ==> !m[x].Reg?
  }

  /**
   * Every value a lowering returns is available in the current block: a
   * register it returns names an instruction already emitted.
   */
  lemma {:induction false} GenSettled(w: World, st: State, e: SExpr)
    requires st.fn < |w.funcs| && RegFree(w.symbols) && RegFree(st.params) && Gen(w, st, e).Ok?
    ensures var l := Gen(w, st, e).value;
            Settled(l.world.funcs[st.fn].code, st.fn, l.value) && RegFree(l.world.symbols)
    decreases Size(e), 0
  {
    match e
    case List(es) =>
      if es != [] && es[0] == Sym("defn") {
        SizeAllSplit(es, 3);
        DefnAdds(w, es[1], es[2].elems, es[3..]);
      } else {
        GenAllSettled(w, st, es);
        var l := GenAll(w, st, es).value;
        var code := l.world.funcs[st.fn].code;
        var vs := l.values;
        if vs != [] && vs[0].Builtin? && |vs| > 2 {
          FoldShape(code, st.fn, vs[0].op, vs[1..]);
        } else if vs != [] && vs[0].Builtin? && |vs| == 2 {
          assert vs[1..][0] == vs[1];
        }
      }
    case _ =>
  }

  lemma {:induction false} GenAllSettled(w: World, st: State, es: seq<SExpr>)
    requires st.fn < |w.funcs| && RegFree(w.symbols) && RegFree(st.params) && GenAll(w, st, es).Ok?
    ensures var l := GenAll(w, st, es).value;
            && (forall i :: 0 <= i < |l.values| ==> Settled(l.world.funcs[st.fn].code, st.fn, l.values[i]))
            && RegFree(l.world.symbols)
    decreases SizeAll(es), 1
  {
    if es != [] {
      SizeAllLast(es);
      var l := GenAll(w, st, es[..|es| - 1]).value;
      GenAllSettled(w, st, es[..|es| - 1]);
      GenSettled(l.world, st, Last(es));
      GenExtends(l.world, st, Last(es));
    }
  }

  /**
   * A list that is not a definition lowers every element, head included,
   * and then dispatches on the head's value: a builtin folds the remaining
   * values left to right (nothing is emitted for one argument, and no
   * arguments give `nil`), and anything else is called with the remaining
   * values in order.
   */
  lemma GenList(w: World, st: State, es: seq<SExpr>)
    requires st.fn < |w.funcs| && RegFree(w.symbols) && RegFree(st.params)
    requires !(es != [] && es[0] == Sym("defn")) && GenAll(w, st, es).Ok?
    ensures var l := GenAll(w, st, es).value;
            var vs := l.values;
            var code := l.world.funcs[st.fn].code;
            var r := Gen(w, st, List(es));
            && r.Ok?
            && (vs != [] && vs[0].Builtin? && |vs| >= 2 ==>
                  Read(r.value.world.funcs[st.fn].code, st.fn, r.value.value)
                  == LeftFold(vs[0].op, ReadAll(code, st.fn, vs[1..])))
            && (vs != [] && vs[0].Builtin? && |vs| <= 2 ==>
                  r.value.world == l.world && r.value.value == (if |vs| == 2 then vs[1] else Nil))
            && (!(vs != [] && vs[0].Builtin?) ==>
                  && r.value.world.funcs[st.fn].code
                     == code + [Call(if vs == [] then Nil else vs[0], if vs == [] then [] else vs[1..])]
                  && r.value.value == Reg(st.fn, |code|))
  {
    var l := GenAll(w, st, es).value;
    var vs := l.values;
    var code := l.world.funcs[st.fn].code;
    if vs != [] && vs[0].Builtin? {
      GenAllSettled(w, st, es);
      if |vs| >= 2 {
        var args := vs[1..];
        forall i | 0 <= i < |args| ensures Settled(code, st.fn, args[i]) {
          assert args[i] == vs[i + 1];
        }
        FoldReads(code, st.fn, vs[0].op, args);
      }
      if |vs| == 2 {
        assert l.world.funcs[st.fn := l.world.funcs[st.fn]] == l.world.funcs;
      }
    }
  }

  /**
   * `Hash[]` of the flattened formals binds only atoms of the formals and
   * incoming parameters of the function being defined.
   */
  lemma {:induction false} HashOfValues(items: seq<Item>, fi: nat)
    requires |items| % 2 == 0
    ensures forall x :: x in HashOf(items, fi) ==>
              HashOf(items, fi)[x].Datum? || (HashOf(items, fi)[x].Param? && HashOf(items, fi)[x].fn == fi)
    decreases |items|
  {
    if items != [] {
      HashOfValues(items[..|items| - 2], fi);
    }
  }

  /** A definition's parameter map holds no register. */
  lemma ParamMapRegFree(fi: nat, formals: seq<SExpr>)
    ensures ParamMap(fi, formals).Some? ==> RegFree(ParamMap(fi, formals).value)
  {
    if |Spread(formals)| % 2 == 0 {
      HashOfValues(Spread(formals), fi);
    }
  }

  /** The table the generator starts from holds no register. */
  lemma BuiltinsRegFree()
    ensures RegFree(Builtins())
  {
  }

  /**
   * The body of a definition is lowered where GenSettled and GenList apply,
   * whenever the enclosing table holds no register: binding the name adds a
   * function, and the parameter map holds none. With BuiltinsRegFree, and
   * GenSettled keeping the table free, this covers every lowering a program
   * performs.
   */
  lemma DefnScopeRegFree(w: World, name: SExpr, formals: seq<SExpr>)
    requires RegFree(w.symbols) && ParamMap(|w.funcs|, formals).Some?
    ensures RegFree(Opened(w, name, formals).symbols) && RegFree(ParamMap(|w.funcs|, formals).value)
  {
    ParamMapRegFree(|w.funcs|, formals);
  }

  /** A definition's parameter map binds no name to `nil`. */
  lemma ParamMapNilFree(fi: nat, formals: seq<SExpr>)
    ensures ParamMap(fi, formals).Some? ==> NilFree(ParamMap(fi, formals).value)
  {
    if |Spread(formals)| % 2 == 0 {
      HashOfValues(Spread(formals), fi);
    }
  }

  /** The table the generator starts from binds no name to `nil`. */
  lemma BuiltinsNilFree()
    ensures NilFree(Builtins())
  {
  }

  /**
   * Lowering never binds a name to `nil`: a changed binding names an added
   * function. With BuiltinsNilFree and ParamMapNilFree this puts every scope
   * a program reaches under ResolveOrder, so there `nil` means the name is
   * unknown.
   */
  lemma GenKeepsNilFree(w: World, st: State, e: SExpr)
    requires st.fn < |w.funcs| && NilFree(w.symbols) && Gen(w, st, e).Ok?
    ensures NilFree(Gen(w, st, e).value.world.symbols)
  {
    GenExtends(w, st, e);
  }

  /** A body is lowered in a table that binds no name to `nil`, if the enclosing one binds none. */
  lemma DefnScopeNilFree(w: World, name: SExpr, formals: seq<SExpr>)
    requires NilFree(w.symbols) && ParamMap(|w.funcs|, formals).Some?
    ensures NilFree(Opened(w, name, formals).symbols) && NilFree(ParamMap(|w.funcs|, formals).value)
  {
    ParamMapNilFree(|w.funcs|, formals);
  }

  // ---------------------------------------------------------------------
  // When lowering raises
  // ---------------------------------------------------------------------

  /**
   * The trees that lower without raising: every definition form that
   * lowering reaches has a name, a parameter list that is a list, and an
   * even number of flattened parameter items.
   */
  predicate Lowerable(e: SExpr)
  {
    match e
    case List(es) =>
      if es != [] && es[0] == Sym("defn") then
        && |es| >= 3 && es[2].List? && |Spread(es[2].elems)| % 2 == 0
        && forall i :: 3 <= i < |es| ==> Lowerable(es[i])
      else forall i :: 0 <= i < |es| ==> Lowerable(es[i])
    case _ => true
  }

  predicate LowerableAll(es: seq<SExpr>)
  {
    forall i :: 0 <= i < |es| ==> Lowerable(es[i])
  }

  /** Lowering raises exactly on the trees that are not lowerable. */
  lemma {:induction false} GenFailsIff(w: World, st: State, e: SExpr)
    requires st.fn < |w.funcs|
    ensures Gen(w, st, e).Fail? <==> !Lowerable(e)
    decreases Size(e), 0
  {
    match e
    case List(es) =>
      if es != [] && es[0] == Sym("defn") {
        if |es| >= 3 && es[2].List? {
          SizeAllSplit(es, 3);
          DefnFailsIff(w, es[1], es[2].elems, es[3..]);
          assert LowerableAll(es[3..]) <==> forall i :: 3 <= i < |es| ==> Lowerable(es[i]) by {
            forall i | 3 <= i < |es| ensures es[3..][i - 3] == es[i] { }
          }
        }
      } else {
        GenAllFailsIff(w, st, es);
      }
    case _ =>
  }

  lemma {:induction false} GenAllFailsIff(w: World, st: State, es: seq<SExpr>)
    requires st.fn < |w.funcs|
    ensures GenAll(w, st, es).Fail? <==> !LowerableAll(es)
    decreases SizeAll(es), 1
  {
    if es != [] {
      SizeAllLast(es);
      var p := es[..|es| - 1];
      GenAllFailsIff(w, st, p);
      assert LowerableAll(es) <==> LowerableAll(p) && Lowerable(Last(es)) by {
        forall i | 0 <= i < |p| ensures p[i] == es[i] { }
      }
      if GenAll(w, st, p).Ok? {
        GenFailsIff(GenAll(w, st, p).value.world, st, Last(es));
      }
    }
  }

  /** A definition raises exactly when `Hash[]` does or its body raises. */
  lemma {:induction false} DefnFailsIff(w: World, name: SExpr, formals: seq<SExpr>, body: seq<SExpr>)
    ensures Defn(w, name, formals, body).Fail? <==> |Spread(formals)| % 2 == 1 || !LowerableAll(body)
    decreases SizeAll(body), 2
  {
    var fi := |w.funcs|;
    if |Spread(formals)| % 2 == 0 {
      GenAllFailsIff(Opened(w, name, formals), State(ParamMap(fi, formals).value, fi), body);
    }
  }

  // ---------------------------------------------------------------------
  // Whole programs
  // ---------------------------------------------------------------------

  /**
   * A program compiles unless it reaches an ill-formed definition; then
   * `main` is the first function, takes no parameters and is bound under
   * its name, every function in the module ends in exactly one `ret`, and
   * every builtin name is still bound, to its builtin or to a function that
   * replaced it.
   */
  lemma RunResult(program: seq<SExpr>)
    ensures Run(program).Fail? <==> !LowerableAll(program)
    ensures Run(program).Ok? ==>
              var w := Run(program).value.world;
              && Run(program).value.value == Func(0)
              && w.funcs != [] && w.funcs[0].name == Sym("main") && w.funcs[0].arity == 0
              && Sym("main") in w.symbols
              && (forall j :: 0 <= j < |w.funcs| ==> Complete(w.funcs[j]))
              && (forall x :: x in Builtins() ==>
                    x in w.symbols && (w.symbols[x] == Builtins()[x] || w.symbols[x].Func?))
  ensures Run(program).Ok? ==>
            var main := Run(program).value.world.funcs[0];
            var l := GenAll(Opened(World(Builtins(), []), Sym("main"), []), State(map[], 0), program);
            && main.code != [] && l.Ok?
            && Last(main.code) == Ret(if program == [] then Nil else Last(l.value.values))
  {
    var w0 := World(Builtins(), []);
    assert ParamMap(0, []) == Some(map[]);
    DefnFailsIff(w0, Sym("main"), [], program);
    if Run(program).Ok? {
      DefnAdds(w0, Sym("main"), [], program);
      DefnReturnsLast(w0, Sym("main"), [], program);
      GenAllExtends(Opened(w0, Sym("main"), []), State(ParamMap(0, []).value, 0), program);
    }
  }
}
