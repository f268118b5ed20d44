/**
 * The s-expression tree that the reader produces and the code generator
 * consumes: integers, strings, symbols and lists.
 */
module Sexpr {

  datatype Option<+T> = None | Some(value: T)

  /** A node of the tree. `Sym` holds the symbol's text (Ruby's `to_sym`). */
  datatype SExpr =
    | Int(n: int)
    | Str(s: string)
    | Sym(name: string)
    | List(elems: seq<SExpr>)

  /** Number of nodes; the measure that recursion over trees decreases. */
  function Size(e: SExpr): (k: nat)
    ensures k >= 1
  {
    match e
    case List(es) => 1 + SizeAll(es)
    case _ => 1
  }

  function SizeAll(es: seq<SExpr>): nat
  {
    if es == [] then 0 else Size(es[0]) + SizeAll(es[1..])
  }

  lemma {:induction false} SizeAllAppend(a: seq<SExpr>, b: seq<SExpr>)
    ensures SizeAll(a + b) == SizeAll(a) + SizeAll(b)
  {
    if a == [] {
      assert a + b == b;
    } else {
      assert (a + b)[1..] == a[1..] + b;
      SizeAllAppend(a[1..], b);
    }
  }

  lemma SizeAllCons(es: seq<SExpr>)
    requires es != []
    ensures SizeAll(es) == Size(es[0]) + SizeAll(es[1..])
  {
  }

  /** Splitting a sequence anywhere splits its size. */
  lemma SizeAllSplit(es: seq<SExpr>, k: nat)
    requires k <= |es|
    ensures SizeAll(es) == SizeAll(es[..k]) + SizeAll(es[k..])
  {
    assert es == es[..k] + es[k..];
    SizeAllAppend(es[..k], es[k..]);
  }

  /** Every element is no larger than the whole sequence. */
  lemma SizeAllElem(es: seq<SExpr>, i: nat)
    requires i < |es|
    ensures Size(es[i]) <= SizeAll(es)
    ensures SizeAll(es[..i]) < SizeAll(es)
  {
    SizeAllSplit(es, i);
    assert es[i..][0] == es[i];
  }

  /** The last element and the rest add up to the whole. */
  lemma SizeAllLast(es: seq<SExpr>)
    requires es != []
    ensures SizeAll(es) == SizeAll(es[..|es| - 1]) + Size(es[|es| - 1])
  {
    SizeAllSplit(es, |es| - 1);
    assert es[|es| - 1..] == [es[|es| - 1]];
  }
}
