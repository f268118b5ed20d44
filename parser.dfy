/**
 * The s-expression reader: the PEG grammar of `SexprParser` (parse.rb:5-10)
 * and its translator (parse.rb:14-19), as recursive descent over the
 * remaining input. An expression is a list or an atom; a list is a
 * parenthesised repetition of groups of space-separated expressions; an atom
 * is a string, a number or a symbol, tried in that order.
 *
 * Each rule is a function from the input to `None` (the rule fails) or the
 * translated tree together with the input it left unconsumed. Choice is
 * ordered, and repetition is greedy and never gives characters back.
 */
module SexprParser {
  import opened Sexpr

  /** A successful rule: its translated tree and the unconsumed input. */
  datatype Parsed = Parsed(tree: SExpr, rest: string)

  /** A repetition of `expr`s: the trees in order and the unconsumed input. */
  datatype ParsedSeq = ParsedSeq(trees: seq<SExpr>, rest: string)

  /** A decimal digit, the character class of the number rule (parse.rb:9). */
  predicate IsDigit(c: char) { '0' as int <= c as int <= '9' as int }

  /** Any character but a parenthesis or a space: the symbol rule's class (parse.rb:10). */
  predicate IsSymbolChar(c: char) { c != '(' && c != ')' && c != ' ' }

  /** Neither a quote nor a backslash: a character that may start a unit of a string body (parse.rb:8). */
  predicate IsPlain(c: char) { c != '"' && c != '\\' }

  /** Length of the longest run of digits at the front of `s`. */
  function DigitRun(s: string): (k: nat)
    ensures k <= |s|
    ensures forall i :: 0 <= i < k ==> IsDigit(s[i])
    ensures k < |s| ==> !IsDigit(s[k])
  {
    if s != [] && IsDigit(s[0]) then 1 + DigitRun(s[1..]) else 0
  }

  /** Length of the longest run of symbol characters at the front of `s`. */
  function SymbolRun(s: string): (k: nat)
    ensures k <= |s|
    ensures forall i :: 0 <= i < k ==> IsSymbolChar(s[i])
    ensures k < |s| ==> !IsSymbolChar(s[k])
  {
    if s != [] && IsSymbolChar(s[0]) then 1 + SymbolRun(s[1..]) else 0
  }

  function DigitValue(c: char): (d: nat)
    requires IsDigit(c)
    ensures d < 10
  {
    c as int - '0' as int
  }

  /** The value of a run of decimal digits (`String#to_i` on digits). */
  function DecimalValue(ds: string): nat
    requires forall i :: 0 <= i < |ds| ==> IsDigit(ds[i])
  {
    if ds == [] then 0
    else
      assert IsDigit(ds[|ds| - 1]);
      10 * DecimalValue(ds[..|ds| - 1]) + DigitValue(ds[|ds| - 1])
  }

  /**
   * The number rule (parse.rb:9), translated by `to_i` (parse.rb:18): an
   * optional minus sign, then at least one digit. The minus is taken
   * whenever present; without a digit after it the rule fails.
   */
  function ParseNumber(s: string): (r: Option<Parsed>)
    ensures r.Some? <==> (s != [] && IsDigit(s[0])) || (|s| >= 2 && s[0] == '-' && IsDigit(s[1]))
    ensures r.Some? ==> r.value.tree.Int? && |r.value.rest| < |s|
    ensures r.Some? ==> r.value.rest == [] || !IsDigit(r.value.rest[0])
    ensures r.Some? ==> (r.value.tree.n < 0 ==> s[0] == '-')
  {
    var minus := s != [] && s[0] == '-';
    var t := if minus then s[1..] else s;
    var k := DigitRun(t);
    if k == 0 then None
    else
      var m: int := DecimalValue(t[..k]);
      Some(Parsed(Int(if minus then -m else m), t[k..]))
  }

  /**
   * Length of the longest prefix of `t` matched by the body of the string
   * rule (parse.rb:8): a repetition of units, each a plain character
   * optionally followed by a backslash and any one character.
   */
  function StringBody(t: string): (k: nat)
    ensures k <= |t|
    ensures k == 0 || IsPlain(t[0])
    ensures k < |t| ==> !IsPlain(t[k])
  {
    if t != [] && IsPlain(t[0]) then
      if |t| >= 3 && t[1] == '\\' then 3 + StringBody(t[3..]) else 1 + StringBody(t[1..])
    else 0
  }

  /**
   * The unescaping of the string translator (parse.rb:17): every backslash
   * followed by a character becomes that character, scanning left to right. Ruby's `.` does not match a line
   * feed, so a backslash before a line feed is kept.
   */
  function Unescape(b: string): string
  {
    if |b| >= 2 && b[0] == '\\' && b[1] != '\n' then [b[1]] + Unescape(b[2..])
    else if b == [] then []
    else [b[0]] + Unescape(b[1..])
  }

  /**
   * `string`, translated by stripping the quotes (`result[1..-2]`) and
   * unescaping. A body is empty or starts with a plain character.
   */
  function ParseString(s: string): (r: Option<Parsed>)
    ensures r.Some? ==> r.value.tree.Str? && |r.value.rest| + 2 <= |s|
    ensures r.Some? ==> s[0] == '"' && (s[1] == '"' || IsPlain(s[1]))
  {
    if s != [] && s[0] == '"' then
      var k := StringBody(s[1..]);
      if k + 1 < |s| && s[k + 1] == '"' then
        Some(Parsed(Str(Unescape(s[1..k + 1])), s[k + 2..]))
      else None
    else None
  }

  /** The symbol rule (parse.rb:10): a non-empty run of symbol characters, translated by `to_sym`. */
  function ParseSymbol(s: string): (r: Option<Parsed>)
    ensures r.Some? <==> s != [] && IsSymbolChar(s[0])
    ensures r.Some? ==> r.value.tree.Sym? && r.value.tree.name + r.value.rest == s
    ensures r.Some? ==> forall i :: 0 <= i < |r.value.tree.name| ==> IsSymbolChar(r.value.tree.name[i])
    ensures r.Some? ==> r.value.rest == [] || !IsSymbolChar(r.value.rest[0])
  {
    var k := SymbolRun(s);
    if k == 0 then None
    else
      assert s == s[..k] + s[k..];
      Some(Parsed(Sym(s[..k]), s[k..]))
  }

  /** The atom rule (parse.rb:7): a string, a number or a symbol, the first alternative that matches. */
  function ParseAtom(s: string): (r: Option<Parsed>)
    ensures r.Some? ==> !r.value.tree.List? && |r.value.rest| < |s|
  {
    var a := ParseString(s);
    if a.Some? then a
    else
      var b := ParseNumber(s);
      if b.Some? then b
      else
        var c := ParseSymbol(s);
        if c.Some? then
          assert s == c.value.tree.name + c.value.rest;
          c
        else None
  }

  /** The expression rule (parse.rb:5): a list, or else an atom. */
  function ParseExpr(s: string): (r: Option<Parsed>)
    ensures r.Some? ==> |r.value.rest| < |s|
    decreases |s|, 1
  {
    var l := ParseList(s);
    if l.Some? then l else ParseAtom(s)
  }

  /** `list`, translated to the elements in the order they were read. */
  function ParseList(s: string): (r: Option<Parsed>)
    ensures r.Some? ==> r.value.tree.List? && |r.value.rest| + 2 <= |s|
    ensures r.Some? ==> s[0] == '('
    decreases |s|, 0
  {
    if s != [] && s[0] == '(' then
      var inner := ParseGroups(s[1..]);
      if inner.rest != [] && inner.rest[0] == ')' then
        Some(Parsed(List(inner.trees), inner.rest[1..]))
      else None
    else None
  }

  /** The repetition of groups inside a list (parse.rb:6): zero or more, so it never fails. */
  function ParseGroups(s: string): (r: ParsedSeq)
    ensures |r.rest| <= |s|
    decreases |s|, 3
  {
    match ParseGroup(s)
    case None => ParsedSeq([], s)
    case Some(g) =>
      var more := ParseGroups(g.rest);
      ParsedSeq(g.trees + more.trees, more.rest)
  }

  /** One group of a list (parse.rb:6): an expression, then its space-separated followers. */
  function ParseGroup(s: string): (r: Option<ParsedSeq>)
    ensures r.Some? ==> |r.value.rest| < |s| && r.value.trees != []
    decreases |s|, 2
  {
    match ParseExpr(s)
    case None => None
    case Some(p) =>
      var more := ParseSpaced(p.rest);
      Some(ParsedSeq([p.tree] + more.trees, more.rest))
  }

  /** The followers of a group (parse.rb:6): zero or more of a space then an expression, so it never fails. */
  function ParseSpaced(s: string): (r: ParsedSeq)
    ensures |r.rest| <= |s|
    decreases |s|, 0
  {
    if s != [] && s[0] == ' ' then
      match ParseExpr(s[1..])
      case None => ParsedSeq([], s)
      case Some(p) =>
        var more := ParseSpaced(p.rest);
        ParsedSeq([p.tree] + more.trees, more.rest)
    else ParsedSeq([], s)
  }

  /** `SexprParser.parse`: an `expr` that consumes the whole input. */
  function Parse(s: string): Option<SExpr>
  {
    match ParseExpr(s)
    case None => None
    case Some(p) => if p.rest == [] then Some(p.tree) else None
  }
}
