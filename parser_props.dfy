/**
 * Properties of the reader: a printer that the reader inverts, round trips
 * for numbers, strings, symbols and lists, the order in which atom
 * alternatives are tried, and the reader's own example inputs.
 */
module ParserProps {
  import opened Sexpr
  import opened SexprParser

  // ---------------------------------------------------------------------
  // A printer: the reference against which the reader is checked
  // ---------------------------------------------------------------------

  function DigitChar(d: nat): (c: char)
    requires d < 10
    ensures IsDigit(c) && DigitValue(c) == d
  {
    ('0' as int + d) as char
  }

  /** Decimal text of a natural number, most significant digit first. */
  function ShowNat(n: nat): (s: string)
    ensures s != [] && forall i :: 0 <= i < |s| ==> IsDigit(s[i])
    ensures DecimalValue(s) == n
  {
    if n < 10 then [DigitChar(n)]
    else
      var s := ShowNat(n / 10) + [DigitChar(n % 10)];
      assert s[..|s| - 1] == ShowNat(n / 10);
      s
  }

  function ShowInt(n: int): string
  {
    if n < 0 then "-" + ShowNat(-n) else ShowNat(n)
  }

  /** Puts a backslash before every quote and backslash. */
  function Escape(v: string): string
  {
    if v == [] then []
    else (if IsPlain(v[0]) then [v[0]] else ['\\', v[0]]) + Escape(v[1..])
  }

  /**
   * The strings the grammar can express: each quote or backslash must follow
   * a plain character, because an escape can only end a unit that a plain
   * character began.
   */
  predicate PrintableString(v: string)
  {
    forall i :: 0 <= i < |v| && !IsPlain(v[i]) ==> i > 0 && IsPlain(v[i - 1])
  }

  /** Symbols that read back as themselves, not as a string or a number. */
  predicate PrintableSymbol(t: string)
  {
    && t != []
    && (forall i :: 0 <= i < |t| ==> IsSymbolChar(t[i]))
    && t[0] != '"'
    && !IsDigit(t[0])
    && !(|t| >= 2 && t[0] == '-' && IsDigit(t[1]))
  }

  predicate Printable(e: SExpr)
  {
    match e
    case Int(_) => true
    case Str(v) => PrintableString(v)
    case Sym(t) => PrintableSymbol(t)
    case List(es) => forall i :: 0 <= i < |es| ==> Printable(es[i])
  }


  function Print(e: SExpr): string
    decreases Size(e), 0
  {
    match e
    case Int(n) => ShowInt(n)
    case Str(v) => "\"" + Escape(v) + "\""
    case Sym(t) => t
    case List(es) =>
      if es == [] then "()"
      else
        SizeAllCons(es);
        "(" + (Print(es[0]) + PrintSpaced(es[1..])) + ")"
  }

  /** Each element preceded by one space. */
  function PrintSpaced(es: seq<SExpr>): string
    decreases SizeAll(es), 1
  {
    if es == [] then "" else " " + Print(es[0]) + PrintSpaced(es[1..])
  }

  /** What may follow an element of a printed tree. */
  predicate Delimited(rest: string)
  {
    rest == [] || rest[0] == ' ' || rest[0] == ')'
  }

  // ---------------------------------------------------------------------
  // Numbers
  // ---------------------------------------------------------------------

  lemma {:induction false} DigitRunOf(ds: string, rest: string)
    requires forall i :: 0 <= i < |ds| ==> IsDigit(ds[i])
    requires rest == [] || !IsDigit(rest[0])
    ensures DigitRun(ds + rest) == |ds|
  {
    if ds != [] {
      assert (ds + rest)[1..] == ds[1..] + rest;
      DigitRunOf(ds[1..], rest);
    }
  }

  /** A run of digits and the text after it, split where the run ends. */
  lemma DigitsThen(ds: string, rest: string)
    requires ds != [] && forall i :: 0 <= i < |ds| ==> IsDigit(ds[i])
    requires rest == [] || !IsDigit(rest[0])
    ensures DigitRun(ds + rest) == |ds|
    ensures (ds + rest)[..|ds|] == ds && (ds + rest)[|ds|..] == rest
    ensures (ds + rest)[0] != '-'
  {
    DigitRunOf(ds, rest);
    assert (ds + rest)[0] == ds[0];
  }

  /** A natural number's digits read back as that number. */
  lemma NatRoundTrip(n: nat, rest: string)
    requires rest == [] || !IsDigit(rest[0])
    ensures ParseNumber(ShowNat(n) + rest) == Some(Parsed(Int(n), rest))
  {
    var ds := ShowNat(n);
    DigitsThen(ds, rest);
    assert DecimalValue((ds + rest)[..|ds|]) == n;
  }

  /** A minus sign before the digits negates them. */
  lemma NegativeRoundTrip(n: nat, rest: string)
    requires rest == [] || !IsDigit(rest[0])
    ensures ParseNumber("-" + (ShowNat(n) + rest)) == Some(Parsed(Int(-(n as int)), rest))
  {
    var ds := ShowNat(n);
    var s := "-" + (ds + rest);
    var t := s[1..];
    assert s[0] == '-' && t == ds + rest;
    DigitsThen(ds, rest);
    assert ParseNumber(s) == Some(Parsed(Int(-(DecimalValue(t[..|ds|]) as int)), t[|ds|..]));
  }

  /** The printed text of a negative number: a minus sign, then the digits. */
  lemma NegativeText(n: int, rest: string)
    requires n < 0
    ensures ShowInt(n) + rest == "-" + (ShowNat(-n) + rest)
  {
  }

  /** `to_i` inverts decimal printing, and the rule stops at the first non-digit. */
  lemma NumberRoundTrip(n: int, rest: string)
    requires rest == [] || !IsDigit(rest[0])
    ensures ParseNumber(ShowInt(n) + rest) == Some(Parsed(Int(n), rest))
  {
    if n < 0 {
      NegativeText(n, rest);
      NegativeRoundTrip(-n, rest);
    } else {
      NatRoundTrip(n, rest);
    }
  }

  // ---------------------------------------------------------------------
  // Strings
  // ---------------------------------------------------------------------

  /** Unescaping undoes escaping, for every string. */
  lemma {:induction false} UnescapeEscape(v: string)
    ensures Unescape(Escape(v)) == v
  {
    if v != [] {
      var e := Escape(v);
      UnescapeEscape(v[1..]);
      if IsPlain(v[0]) {
        assert e == [v[0]] + Escape(v[1..]);
        assert e[1..] == Escape(v[1..]);
      } else {
        assert e == ['\\', v[0]] + Escape(v[1..]);
        assert e[2..] == Escape(v[1..]);
      }
    }
  }

  lemma PrintableStringTail(v: string, k: nat)
    requires PrintableString(v) && k <= |v|
    requires k < |v| ==> IsPlain(v[k])
    ensures PrintableString(v[k..])
  {
    forall i | 0 <= i < |v[k..]| && !IsPlain(v[k..][i])
      ensures i > 0 && IsPlain(v[k..][i - 1])
    {
      assert v[k..][i] == v[k + i];
    }
  }

  /** The body rule consumes exactly an escaped printable string. */
  lemma {:induction false} StringBodyOfEscape(v: string, rest: string)
    requires PrintableString(v)
    requires rest != [] && rest[0] == '"'
    ensures StringBody(Escape(v) + rest) == |Escape(v)|
  {
    var t := Escape(v) + rest;
    if v != [] {
      assert IsPlain(v[0]);
      if |v| >= 2 && !IsPlain(v[1]) {
        assert |v| >= 3 ==> IsPlain(v[2]);
        PrintableStringTail(v, 2);
        assert Escape(v[1..]) == ['\\', v[1]] + Escape(v[2..]);
        assert Escape(v) == [v[0], '\\', v[1]] + Escape(v[2..]);
        assert t[3..] == Escape(v[2..]) + rest;
        StringBodyOfEscape(v[2..], rest);
      } else {
        PrintableStringTail(v, 1);
        assert Escape(v) == [v[0]] + Escape(v[1..]);
        assert t[1..] == Escape(v[1..]) + rest;
        if |v| >= 2 {
          assert Escape(v[1..]) == [v[1]] + Escape(v[2..]);
        } else {
          assert Escape(v[1..]) == [];
        }
        assert t[1] != '\\';
        StringBodyOfEscape(v[1..], rest);
      }
    }
  }

  /** A printable string, escaped and quoted, reads back as itself. */
  lemma StringRoundTrip(v: string, rest: string)
    requires PrintableString(v)
    ensures ParseString("\"" + Escape(v) + "\"" + rest) == Some(Parsed(Str(v), rest))
  {
    var s := "\"" + Escape(v) + "\"" + rest;
    var k := |Escape(v)|;
    assert s[1..] == Escape(v) + ("\"" + rest);
    StringBodyOfEscape(v, "\"" + rest);
    assert s[1..k + 1] == Escape(v);
    assert s[k + 2..] == rest;
    UnescapeEscape(v);
  }

  /** A backslash cannot open a string body: such text is not a string. */
  lemma EscapeFirstIsNotString(s: string)
    requires |s| >= 2 && s[0] == '"' && s[1] == '\\'
    ensures ParseString(s) == None
  {
  }

  // ---------------------------------------------------------------------
  // Symbols and the order of the atom alternatives
  // ---------------------------------------------------------------------

  lemma {:induction false} SymbolRunOf(t: string, rest: string)
    requires forall i :: 0 <= i < |t| ==> IsSymbolChar(t[i])
    requires rest == [] || !IsSymbolChar(rest[0])
    ensures SymbolRun(t + rest) == |t|
  {
    if t != [] {
      assert (t + rest)[1..] == t[1..] + rest;
      SymbolRunOf(t[1..], rest);
    }
  }

  /** A digit run is read as a number, never as a symbol. */
  lemma DigitStartIsNumber(s: string)
    requires s != [] && IsDigit(s[0])
    ensures ParseAtom(s).Some? && ParseAtom(s) == ParseNumber(s)
    ensures ParseAtom(s).value.tree.Int?
  {
  }

  /** A minus sign without a digit after it falls through to a symbol. */
  lemma MinusWithoutDigitIsSymbol(rest: string)
    requires rest == [] || !IsSymbolChar(rest[0])
    ensures ParseAtom("-" + rest) == Some(Parsed(Sym("-"), rest))
  {
    SymbolRunOf("-", rest);
  }

  /** A printable symbol followed by a delimiter reads back as itself. */
  lemma SymbolRoundTrip(t: string, rest: string)
    requires PrintableSymbol(t) && Delimited(rest)
    ensures ParseAtom(t + rest) == Some(Parsed(Sym(t), rest))
  {
    var s := t + rest;
    SymbolRunOf(t, rest);
    assert s[0] == t[0];
    assert |t| >= 2 ==> s[1] == t[1];
    assert |t| == 1 && rest != [] ==> s[1] == rest[0];
    assert ParseString(s) == None;
    assert ParseNumber(s) == None;
    assert s[..|t|] == t && s[|t|..] == rest;
  }

  // ---------------------------------------------------------------------
  // Lists and whole trees
  // ---------------------------------------------------------------------

  /** No expression starts with a closing parenthesis. */
  lemma ExprFailsAtClose(s: string)
    requires s != [] && s[0] == ')'
    ensures ParseExpr(s) == None
  {
  }

  predicate AllPrintable(es: seq<SExpr>)
  {
    forall i :: 0 <= i < |es| ==> Printable(es[i])
  }

  lemma AllPrintableTail(es: seq<SExpr>)
    requires es != [] && AllPrintable(es)
    ensures Printable(es[0]) && AllPrintable(es[1..])
  {
    forall i | 0 <= i < |es[1..]| ensures Printable(es[1..][i]) {
      assert es[1..][i] == es[i + 1];
    }
  }

  /** One step of a group's followers (parse.rb:6) that matched an element. */
  lemma SpacedStep(s: string, p: Parsed)
    requires s != [] && s[0] == ' ' && ParseExpr(s[1..]) == Some(p)
    ensures ParseSpaced(s) == ParsedSeq([p.tree] + ParseSpaced(p.rest).trees, ParseSpaced(p.rest).rest)
  {
  }

  /** One unfolding of `list` whose inner repetition stopped at `)`. */
  lemma ListStep(s: string)
    requires s != [] && s[0] == '('
    requires ParseGroups(s[1..]).rest != [] && ParseGroups(s[1..]).rest[0] == ')'
    ensures ParseExpr(s) == Some(Parsed(List(ParseGroups(s[1..]).trees), ParseGroups(s[1..]).rest[1..]))
  {
  }

  /** The group repetition, given one group and then `)`. */
  lemma GroupsStep(s: string, p: Parsed, close: string)
    requires ParseExpr(s) == Some(p)
    requires ParseSpaced(p.rest).rest == close && close != [] && close[0] == ')'
    ensures ParseGroups(s) == ParsedSeq([p.tree] + ParseSpaced(p.rest).trees, close)
  {
    ExprFailsAtClose(close);
    assert ParseGroups(close) == ParsedSeq([], close);
    var g := [p.tree] + ParseSpaced(p.rest).trees;
    assert g + [] == g;
  }

  /**
   * Every printable tree, followed by a delimiter, is read back as itself
   * with the delimiter left unconsumed: numbers, strings and symbols by their
   * own rules, lists with their elements in order.
   */
  lemma {:induction false} ExprRoundTrip(e: SExpr, rest: string)
    requires Printable(e) && Delimited(rest)
    ensures ParseExpr(Print(e) + rest) == Some(Parsed(e, rest))
    decreases |Print(e) + rest|, 1
  {
    var s := Print(e) + rest;
    match e
    case Int(n) =>
      var ds := if n < 0 then ShowNat(-n) else ShowNat(n);
      assert s[0] == '-' || s[0] == ds[0];
      assert ParseList(s) == None;
      assert ParseString(s) == None;
      NumberRoundTrip(n, rest);
    case Str(v) =>
      assert s[0] == '"';
      assert ParseList(s) == None;
      StringRoundTrip(v, rest);
    case Sym(t) =>
      assert s[0] == t[0];
      assert ParseList(s) == None;
      SymbolRoundTrip(t, rest);
    case List(es) =>
      ListRoundTrip(es, rest);
  }

  lemma {:induction false} ListRoundTrip(es: seq<SExpr>, rest: string)
    requires AllPrintable(es) && Delimited(rest)
    ensures ParseExpr(Print(List(es)) + rest) == Some(Parsed(List(es), rest))
    decreases |Print(List(es)) + rest|, 0
  {
    if es == [] {
      EmptyListRoundTrip(rest);
    } else {
      AllPrintableTail(es);
      var close := ")" + rest;
      var tail := PrintSpaced(es[1..]) + close;
      var s := Print(List(es)) + rest;
      ListText(es, rest);
      ExprRoundTrip(es[0], tail);
      SpacedRoundTrip(es[1..], close);
      GroupsStep(s[1..], Parsed(es[0], tail), close);
      assert [es[0]] + es[1..] == es;
      ListStep(s);
    }
  }

  /** `()` reads back as the empty list. */
  lemma EmptyListRoundTrip(rest: string)
    requires Delimited(rest)
    ensures ParseExpr(Print(List([])) + rest) == Some(Parsed(List([]), rest))
  {
    var s := Print(List([])) + rest;
    var close := ")" + rest;
    assert close[1..] == rest;
    assert s != [] && s[0] == '(' && s[1..] == close by {
      assert s == "(" + close;
    }
    ExprFailsAtClose(close);
    assert ParseGroups(close) == ParsedSeq([], close);
    ListStep(s);
  }

  /** The printed text of a non-empty list, as the list rule sees it. */
  lemma ListText(es: seq<SExpr>, rest: string)
    requires es != []
    ensures var s := Print(List(es)) + rest;
            s != [] && s[0] == '(' && s[1..] == Print(es[0]) + (PrintSpaced(es[1..]) + (")" + rest))
  {
    var s := Print(List(es)) + rest;
    assert s == "(" + (Print(es[0]) + (PrintSpaced(es[1..]) + (")" + rest)));
  }

  /** The space-separated tail of a printed list reads back in order. */
  lemma {:induction false} SpacedRoundTrip(es: seq<SExpr>, rest: string)
    requires AllPrintable(es)
    requires rest != [] && rest[0] == ')'
    ensures ParseSpaced(PrintSpaced(es) + rest) == ParsedSeq(es, rest)
    decreases |PrintSpaced(es) + rest|, 1
  {
    if es == [] {
      assert PrintSpaced(es) + rest == rest;
      assert rest[0] != ' ';
    } else {
      SpacedConsRoundTrip(es, rest);
    }
  }

  lemma SpacedCons(s: string, x: string, tail: string, e: SExpr, trees: seq<SExpr>, rest: string)
    requires s == " " + (x + tail)
    requires ParseExpr(x + tail) == Some(Parsed(e, tail))
    requires ParseSpaced(tail) == ParsedSeq(trees, rest)
    ensures ParseSpaced(s) == ParsedSeq([e] + trees, rest)
  {
    assert s[1..] == x + tail;
  }

  /** The printed text of a non-empty spaced run, as the repetition sees it. */
  lemma SpacedText(es: seq<SExpr>, rest: string)
    requires es != []
    ensures PrintSpaced(es) + rest == " " + (Print(es[0]) + (PrintSpaced(es[1..]) + rest))
  {
  }

  /** What follows a printed element inside a list is a space or `)`. */
  lemma SpacedDelimited(es: seq<SExpr>, rest: string)
    requires rest != [] && rest[0] == ')'
    ensures Delimited(PrintSpaced(es) + rest)
  {
    if es != [] {
      assert (PrintSpaced(es) + rest)[0] == ' ';
    }
  }

  lemma {:induction false} SpacedConsRoundTrip(es: seq<SExpr>, rest: string)
    requires es != [] && AllPrintable(es)
    requires rest != [] && rest[0] == ')'
    ensures ParseSpaced(PrintSpaced(es) + rest) == ParsedSeq(es, rest)
    decreases |PrintSpaced(es) + rest|, 0
  {
    AllPrintableTail(es);
    var tail := PrintSpaced(es[1..]) + rest;
    var x := Print(es[0]);
    SpacedText(es, rest);
    SpacedDelimited(es[1..], rest);
    ExprRoundTrip(es[0], tail);
    SpacedRoundTrip(es[1..], rest);
    SpacedCons(PrintSpaced(es) + rest, x, tail, es[0], es[1..], rest);
    assert [es[0]] + es[1..] == es;
  }

  /** The reader inverts the printer on every printable tree. */
  lemma ParseRoundTrip(e: SExpr)
    requires Printable(e)
    ensures Parse(Print(e)) == Some(e)
  {
    ExprRoundTrip(e, []);
    assert Print(e) + [] == Print(e);
  }

  // ---------------------------------------------------------------------
  // The reader's own example inputs
  // ---------------------------------------------------------------------

  /** `-23` reads as the integer -23. */
  lemma ExampleNumber()
    ensures Parse("-23") == Some(Int(-23))
  {
    assert ShowNat(2) == "2";
    assert ShowNat(23) == ShowNat(2) + [DigitChar(3)] == "23";
    assert Print(Int(-23)) == "-23";
    ParseRoundTrip(Int(-23));
  }

  /** `"foo"` reads as the string `foo`, without its quotes. */
  lemma ExampleString()
    ensures Parse("\"foo\"") == Some(Str("foo"))
  {
    assert Escape("foo") == "foo";
    assert Print(Str("foo")) == "\"foo\"";
    ParseRoundTrip(Str("foo"));
  }

  /** `foo` reads as the symbol `foo`. */
  lemma ExampleSymbol()
    ensures Parse("foo") == Some(Sym("foo"))
  {
    ParseRoundTrip(Sym("foo"));
  }

  /** The tree of the reader's mixed-list self-test. */
  const SelfTestTree := List([Sym("foo"), Sym("bar"), Sym("-"), Int(123), Str("zz\"to\\p")])

  /** Escaping one more character in front. */
  lemma EscapeCons(c: char, r: string)
    ensures Escape([c] + r) == (if IsPlain(c) then [c] else ['\\', c]) + Escape(r)
  {
    assert ([c] + r)[1..] == r;
  }

  /** The escaped text of `to\p`, one character at a time. */
  lemma SelfTestEscapeTail()
    ensures Escape("to\\p") == "to\\\\p"
  {
    EscapeCons('p', []);
    EscapeCons('\\', "p");
    EscapeCons('o', "\\p");
    EscapeCons('t', "o\\p");
    assert ['\\'] + "p" == "\\p" && ['o'] + "\\p" == "o\\p" && ['t'] + "o\\p" == "to\\p";
  }

  lemma SelfTestString()
    ensures PrintableString("zz\"to\\p")
    ensures Escape("zz\"to\\p") == "zz\\\"to\\\\p"
  {
    SelfTestEscapeTail();
    EscapeCons('"', "to\\p");
    EscapeCons('z', "\"to\\p");
    EscapeCons('z', "z\"to\\p");
    assert ['"'] + "to\\p" == "\"to\\p" && ['z'] + "\"to\\p" == "z\"to\\p" && ['z'] + "z\"to\\p" == "zz\"to\\p";
  }

  /** Printing one more element in front of a spaced run. */
  lemma PrintSpacedCons(e: SExpr, es: seq<SExpr>)
    ensures PrintSpaced([e] + es) == " " + Print(e) + PrintSpaced(es)
  {
    assert ([e] + es)[0] == e && ([e] + es)[1..] == es;
  }

  /** Printing a list of five elements, spelled out. */
  lemma PrintFive(a: SExpr, b: SExpr, c: SExpr, d: SExpr, e: SExpr)
    ensures Print(List([a, b, c, d, e]))
         == "(" + (Print(a) + ((" " + Print(b)) + ((" " + Print(c)) + ((" " + Print(d)) + ((" " + Print(e)) + ""))))) + ")"
  {
    var es := [a, b, c, d, e];
    assert es[0] == a && es[1..] == [b] + [c, d, e];
    PrintSpacedCons(b, [c, d, e]);
    assert [c, d, e] == [c] + [d, e];
    PrintSpacedCons(c, [d, e]);
    assert [d, e] == [d] + [e];
    PrintSpacedCons(d, [e]);
    assert [e] == [e] + [];
    PrintSpacedCons(e, []);
  }

  lemma SelfTestNumber()
    ensures Print(Int(123)) == "123"
  {
    assert ShowNat(1) == "1";
    assert ShowNat(12) == "12";
  }

  lemma SelfTestQuoted()
    ensures Print(Str("zz\"to\\p")) == "\"zz\\\"to\\\\p\""
  {
    SelfTestString();
  }

  lemma SelfTestTextTail()
    ensures (" " + "-") + ((" " + "123") + ((" " + "\"zz\\\"to\\\\p\"") + ""))
         == " - 123 \"zz\\\"to\\\\p\""
  {
    var q := " \"zz\\\"to\\\\p\"";
    assert (" " + "\"zz\\\"to\\\\p\"") + "" == q;
    assert (" " + "123") + q == " 123" + q;
    assert (" " + "-") + (" 123" + q) == " - 123" + q;
  }

  lemma SelfTestText()
    ensures "(" + ("foo" + ((" " + "bar") + ((" " + "-") + ((" " + "123") + ((" " + "\"zz\\\"to\\\\p\"") + ""))))) + ")"
         == "(foo bar - 123 \"zz\\\"to\\\\p\")"
  {
    var t := " - 123 \"zz\\\"to\\\\p\"";
    SelfTestTextTail();
    assert (" " + "bar") + t == " bar" + t;
    assert "(" + ("foo" + (" bar" + t)) + ")" == "(foo bar" + t + ")";
  }

  lemma SelfTestPrintable()
    ensures Printable(SelfTestTree)
  {
    SelfTestString();
  }

  lemma SelfTestPrinted()
    ensures Print(SelfTestTree) == "(foo bar - 123 \"zz\\\"to\\\\p\")"
  {
    SelfTestNumber();
    SelfTestQuoted();
    SelfTestText();
    PrintFive(Sym("foo"), Sym("bar"), Sym("-"), Int(123), Str("zz\"to\\p"));
  }

  /** The mixed list of the reader's self-test, with its escapes removed. */
  lemma ExampleList()
    ensures Parse("(foo bar - 123 \"zz\\\"to\\\\p\")")
         == Some(List([Sym("foo"), Sym("bar"), Sym("-"), Int(123), Str("zz\"to\\p")]))
  {
    SelfTestPrintable();
    SelfTestPrinted();
    ParseRoundTrip(SelfTestTree);
  }

  /** `()` reads as the empty list. */
  lemma ExampleEmptyList()
    ensures Parse("()") == Some(List([]))
  {
    ParseRoundTrip(List([]));
  }

  lemma NumberThenSymbolNumber()
    ensures ParseGroup("123abc)") == Some(ParsedSeq([Int(123)], "abc)"))
  {
    DigitRunOf("123", "abc)");
    assert DecimalValue("123") == 123 by {
      assert "123"[..2] == "12" && "12"[..1] == "1";
    }
    assert "123abc)"[..3] == "123" && "123abc)"[3..] == "abc)";
    assert ParseNumber("123abc)") == Some(Parsed(Int(123), "abc)"));
    assert ParseExpr("123abc)") == Some(Parsed(Int(123), "abc)"));
    assert ParseSpaced("abc)") == ParsedSeq([], "abc)");
    assert [Int(123)] + [] == [Int(123)];
  }

  lemma NumberThenSymbolSymbol()
    ensures ParseGroups("abc)") == ParsedSeq([Sym("abc")], ")")
  {
    SymbolRunOf("abc", ")");
    assert "abc)"[..3] == "abc" && "abc)"[3..] == ")";
    assert ParseSymbol("abc)") == Some(Parsed(Sym("abc"), ")"));
    assert ParseExpr("abc)") == Some(Parsed(Sym("abc"), ")"));
    assert ParseSpaced(")") == ParsedSeq([], ")");
    assert [Sym("abc")] + [] == [Sym("abc")];
    assert ParseGroup("abc)") == Some(ParsedSeq([Sym("abc")], ")"));
    ExprFailsAtClose(")");
    assert ParseGroups(")") == ParsedSeq([], ")");
  }

  /** Greedy digits end a number where a letter begins: two elements. */
  lemma ExampleNumberThenSymbol()
    ensures Parse("(123abc)") == Some(List([Int(123), Sym("abc")]))
  {
    var s := "(123abc)";
    NumberThenSymbolNumber();
    NumberThenSymbolSymbol();
    assert ParseGroups("123abc)") == ParsedSeq([Int(123), Sym("abc")], ")");
    assert s[1..] == "123abc)";
    assert ParseList(s) == Some(Parsed(List([Int(123), Sym("abc")]), []));
  }

  /** A backslash-led text is not a string, so it falls through to a symbol. */
  lemma ExampleEscapeFirst()
    ensures Parse("\"\\\"a\"") == Some(Sym("\"\\\"a\""))
  {
    var s := "\"\\\"a\"";
    EscapeFirstIsNotString(s);
    SymbolRunOf(s, []);
    assert s + [] == s;
    assert s[..|s|] == s;
  }

  /** The escape pattern does not match a line feed: that backslash stays. */
  lemma ExampleBackslashNewline()
    ensures Unescape("\\\n") == "\\\n"
    ensures Unescape("\\n") == "n"
  {
  }
}
