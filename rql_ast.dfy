/** The RQL statements the driver receives from the parser, and the rendering
    of a list of values with Go's `%v` verb. */
module RqlAst {
  import opened MachineInts

  /** One parsed statement. The tag the source keeps in `typ` beside three
      optional sub-records is the constructor here, so exactly one payload is
      present. `exp` is the requested TTL, 0 when the query gives none. */
  datatype Statement =
    | SetStatement(key: string, val: string, exp: Uint64)
    | GetStatement(keys: seq<string>)
    | DeleteStatement(keys: seq<string>)

  /** The parsed program: statements in source order. */
  datatype Ast = Ast(statements: seq<Statement>)

  /** What `Parse` returns: an AST, or an error carrying its message. */
  datatype ParseResult = Parsed(ast: Ast) | ParseError(message: string)

  /** The elements of `vals`, separated by single spaces. */
  function Join(vals: seq<string>): (s: string)
    ensures vals == [] ==> s == []
    ensures |vals| == 1 ==> s == vals[0]
  {
    if vals == [] then []
    else if |vals| == 1 then vals[0]
    else Join(vals[..|vals| - 1]) + " " + vals[|vals| - 1]
  }

  /** Joining two non-empty lists puts exactly one space between the two
      joins: the separator sits between neighbouring values and nowhere else. */
  lemma {:induction false} JoinAppend(a: seq<string>, b: seq<string>)
    requires a != [] && b != []
    ensures Join(a + b) == Join(a) + " " + Join(b)
    decreases |b|
  {
    var init, last := b[..|b| - 1], b[|b| - 1];
    assert (a + b)[..|a + b| - 1] == a + init;
    assert (a + b)[|a + b| - 1] == last;
    if init == [] {
      assert a + init == a;
    } else {
      JoinAppend(a, init);
      assert Join(a + b) == (Join(a) + " " + Join(init)) + " " + last;
    }
  }

  /** `stringify` of a list of strings: `%v` prints a slice as its elements,
      space-separated, between square brackets (a nil slice prints `[]`). */
  function Render(vals: seq<string>): (s: string)
    ensures |s| >= 2 && s[0] == '[' && s[|s| - 1] == ']'
    ensures s[1..|s| - 1] == Join(vals)
  {
    "[" + Join(vals) + "]"
  }

  /** Two values render as `[x y]`. */
  lemma RenderPair(x: string, y: string)
    ensures Render([x, y]) == "[" + x + " " + y + "]"
  {
    JoinAppend([x], [y]);
    assert [x] + [y] == [x, y];
  }

  /** A found empty string renders like no value at all, so the rendered line
      cannot tell the two apart. */
  lemma RenderEmptyValueLooksLikeNone()
    ensures Render([""]) == Render([]) == "[]"
  {
  }
}
