/** sdk/python/backstop/parser.py: before-image queries for UPDATE and DELETE. */
module BeforeImage {
  import opened Options
  import opened Tables

  // ---- statements ------------------------------------------------------------------------------------

  /** `%s` or `%(name)s` */
  datatype Hole = Anonymous | Named(name: string)

  datatype Expr =
    | Column(column: string)
    | Literal(value: Value)
    | Placeholder(hole: Hole)
    | Call(op: string, args: Exprs)

  datatype Exprs = NoExprs | Exprs(head: Expr, tail: Exprs)

  /** The SET list, in the order it is written. */
  datatype Sets = NoSets | Set(column: string, value: Expr, rest: Sets)

  /** A single-table statement. */
  datatype Statement =
    | Update(table: string, sets: Sets, where: Option<Expr>)
    | Delete(table: string, where: Option<Expr>)
    | OtherStatement

  datatype Params = NoParams | Positional(values: seq<Value>) | Mapping(named: map<string, Value>)

  // ---- placeholders, in text order -------------------------------------------------------------------

  function Holes(e: Expr): seq<Hole> {
    match e
    case Placeholder(h) => [h]
    case Call(_, args) => HolesAll(args)
    case _ => []
  }

  function HolesAll(es: Exprs): seq<Hole> {
    if es.NoExprs? then [] else Holes(es.head) + HolesAll(es.tail)
  }

  function SetHoles(s: Sets): seq<Hole> {
    if s.NoSets? then [] else Holes(s.value) + SetHoles(s.rest)
  }

  function WhereHoles(where: Option<Expr>): seq<Hole> {
    if where.None? then [] else Holes(where.value)
  }

  /** PostgreSQL and psycopg2 number placeholders through SET first, then WHERE. */
  function StatementHoles(s: Statement): seq<Hole> {
    match s
    case Update(_, sets, where) => SetHoles(sets) + WhereHoles(where)
    case Delete(_, where) => WhereHoles(where)
    case OtherStatement => []
  }

  // ---- what the statements mean ----------------------------------------------------------------------

  /** Any interpretation of operators and functions, three-valued logic included. */
  type Semantics = (string, seq<Value>) -> Value

  function Supplied(params: Params, h: Hole, at: nat): Value {
    match params
    case NoParams => Null
    case Positional(vs) => if at < |vs| then vs[at] else Null
    case Mapping(m) => if h.Named? && h.name in m then m[h.name] else Null
  }

  /** The value of `e` on a row, when `at` placeholders precede it in the statement. */
  function Eval(sem: Semantics, e: Expr, row: Row, params: Params, at: nat): Value {
    match e
    case Column(c) => Cell(row, c)
    case Literal(v) => v
    case Placeholder(h) => Supplied(params, h, at)
    case Call(op, args) => sem(op, EvalAll(sem, args, row, params, at))
  }

  function EvalAll(sem: Semantics, es: Exprs, row: Row, params: Params, at: nat): seq<Value> {
    if es.NoExprs? then []
    else [Eval(sem, es.head, row, params, at)] + EvalAll(sem, es.tail, row, params, at + |Holes(es.head)|)
  }

  /** The new column values an UPDATE gives a row. */
  function Assigned(sem: Semantics, s: Sets, row: Row, params: Params, at: nat): Row {
    if s.NoSets? then map[]
    else map[s.column := Eval(sem, s.value, row, params, at)]
         + Assigned(sem, s.rest, row, params, at + |Holes(s.value)|)
  }

  /** Whether the driver accepts these parameters for a text with these placeholders. `strict` drivers
      refuse parameters sent with a text that has no placeholder; psycopg2 ignores them. */
  predicate Binds(strict: bool, holes: seq<Hole>, params: Params) {
    match params
    case NoParams => holes == []
    case Positional(vs) =>
      && (forall h <- holes :: h.Anonymous?)
      && (|vs| == |holes| || (holes == [] && !strict))
    case Mapping(m) => forall h <- holes :: h.Named? && h.name in m
  }

  /** WHERE keeps the rows on which the condition is true, not false and not NULL. */
  predicate Satisfies(sem: Semantics, where: Option<Expr>, row: Row, params: Params, at: nat) {
    where.None? || Eval(sem, where.value, row, params, at) == Bool(true)
  }

  function Matching(sem: Semantics, where: Option<Expr>, rows: map<PrimaryKey, Row>, params: Params,
                    at: nat): map<PrimaryKey, Row> {
    map k | k in rows && Satisfies(sem, where, rows[k], params, at) :: rows[k]
  }

  function SetCount(s: Statement): nat {
    if s.Update? then |SetHoles(s.sets)| else 0
  }

  /** The rows the statement touches; None when the driver refuses the parameters. */
  function Touched(strict: bool, sem: Semantics, s: Statement, params: Params,
                   rows: map<PrimaryKey, Row>): Option<map<PrimaryKey, Row>>
    requires !s.OtherStatement?
  {
    if Binds(strict, StatementHoles(s), params)
    then Some(Matching(sem, s.where, rows, params, SetCount(s))) else None
  }

  // ---- the before-image query ------------------------------------------------------------------------

  /** `SELECT * FROM table WHERE where`, and which parameters it needs. */
  datatype Query = Query(table: string, where: Expr, indexes: Option<seq<nat>>)

  function Range(from: nat, count: nat): seq<nat> {
    seq(count, i requires 0 <= i => from + i)
  }

  /** Positions of the placeholders equal to one of `wanted`: parse nodes compare by structure. */
  function Positions(holes: seq<Hole>, wanted: seq<Hole>): seq<nat> {
    if holes == [] then []
    else
      var n := |holes| - 1;
      Positions(holes[..n], wanted) + if holes[n] in wanted then [n] else []
  }

  /** `_where_param_indexes` */
  function WhereParamIndexes(s: Statement): Option<seq<nat>>
    requires !s.OtherStatement?
  {
    var inWhere := WhereHoles(s.where);
    if s.where.None? then None
    else if s.Update? && inWhere != [] then Some(Range(SetCount(s), |inWhere|))
    else if inWhere == [] then None
    else
      var found := Positions(StatementHoles(s), inWhere);
      if found == [] then None else Some(found)
  }

  /** `build_before_image_query`, on the parsed statements of a text. */
  function BeforeImageQuery(statements: seq<Statement>): Option<Query> {
    if |statements| != 1 || statements[0].OtherStatement? || statements[0].where.None? then None
    else Some(Query(statements[0].table, statements[0].where.value, WhereParamIndexes(statements[0])))
  }

  function Pick(values: seq<Value>, indexes: seq<nat>): seq<Value> {
    if indexes == [] then []
    else
      var n := |indexes| - 1;
      Pick(values, indexes[..n]) + if indexes[n] < |values| then [values[indexes[n]]] else []
  }

  /** `select_before_image_params` */
  function SelectParams(params: Params, q: Query): Params {
    if q.indexes.None? || !params.Positional? then params
    else Positional(Pick(params.values, q.indexes.value))
  }

  function Selected(strict: bool, sem: Semantics, q: Query, params: Params,
                    rows: map<PrimaryKey, Row>): Option<map<PrimaryKey, Row>> {
    if Binds(strict, Holes(q.where), params)
    then Some(Matching(sem, Some(q.where), rows, params, 0)) else None
  }

  // ---- evaluation under a placeholder offset ---------------------------------------------------------

  /** Dropping the parameters in front of an expression, and those behind it, does not change it. */
  lemma {:induction false} EvalShift(sem: Semantics, e: Expr, row: Row, vs: seq<Value>, skip: nat, count: nat,
                                     at: nat)
    requires skip + count <= |vs| && at + |Holes(e)| <= count
    ensures Eval(sem, e, row, Positional(vs), skip + at)
         == Eval(sem, e, row, Positional(vs[skip..skip + count]), at)
    decreases e
  {
    if e.Call? { EvalAllShift(sem, e.args, row, vs, skip, count, at); }
  }

  lemma {:induction false} EvalAllShift(sem: Semantics, es: Exprs, row: Row, vs: seq<Value>, skip: nat,
                                        count: nat, at: nat)
    requires skip + count <= |vs| && at + |HolesAll(es)| <= count
    ensures EvalAll(sem, es, row, Positional(vs), skip + at)
         == EvalAll(sem, es, row, Positional(vs[skip..skip + count]), at)
    decreases es
  {
    if es.Exprs? {
      EvalShift(sem, es.head, row, vs, skip, count, at);
      EvalAllShift(sem, es.tail, row, vs, skip, count, at + |Holes(es.head)|);
      assert skip + at + |Holes(es.head)| == skip + (at + |Holes(es.head)|);
    }
  }

  /** Without `%s` inside, only named parameters matter. */
  lemma {:induction false} EvalUnnumbered(sem: Semantics, e: Expr, row: Row, p: Params, at: nat, q: Params,
                                          bt: nat)
    requires (p == q && p.Mapping?) || Holes(e) == []
    ensures Eval(sem, e, row, p, at) == Eval(sem, e, row, q, bt)
    decreases e
  {
    if e.Call? { EvalAllUnnumbered(sem, e.args, row, p, at, q, bt); }
  }

  lemma {:induction false} EvalAllUnnumbered(sem: Semantics, es: Exprs, row: Row, p: Params, at: nat,
                                             q: Params, bt: nat)
    requires (p == q && p.Mapping?) || HolesAll(es) == []
    ensures EvalAll(sem, es, row, p, at) == EvalAll(sem, es, row, q, bt)
    decreases es
  {
    if es.Exprs? {
      EvalUnnumbered(sem, es.head, row, p, at, q, bt);
      EvalAllUnnumbered(sem, es.tail, row, p, at + |Holes(es.head)|, q, bt + |Holes(es.head)|);
    }
  }

  // ---- parameter selection ---------------------------------------------------------------------------

  lemma {:induction false} PickRange(values: seq<Value>, from: nat, count: nat)
    requires from + count <= |values|
    ensures Pick(values, Range(from, count)) == values[from..from + count]
  {
    if count > 0 {
      PickRange(values, from, count - 1);
      assert Range(from, count)[..count - 1] == Range(from, count - 1);
    }
  }

  lemma {:induction false} PositionsOfAll(holes: seq<Hole>, wanted: seq<Hole>)
    requires forall h <- holes :: h in wanted
    ensures Positions(holes, wanted) == Range(0, |holes|)
  {
    if holes != [] {
      var n := |holes| - 1;
      PositionsOfAll(holes[..n], wanted);
      assert Range(0, n) + [n] == Range(0, n + 1);
    }
  }

  lemma IndexesAreTheWhereRange(s: Statement)
    requires !s.OtherStatement? && s.where.Some?
    ensures WhereParamIndexes(s)
         == if WhereHoles(s.where) == [] then None
            else Some(Range(SetCount(s), |WhereHoles(s.where)|))
  {
    if s.Delete? { PositionsOfAll(StatementHoles(s), WhereHoles(s.where)); }
  }

  /** The one case in which the SELECT is sent parameters it has no use for: positional parameters that
      all belong to SET. A caller can see it in the statement and the parameters. */
  predicate OnlySetParams(s: Statement, params: Params) {
    s.Update? && WhereHoles(s.where) == [] && params.Positional? && params.values != []
  }

  /** The generated SELECT, with the selected parameters, returns exactly the rows the statement touches
      with all of its own: for every statement, table and interpretation of operators. A driver that
      refuses unused parameters refuses the SELECT in one case and no other. */
  lemma BeforeImageIsExact(strict: bool, sem: Semantics, s: Statement, params: Params,
                           rows: map<PrimaryKey, Row>)
    requires !s.OtherStatement? && s.where.Some? && Touched(strict, sem, s, params, rows).Some?
    ensures BeforeImageQuery([s]).Some? && BeforeImageQuery([s]).value.table == s.table
    ensures var q := BeforeImageQuery([s]).value;
            Selected(strict, sem, q, SelectParams(params, q), rows)
            == (if strict && OnlySetParams(s, params) then None
                else Touched(strict, sem, s, params, rows))
  {
    var q := BeforeImageQuery([s]).value;
    var chosen := SelectParams(params, q);
    var skip, count := SetCount(s), |Holes(q.where)|;
    IndexesAreTheWhereRange(s);
    SelectionBinds(strict, s, params);
    if params.Positional? && count > 0 {
      PickRange(params.values, skip, count);
      forall k | k in rows
        ensures Satisfies(sem, s.where, rows[k], params, skip) == Satisfies(sem, s.where, rows[k], chosen, 0)
      {
        EvalShift(sem, q.where, rows[k], params.values, skip, count, 0);
      }
    } else {
      forall k | k in rows
        ensures Satisfies(sem, s.where, rows[k], params, skip) == Satisfies(sem, s.where, rows[k], chosen, 0)
      {
        EvalUnnumbered(sem, q.where, rows[k], params, skip, chosen, 0);
      }
    }
    assert Matching(sem, s.where, rows, params, skip) == Matching(sem, Some(q.where), rows, chosen, 0);
  }

  lemma SelectionBinds(strict: bool, s: Statement, params: Params)
    requires !s.OtherStatement? && s.where.Some? && Binds(strict, StatementHoles(s), params)
    ensures var q := BeforeImageQuery([s]).value;
            Binds(strict, Holes(q.where), SelectParams(params, q)) <==> !(strict && OnlySetParams(s, params))
  {
    WhereIsLast(s);
    IndexesAreTheWhereRange(s);
    if params.Positional? {
      PositionalBinds(strict, s, params.values);
    } else {
      assert SelectParams(params, BeforeImageQuery([s]).value) == params;
    }
  }

  lemma PositionalBinds(strict: bool, s: Statement, vs: seq<Value>)
    requires !s.OtherStatement? && s.where.Some? && Binds(strict, StatementHoles(s), Positional(vs))
    ensures var q := BeforeImageQuery([s]).value;
            Binds(strict, Holes(q.where), SelectParams(Positional(vs), q))
            <==> !(strict && OnlySetParams(s, Positional(vs)))
  {
    WhereIsLast(s);
    IndexesAreTheWhereRange(s);
    var holes := WhereHoles(s.where);
    if holes != [] {
      PickRange(vs, SetCount(s), |holes|);
      assert SelectParams(Positional(vs), BeforeImageQuery([s]).value).values == vs[SetCount(s)..SetCount(s) + |holes|];
    }
  }

  /** The WHERE placeholders are the last ones of the statement. */
  lemma WhereIsLast(s: Statement)
    requires !s.OtherStatement?
    ensures |StatementHoles(s)| == SetCount(s) + |WhereHoles(s.where)|
    ensures forall h :: h in WhereHoles(s.where) ==> h in StatementHoles(s)
  {
  }

  // ---- the reference semantics, pinned ---------------------------------------------------------------

  /** `n` placeholders in a row. */
  function Blanks(n: nat): Exprs {
    if n == 0 then NoExprs else Exprs(Placeholder(Anonymous), Blanks(n - 1))
  }

  lemma {:induction false} BlanksTakeTheirTurn(sem: Semantics, n: nat, row: Row, vs: seq<Value>, at: nat)
    requires at + n <= |vs|
    ensures |HolesAll(Blanks(n))| == n
    ensures EvalAll(sem, Blanks(n), row, Positional(vs), at) == vs[at..at + n]
  {
    if n > 0 { BlanksTakeTheirTurn(sem, n - 1, row, vs, at + 1); }
  }

  /** Positional parameters go to placeholders in the order of the text, across nested calls. */
  lemma ParametersGoInOrder(sem: Semantics, op: string, k: nat, n: nat, row: Row, vs: seq<Value>, at: nat)
    requires at + k + n <= |vs|
    ensures EvalAll(sem, Exprs(Call(op, Blanks(k)), Blanks(n)), row, Positional(vs), at)
         == [sem(op, vs[at..at + k])] + vs[at + k..at + k + n]
  {
    BlanksTakeTheirTurn(sem, k, row, vs, at);
    BlanksTakeTheirTurn(sem, n, row, vs, at + k);
  }

  /** Named parameters go by name, and assignments take the parameters in front of WHERE in their order. */
  lemma ParametersReachTheirPlace(sem: Semantics, row: Row, name: string, m: map<string, Value>, a: string, b: string,
                                  x: Value, y: Value)
    requires a != b
    ensures name in m ==> Eval(sem, Placeholder(Named(name)), row, Mapping(m), 0) == m[name]
    ensures Assigned(sem, Set(a, Placeholder(Anonymous), Set(b, Placeholder(Anonymous), NoSets)), row,
                     Positional([x, y]), 0) == map[a := x, b := y]
  {
    var rest := Set(b, Placeholder(Anonymous), NoSets);
    assert Assigned(sem, rest, row, Positional([x, y]), 1) == map[b := y];
  }

  /** Parameters of the wrong number or kind are refused. */
  lemma ParametersMustFit(strict: bool, holes: seq<Hole>, vs: seq<Value>, m: map<string, Value>)
    requires holes != []
    ensures !Binds(strict, holes, NoParams)
    ensures Binds(strict, holes, Positional(vs)) ==> |vs| == |holes| && forall h :: h in holes ==> h == Anonymous
    ensures Binds(strict, holes, Mapping(m)) ==> forall h :: h in holes ==> h.Named? && h.name in m
  {
  }

  /** A condition that is false, NULL or no truth value at all touches nothing. */
  lemma WhereKeepsTrueOnly(strict: bool, sem: Semantics, table: string, v: Value, rows: map<PrimaryKey, Row>)
    ensures Touched(strict, sem, Statement.Delete(table, Some(Literal(v))), NoParams, rows)
         == Some(if v == Bool(true) then rows else map[])
  {
    assert Matching(sem, Some(Literal(v)), rows, NoParams, 0) == if v == Bool(true) then rows else map[];
  }

  /** A scoped capture is made of one UPDATE or DELETE with a WHERE clause and of nothing else; the guard captures
      the whole table otherwise. */
  lemma ScopedOnlyForOneStatement(statements: seq<Statement>)
    ensures BeforeImageQuery(statements).Some?
            <==> exists s :: statements == [s] && (s.Update? || s.Delete?) && s.where.Some?
  {
    if |statements| == 1 { assert statements == [statements[0]]; }
  }

  /** For a strict driver the boundary is real: `UPDATE t SET a = %s WHERE b` with one parameter. */
  lemma StrictDriverLosesTheBeforeImage(sem: Semantics, rows: map<PrimaryKey, Row>)
    ensures var s := Update("t", Set("a", Placeholder(Anonymous), NoSets), Some(Column("b")));
            var q := BeforeImageQuery([s]).value;
            && Touched(true, sem, s, Positional([Int(1)]), rows).Some?
            && Selected(true, sem, q, SelectParams(Positional([Int(1)]), q), rows).None?
  {
    var s := Update("t", Set("a", Placeholder(Anonymous), NoSets), Some(Column("b")));
    assert SetHoles(s.sets) == [Anonymous];
    assert WhereHoles(s.where) == [];
    assert StatementHoles(s) == [Anonymous];
  }
}
