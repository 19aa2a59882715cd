/** gateway/sql_analyzer.go: risk classification of a parsed SQL batch. */
module SqlAnalysis {
  import opened Options
  import opened Text

  datatype Risk = Safe | High | ImpactCritical | Critical

  function RiskName(r: Risk): string {
    match r
    case Safe => "SAFE"
    case High => "HIGH"
    case ImpactCritical => "IMPACT_CRITICAL"
    case Critical => "CRITICAL"
  }

  function RiskRank(r: Risk): nat {
    match r
    case Critical => 3
    case ImpactCritical => 3
    case High => 2
    case Safe => 0
  }

  datatype Relation = Relation(schema: string, table: string)

  datatype DropKind = DropTable | DropDatabase | DropSchema | DropOther

  /** Statement nodes, as far as the classifier looks at them. `Other` carries the node's Go type
      name, which `%T` prints with a leading asterisk. */
  datatype Stmt =
    | Missing
    | Select | Show | SetVariable
    | Transaction(plain: bool)
    | Insert(rel: Option<Relation>)
    | Merge(rel: Option<Relation>)
    | Delete(rel: Option<Relation>, hasWhere: bool)
    | Update(rel: Option<Relation>, hasWhere: bool)
    | Drop(kind: DropKind, names: seq<Relation>)
    | DropDb
    | Truncate(names: seq<Relation>)
    | Explain(options: seq<string>, query: Stmt)
    | Ddl | Write
    | Other(nodeType: string)

  /** What the PostgreSQL parser makes of the query text. */
  datatype Parse = EmptyText | Rejected | Parsed(stmts: seq<Stmt>)

  datatype Analysis = Analysis(
    risk: Risk, operation: string, schema: string, table: string, count: nat, recoverable: bool)

  function SafeOf(op: string): Analysis {
    Analysis(Safe, op, "", "", 0, false)
  }

  function HighOf(op: string, rel: Relation): Analysis {
    Analysis(High, op, rel.schema, rel.table, 0, false)
  }

  function CriticalOf(op: string, rel: Relation, recoverable: bool): Analysis {
    Analysis(Critical, op, rel.schema, rel.table, 0, recoverable)
  }

  const NoRelation := Relation("", "")

  function RangeVarParts(rel: Option<Relation>): Relation {
    if rel.None? then NoRelation else rel.value
  }

  /** `relationNodeNames` / `dropObjectNames`: nodes without a table name are passed over. */
  function NamedOnly(names: seq<Relation>): seq<Relation> {
    if names == [] then []
    else (if names[0].table != "" then [names[0]] else []) + NamedOnly(names[1..])
  }

  function TableNames(names: seq<Relation>): seq<string> {
    seq(|names|, i requires 0 <= i < |names| => names[i].table)
  }

  /** DROP TABLE and TRUNCATE: recoverable only when exactly one table is named. */
  function AnalyzeTargets(op: string, names: seq<Relation>): Analysis {
    var named := NamedOnly(names);
    if |named| == 1 then CriticalOf(op, named[0], true)
    else CriticalOf(op, Relation("", Join(TableNames(named))), false)
  }

  predicate ExplainAnalyze(options: seq<string>) {
    ContainsFold(options, "analyze")
  }

  function AnalyzeStatement(s: Stmt): Analysis {
    match s
    case Missing => CriticalOf("UNKNOWN", NoRelation, false)
    case Select => SafeOf("SELECT")
    case Show => SafeOf("SHOW")
    case SetVariable => SafeOf("SET")
    case Transaction(plain) => if plain then SafeOf("TRANSACTION") else HighOf("TRANSACTION", NoRelation)
    case Insert(rel) => HighOf("INSERT", RangeVarParts(rel))
    case Merge(rel) => HighOf("MERGE", RangeVarParts(rel))
    case Delete(rel, hasWhere) =>
      var r := RangeVarParts(rel);
      if hasWhere then HighOf("DELETE", r) else CriticalOf("DELETE", r, r.table != "")
    case Update(rel, hasWhere) =>
      var r := RangeVarParts(rel);
      if hasWhere then HighOf("UPDATE", r) else CriticalOf("UPDATE", r, r.table != "")
    case Drop(kind, names) =>
      (match kind
       case DropTable => AnalyzeTargets("DROP TABLE", names)
       case DropDatabase => CriticalOf("DROP DATABASE", NoRelation, false)
       case DropSchema => CriticalOf("DROP SCHEMA", NoRelation, false)
       case DropOther => HighOf("DROP", NoRelation))
    case DropDb => CriticalOf("DROP DATABASE", NoRelation, false)
    case Truncate(names) => AnalyzeTargets("TRUNCATE", names)
    case Explain(options, query) =>
      if ExplainAnalyze(options) then
        var inner := AnalyzeStatement(query);
        inner.(operation := "EXPLAIN ANALYZE " + inner.operation)
      else SafeOf("EXPLAIN")
    case Ddl => HighOf("DDL", NoRelation)
    case Write => HighOf("WRITE", NoRelation)
    case Other(nodeType) => CriticalOf("*" + nodeType, NoRelation, false)
  }

  function HigherRisk(current: Analysis, next: Analysis): Analysis {
    if RiskRank(next.risk) > RiskRank(current.risk) then next else current
  }

  // ---- the declarative reading of a batch ------------------------------------------------

  predicate IsCritical(s: Stmt) {
    AnalyzeStatement(s).risk == Critical
  }

  /** A CRITICAL statement that one table snapshot can undo. */
  predicate Recoverable(s: Stmt) {
    IsCritical(s) && AnalyzeStatement(s).recoverable && AnalyzeStatement(s).table != ""
  }

  /** The first statement of maximal risk. */
  function Dominant(stmts: seq<Stmt>): (k: nat)
    requires stmts != []
    ensures k < |stmts|
    ensures forall i :: 0 <= i < |stmts| ==>
      RiskRank(AnalyzeStatement(stmts[i]).risk) <= RiskRank(AnalyzeStatement(stmts[k]).risk)
    ensures forall i :: 0 <= i < k ==>
      RiskRank(AnalyzeStatement(stmts[i]).risk) < RiskRank(AnalyzeStatement(stmts[k]).risk)
  {
    if |stmts| == 1 then 0
    else
      var n := |stmts| - 1;
      var k := Dominant(stmts[..n]);
      if RiskRank(AnalyzeStatement(stmts[n]).risk) > RiskRank(AnalyzeStatement(stmts[k]).risk) then n else k
  }

  /** Every table some CRITICAL statement can be undone for. */
  function CriticalTables(stmts: seq<Stmt>): set<string> {
    set s | s in stmts && Recoverable(s) :: AnalyzeStatement(s).table
  }

  /** Some CRITICAL statement has no table to restore. */
  predicate HasUnrecoverable(stmts: seq<Stmt>) {
    exists s :: s in stmts && IsCritical(s) && !Recoverable(s)
  }

  /** The last schema a CRITICAL statement qualified `table` with. */
  function LastSchema(stmts: seq<Stmt>, table: string): string {
    if stmts == [] then ""
    else
      var n := |stmts| - 1;
      var a := AnalyzeStatement(stmts[n]);
      if Recoverable(stmts[n]) && a.table == table && a.schema != "" then a.schema
      else LastSchema(stmts[..n], table)
  }

  ghost function BatchAnalysis(stmts: seq<Stmt>): Analysis
    requires stmts != []
  {
    var top := AnalyzeStatement(stmts[Dominant(stmts)]).(count := |stmts|);
    if top.risk != Critical then top
    else
      var tables := SortedKeys(CriticalTables(stmts));
      if |tables| == 1 && !HasUnrecoverable(stmts) then
        top.(table := tables[0], schema := LastSchema(stmts, tables[0]), recoverable := true)
      else if |tables| > 1 then top.(table := Join(tables), recoverable := false)
      else top.(table := "", recoverable := false)
  }

  ghost function AnalysisOf(parse: Parse): Analysis {
    match parse
    case EmptyText => SafeOf("EMPTY")
    case Rejected => CriticalOf("PARSE_FAILURE", NoRelation, false)
    case Parsed(stmts) => if stmts == [] then SafeOf("EMPTY") else BatchAnalysis(stmts)
  }

  /** The schema recorded for a table; a Go map read. */
  function SchemaIn(schemas: map<string, string>, table: string): string {
    if table in schemas then schemas[table] else ""
  }

  /** The loop of `analyzeSQL`: one pass collects everything the declarative reading asks for. */
  method ScanBatch(stmts: seq<Stmt>)
    returns (result: Analysis, tables: set<string>, unrecoverable: bool, schemas: map<string, string>)
    requires stmts != []
    ensures result == AnalyzeStatement(stmts[Dominant(stmts)])
    ensures tables == CriticalTables(stmts) && unrecoverable == HasUnrecoverable(stmts)
    ensures forall t :: SchemaIn(schemas, t) == LastSchema(stmts, t)
  {
    result := SafeOf("");
    var resultSet := false;
    tables, unrecoverable, schemas := {}, false, map[];
    for i := 0 to |stmts|
      invariant resultSet == (i > 0)
      invariant i > 0 ==> result == AnalyzeStatement(stmts[Dominant(stmts[..i])])
      invariant tables == CriticalTables(stmts[..i])
      invariant unrecoverable == HasUnrecoverable(stmts[..i])
      invariant forall t :: SchemaIn(schemas, t) == LastSchema(stmts[..i], t)
    {
      var statement := AnalyzeStatement(stmts[i]);
      ghost var earlier := schemas;
      if !resultSet {
        result, resultSet := statement, true;
      } else {
        result := HigherRisk(result, statement);
      }
      if statement.risk == Critical {
        if statement.recoverable && statement.table != "" {
          tables := tables + {statement.table};
          if statement.schema != "" {
            schemas := schemas[statement.table := statement.schema];
          }
        } else {
          unrecoverable := true;
        }
      }
      assert forall t :: SchemaIn(schemas, t) ==
               if Recoverable(stmts[i]) && statement.table == t && statement.schema != "" then statement.schema
               else SchemaIn(earlier, t);
      PrefixStep(stmts, i);
    }
    assert stmts[..|stmts|] == stmts;
  }

  /** `analyzeSQL` computes the declarative reading. */
  method AnalyzeSql(parse: Parse) returns (result: Analysis)
    ensures result == AnalysisOf(parse)
  {
    if parse.EmptyText? { return SafeOf("EMPTY"); }
    if parse.Rejected? { return CriticalOf("PARSE_FAILURE", NoRelation, false); }
    var stmts := parse.stmts;
    if stmts == [] { return SafeOf("EMPTY"); }

    var tables, unrecoverable, schemas;
    result, tables, unrecoverable, schemas := ScanBatch(stmts);
    if result.risk == Critical {
      var keys := SortKeys(tables);
      if |keys| == 1 && !unrecoverable {
        result := result.(table := keys[0],
                          schema := SchemaIn(schemas, keys[0]),
                          recoverable := true);
      } else if |keys| > 1 {
        result := result.(table := Join(keys), recoverable := false);
      } else if unrecoverable {
        result := result.(table := "", recoverable := false);
      } else {
        CriticalIsAccountedFor(stmts);
        assert false;
      }
    }
    result := result.(count := |stmts|);
  }

  /** One more statement, in each of the declarative definitions. */
  lemma {:induction false} PrefixStep(stmts: seq<Stmt>, i: nat)
    requires i < |stmts|
    ensures CriticalTables(stmts[..i + 1]) ==
            CriticalTables(stmts[..i]) + if Recoverable(stmts[i]) then {AnalyzeStatement(stmts[i]).table} else {}
    ensures HasUnrecoverable(stmts[..i + 1]) ==
            (HasUnrecoverable(stmts[..i]) || (IsCritical(stmts[i]) && !Recoverable(stmts[i])))
    ensures i > 0 ==> AnalyzeStatement(stmts[Dominant(stmts[..i + 1])]) ==
                      HigherRisk(AnalyzeStatement(stmts[Dominant(stmts[..i])]), AnalyzeStatement(stmts[i]))
    ensures forall t :: LastSchema(stmts[..i + 1], t) ==
              var a := AnalyzeStatement(stmts[i]);
              if Recoverable(stmts[i]) && a.table == t && a.schema != "" then a.schema else LastSchema(stmts[..i], t)
  {
    var shorter, last := stmts[..i], stmts[i];
    assert stmts[..i + 1] == shorter + [last];
    AppendToAccumulators(shorter, last);
    if i > 0 { AppendToDominant(shorter, last); }
    forall t { AppendToSchemas(shorter, last, t); }
  }

  lemma {:induction false} AppendToDominant(stmts: seq<Stmt>, last: Stmt)
    requires stmts != []
    ensures var longer := stmts + [last];
            AnalyzeStatement(longer[Dominant(longer)]) ==
            HigherRisk(AnalyzeStatement(stmts[Dominant(stmts)]), AnalyzeStatement(last))
  {
    var longer := stmts + [last];
    assert longer[..|longer| - 1] == stmts;
  }

  lemma {:induction false} AppendToSchemas(stmts: seq<Stmt>, last: Stmt, t: string)
    ensures LastSchema(stmts + [last], t) ==
            var a := AnalyzeStatement(last);
            if Recoverable(last) && a.table == t && a.schema != "" then a.schema else LastSchema(stmts, t)
  {
    var longer := stmts + [last];
    assert longer[..|longer| - 1] == stmts;
  }

  lemma {:induction false} AppendToAccumulators(stmts: seq<Stmt>, last: Stmt)
    ensures CriticalTables(stmts + [last]) ==
            CriticalTables(stmts) + if Recoverable(last) then {AnalyzeStatement(last).table} else {}
    ensures HasUnrecoverable(stmts + [last]) == (HasUnrecoverable(stmts) || (IsCritical(last) && !Recoverable(last)))
  {
    var longer := stmts + [last];
    assert forall s :: s in longer <==> s in stmts || s == last;
    assert last in longer;
  }

  /** A CRITICAL verdict always leaves a trace in one of the two accumulators. */
  lemma CriticalIsAccountedFor(stmts: seq<Stmt>)
    requires stmts != [] && IsCritical(stmts[Dominant(stmts)])
    ensures HasUnrecoverable(stmts) || CriticalTables(stmts) != {}
    ensures HasUnrecoverable(stmts) || SortedKeys(CriticalTables(stmts)) != []
  {
    var s := stmts[Dominant(stmts)];
    if Recoverable(s) {
      assert AnalyzeStatement(s).table in CriticalTables(stmts);
    } else {
      assert s in stmts && IsCritical(s);
    }
  }

  /** No single statement is classified IMPACT_CRITICAL; only the impact estimate can do that. */
  lemma {:induction false} StatementNeverImpactCritical(s: Stmt)
    ensures AnalyzeStatement(s).risk != ImpactCritical
  {
    if s.Explain? { StatementNeverImpactCritical(s.query); }
  }

  /** EXPLAIN ANALYZE hides nothing: risk and target are those of the wrapped statement. */
  lemma ExplainAnalyzeIsTransparent(options: seq<string>, query: Stmt)
    requires ExplainAnalyze(options)
    ensures var outer, inner := AnalyzeStatement(Explain(options, query)), AnalyzeStatement(query);
            outer.risk == inner.risk && outer.table == inner.table && outer.recoverable == inner.recoverable
  {
  }

  /** A batch is CRITICAL exactly when one of its statements is. */
  lemma BatchCritical(stmts: seq<Stmt>)
    requires stmts != []
    ensures BatchAnalysis(stmts).risk == Critical <==> exists s :: s in stmts && IsCritical(s)
  {
    var k := Dominant(stmts);
    StatementNeverImpactCritical(stmts[k]);
    if s :| s in stmts && IsCritical(s) {
      var i :| 0 <= i < |stmts| && stmts[i] == s;
      assert RiskRank(AnalyzeStatement(stmts[i]).risk) <= RiskRank(AnalyzeStatement(stmts[k]).risk);
    }
    if IsCritical(stmts[k]) {
      assert stmts[k] in stmts;
    }
  }

  /** Order does not matter: reordering or repeating the statements of a CRITICAL batch changes
      neither its risk nor its recovery target. */
  lemma CriticalBatchIgnoresOrder(a: seq<Stmt>, b: seq<Stmt>)
    requires a != [] && b != []
    requires forall s :: s in a <==> s in b
    requires BatchAnalysis(a).risk == Critical
    ensures BatchAnalysis(b).risk == Critical
    ensures BatchAnalysis(b).table == BatchAnalysis(a).table
    ensures BatchAnalysis(b).recoverable == BatchAnalysis(a).recoverable
  {
    BatchCritical(a);
    BatchCritical(b);
    assert CriticalTables(a) == CriticalTables(b);
    assert HasUnrecoverable(a) == HasUnrecoverable(b);
    CriticalIsAccountedFor(a);
    CriticalIsAccountedFor(b);
  }

  /** The risk of a batch is the maximum over its statements, and its operation that of the first
      statement reaching the maximum. */
  lemma BatchRiskIsMaximum(stmts: seq<Stmt>)
    requires stmts != []
    ensures forall s :: s in stmts ==> RiskRank(AnalyzeStatement(s).risk) <= RiskRank(BatchAnalysis(stmts).risk)
    ensures exists k :: 0 <= k < |stmts| && AnalyzeStatement(stmts[k]).risk == BatchAnalysis(stmts).risk
                     && AnalyzeStatement(stmts[k]).operation == BatchAnalysis(stmts).operation
                     && forall i :: 0 <= i < k ==>
                          RiskRank(AnalyzeStatement(stmts[i]).risk) < RiskRank(BatchAnalysis(stmts).risk)
  {
    var k := Dominant(stmts);
    assert AnalyzeStatement(stmts[k]).risk == BatchAnalysis(stmts).risk;
  }
}
