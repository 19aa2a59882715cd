/** gateway/policy.go, with the parts of sql_analyzer.go and mcp_server.go that turn an analysis
    into a recovery target. */
module Policy {
  import opened Options
  import opened Text
  import opened SqlAnalysis

  datatype Action = Execute | Approve | Block

  datatype GatewayPolicy = GatewayPolicy(
    approvalRisks: seq<string>,
    blockOperations: seq<string>,
    requireRecovery: bool,
    blockUnknown: bool,
    blockUnrecoverable: bool,
    maxSnapshotAge: int,
    requireHeartbeat: bool,
    maxHeartbeatAge: int)

  const DefaultPolicy := GatewayPolicy(
    ["HIGH", "IMPACT_CRITICAL", "CRITICAL"], ["DROP DATABASE", "DROP SCHEMA"], true, true, true, 300, true, 120)

  datatype Decision = Decision(action: Action, requiresRecovery: bool, recoveryPossible: bool)

  predicate RequiresApproval(p: GatewayPolicy, risk: Risk) {
    ContainsFold(p.approvalRisks, RiskName(risk))
  }

  predicate CriticalClass(risk: Risk) {
    risk == Critical || risk == ImpactCritical
  }

  predicate UnknownOperation(op: string) {
    op == "PARSE_FAILURE" || op == "UNKNOWN" || (op != "" && op[0] == '*')
  }

  function Decide(p: GatewayPolicy, a: Analysis): Decision {
    var possible := CriticalClass(a.risk) && a.recoverable && !Blank(a.table);
    if ContainsFold(p.blockOperations, a.operation) then Decision(Block, false, possible)
    else if p.blockUnknown && UnknownOperation(a.operation) then Decision(Block, false, false)
    else if CriticalClass(a.risk) && p.blockUnrecoverable && !possible then Decision(Block, false, false)
    else if RequiresApproval(p, a.risk) then
      Decision(Approve, CriticalClass(a.risk) && p.requireRecovery, possible)
    else Decision(Execute, false, possible)
  }

  /** `applyImpactAnalysis`; the estimate itself is an arbitrary outcome. It can switch the
      recoverable flag back on for a batch the analyzer had marked unrecoverable. */
  function ApplyImpact(a: Analysis, impactCritical: bool): Analysis {
    if impactCritical then a.(risk := ImpactCritical, recoverable := a.recoverable || !Blank(a.table)) else a
  }

  /** `criticalRecoveryTableFromAnalysis`; None is the error return. */
  function RecoveryTable(a: Analysis): Option<string> {
    if !CriticalClass(a.risk) then None
    else if !a.recoverable || Blank(a.table) then None
    else if ',' in a.table then None
    else Some(a.table)
  }

  /** The policies the recovery guarantee is about. */
  predicate Guarded(p: GatewayPolicy) {
    RequiresApproval(p, Critical) && RequiresApproval(p, ImpactCritical) && p.requireRecovery
  }

  lemma DefaultBlockList()
    ensures ContainsFold(DefaultPolicy.blockOperations, "DROP DATABASE")
    ensures ContainsFold(DefaultPolicy.blockOperations, "DROP SCHEMA")
  {
    assert EqualFold(DefaultPolicy.blockOperations[0], "DROP DATABASE");
    assert EqualFold(DefaultPolicy.blockOperations[1], "DROP SCHEMA");
  }

  lemma DefaultPolicyIsGuarded()
    ensures Guarded(DefaultPolicy)
    ensures RequiresApproval(DefaultPolicy, High) && !RequiresApproval(DefaultPolicy, Safe)
    ensures ContainsFold(DefaultPolicy.blockOperations, "DROP DATABASE")
    ensures ContainsFold(DefaultPolicy.blockOperations, "DROP SCHEMA")
    ensures DefaultPolicy.blockUnknown && DefaultPolicy.blockUnrecoverable && DefaultPolicy.requireHeartbeat
    ensures DefaultPolicy.maxSnapshotAge == 300 && DefaultPolicy.maxHeartbeatAge == 120
  {
    DefaultBlockList();
    assert EqualFold(DefaultPolicy.approvalRisks[0], "HIGH");
    assert EqualFold(DefaultPolicy.approvalRisks[1], "IMPACT_CRITICAL");
    assert EqualFold(DefaultPolicy.approvalRisks[2], "CRITICAL");
    assert |"SAFE"| == |"HIGH"| && Lower("SAFE"[0]) != Lower("HIGH"[0]);
  }

  /** `table` is the one recoverable target of every CRITICAL statement in the batch. */
  ghost predicate CoveredBy(stmts: seq<Stmt>, table: string) {
    forall s :: s in stmts && IsCritical(s) ==> Recoverable(s) && AnalyzeStatement(s).table == table
  }

  ghost predicate ContainsCritical(stmts: seq<Stmt>) {
    exists s :: s in stmts && IsCritical(s)
  }

  lemma OneTable(stmts: seq<Stmt>, table: string)
    requires SortedKeys(CriticalTables(stmts)) == [table]
    ensures CriticalTables(stmts) == {table}
  {
    assert Elements([table]) == {table};
  }

  lemma CoveredHasOneTable(stmts: seq<Stmt>, table: string)
    requires ContainsCritical(stmts) && CoveredBy(stmts, table)
    ensures SortedKeys(CriticalTables(stmts)) == [table] && !HasUnrecoverable(stmts)
  {
    var s :| s in stmts && IsCritical(s);
    assert AnalyzeStatement(s).table in CriticalTables(stmts);
    assert CriticalTables(stmts) == {table};
    assert Elements([table]) == {table};
    SortedUnique(SortedKeys(CriticalTables(stmts)), [table]);
  }

  /** Whatever the impact estimate says, the recovery target of a batch containing a CRITICAL
      statement is `table` exactly when that one name covers every CRITICAL statement in it. The
      three layers share the work: the analyzer joins several names with commas, the impact step
      may mark the joined name recoverable, and the comma check refuses it. */
  lemma RecoveryTargetCoversBatch(stmts: seq<Stmt>, impactCritical: bool, table: string)
    requires ContainsCritical(stmts)
    ensures RecoveryTable(ApplyImpact(AnalysisOf(Parsed(stmts)), impactCritical)) == Some(table)
            <==> CoveredBy(stmts, table) && !Blank(table) && ',' !in table
  {
    BatchCritical(stmts);
    var base := BatchAnalysis(stmts);
    var tables := SortedKeys(CriticalTables(stmts));
    if CoveredBy(stmts, table) {
      CoveredHasOneTable(stmts, table);
    }
    if |tables| > 1 {
      JoinHasComma(tables);
    } else if |tables| == 1 && !HasUnrecoverable(stmts) {
      OneTable(stmts, tables[0]);
      forall s | s in stmts && IsCritical(s)
        ensures Recoverable(s) && AnalyzeStatement(s).table == tables[0]
      {
        assert Recoverable(s);
        assert AnalyzeStatement(s).table in CriticalTables(stmts);
      }
    } else {
      CriticalIsAccountedFor(stmts);
      assert Blank(base.table);
    }
  }

  /** Under a guarded policy a batch containing a CRITICAL statement never runs without approval,
      and approval always demands a recovery point. */
  lemma CriticalBatchNeedsRecovery(p: GatewayPolicy, stmts: seq<Stmt>, impactCritical: bool)
    requires Guarded(p) && ContainsCritical(stmts)
    ensures var d := Decide(p, ApplyImpact(AnalysisOf(Parsed(stmts)), impactCritical));
            d.action == Block || (d.action == Approve && d.requiresRecovery)
  {
    BatchCritical(stmts);
  }

  /** Statements no table snapshot can undo, also under EXPLAIN ANALYZE. */
  predicate BeyondTableSnapshots(s: Stmt) {
    match s
    case Missing => true
    case DropDb => true
    case Drop(kind, _) => kind == DropDatabase || kind == DropSchema
    case Other(_) => true
    case Explain(options, query) => ExplainAnalyze(options) && BeyondTableSnapshots(query)
    case _ => false
  }

  lemma {:induction false} BeyondIsUnrecoverable(s: Stmt)
    requires BeyondTableSnapshots(s)
    ensures IsCritical(s) && !Recoverable(s)
  {
    if s.Explain? { BeyondIsUnrecoverable(s.query); }
  }

  /** So a batch containing DROP DATABASE, DROP SCHEMA or an unclassified statement has no recovery
      target at all, whatever else is in it. */
  lemma BeyondHasNoTarget(stmts: seq<Stmt>, impactCritical: bool, s: Stmt)
    requires s in stmts && BeyondTableSnapshots(s)
    ensures ContainsCritical(stmts)
    ensures RecoveryTable(ApplyImpact(AnalysisOf(Parsed(stmts)), impactCritical)) == None
  {
    BeyondIsUnrecoverable(s);
    var target := RecoveryTable(ApplyImpact(AnalysisOf(Parsed(stmts)), impactCritical));
    if target.Some? {
      RecoveryTargetCoversBatch(stmts, impactCritical, target.value);
    }
  }
}
