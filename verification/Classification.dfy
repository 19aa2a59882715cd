/** What the classifier's verdicts mean, said of the statements themselves. */
module Classification {
  import opened Options
  import opened Text
  import opened SqlAnalysis
  import Policy

  // ---- statements --------------------------------------------------------------------------------------

  /** The word "analyze", in whatever case. */
  predicate IsAnalyze(option: string) {
    |option| == 7 && forall i :: 0 <= i < 7 ==> option[i] == "analyze"[i] || option[i] == "ANALYZE"[i]
  }

  /** EXPLAIN with that option runs the statement it explains. */
  predicate RunsIt(options: seq<string>) {
    exists i :: 0 <= i < |options| && IsAnalyze(options[i])
  }

  /** Statements that can wipe whole tables. */
  predicate Destroys(s: Stmt) {
    match s
    case Delete(_, hasWhere) => !hasWhere
    case Update(_, hasWhere) => !hasWhere
    case Drop(kind, _) => kind == DropTable
    case Truncate(_) => true
    case Explain(options, query) => RunsIt(options) && Destroys(query)
    case _ => false
  }

  /** Statements that touch things no table snapshot holds, or that are not understood at all. */
  predicate Beyond(s: Stmt) {
    match s
    case Missing => true
    case Other(_) => true
    case DropDb => true
    case Drop(kind, _) => kind == DropDatabase || kind == DropSchema
    case Explain(options, query) => RunsIt(options) && Beyond(query)
    case _ => false
  }

  /** Statements that change nothing. */
  predicate ReadOnly(s: Stmt) {
    match s
    case Select => true
    case Show => true
    case SetVariable => true
    case Transaction(plain) => plain
    case Explain(options, query) => RunsIt(options) ==> ReadOnly(query)
    case _ => false
  }

  /** `rel` is the only entry with a table name. */
  ghost predicate OnlyName(names: seq<Relation>, rel: Relation) {
    && rel.table != ""
    && exists i :: 0 <= i < |names| && names[i] == rel && forall j :: 0 <= j < |names| && j != i ==> names[j].table == ""
  }

  /** The statement wipes one table, and `rel` is its name. */
  ghost predicate Wipes(s: Stmt, rel: Relation) {
    match s
    case Delete(r, hasWhere) => !hasWhere && rel.table != "" && r == Some(rel)
    case Update(r, hasWhere) => !hasWhere && rel.table != "" && r == Some(rel)
    case Drop(kind, names) => kind == DropTable && OnlyName(names, rel)
    case Truncate(names) => OnlyName(names, rel)
    case Explain(options, query) => RunsIt(options) && Wipes(query, rel)
    case _ => false
  }

  lemma AnalyzeOption(options: seq<string>)
    ensures ExplainAnalyze(options) <==> RunsIt(options)
  {
    forall i | 0 <= i < |options| ensures EqualFold(options[i], "analyze") <==> IsAnalyze(options[i]) {
      FoldsToAnalyze(options[i]);
    }
  }

  lemma FoldsToAnalyze(o: string)
    ensures EqualFold(o, "analyze") <==> IsAnalyze(o)
  {
    if |o| == 7 {
      forall i | 0 <= i < 7
        ensures Lower(o[i]) == Lower("analyze"[i]) <==> o[i] == "analyze"[i] || o[i] == "ANALYZE"[i]
      {
        FoldsTo(o[i], "analyze"[i], "ANALYZE"[i]);
      }
    }
  }

  lemma FoldsTo(c: char, lower: char, upper: char)
    requires 'a' <= lower <= 'z' && upper == lower - 'a' + 'A'
    ensures Lower(c) == Lower(lower) <==> c == lower || c == upper
  {
  }

  /** A statement is CRITICAL exactly when it can wipe whole tables or goes beyond table snapshots. */
  lemma {:induction false} CriticalMeans(s: Stmt)
    ensures IsCritical(s) <==> Destroys(s) || Beyond(s)
    ensures Policy.BeyondTableSnapshots(s) <==> Beyond(s)
  {
    if s.Explain? {
      AnalyzeOption(s.options);
      CriticalMeans(s.query);
    }
  }

  /** A statement is SAFE exactly when it changes nothing. */
  lemma {:induction false} SafeMeans(s: Stmt)
    ensures AnalyzeStatement(s).risk == Safe <==> ReadOnly(s)
  {
    if s.Explain? {
      AnalyzeOption(s.options);
      SafeMeans(s.query);
    }
  }

  lemma {:induction false} NoNames(names: seq<Relation>)
    ensures NamedOnly(names) == [] <==> forall j :: 0 <= j < |names| ==> names[j].table == ""
  {
    if names != [] {
      NoNames(names[1..]);
      assert forall j :: 1 <= j < |names| ==> names[j] == names[1..][j - 1];
    }
  }

  lemma {:induction false} OneName(names: seq<Relation>, rel: Relation)
    ensures NamedOnly(names) == [rel] <==> OnlyName(names, rel)
  {
    if names != [] {
      var rest := names[1..];
      assert forall j :: 1 <= j < |names| ==> names[j] == rest[j - 1];
      NoNames(rest);
      OneName(rest, rel);
      if names[0].table != "" {
        OneNameFirst(names, rel);
      } else {
        OneNameLater(names, rel);
      }
    }
  }

  lemma OneNameFirst(names: seq<Relation>, rel: Relation)
    requires names != [] && names[0].table != ""
    ensures OnlyName(names, rel) <==> names[0] == rel && forall j :: 1 <= j < |names| ==> names[j].table == ""
  {
  }

  lemma OneNameLater(names: seq<Relation>, rel: Relation)
    requires names != [] && names[0].table == ""
    ensures OnlyName(names, rel) <==> OnlyName(names[1..], rel)
  {
    var rest := names[1..];
    if OnlyName(names, rel) {
      var i :| 0 <= i < |names| && names[i] == rel && forall j :: 0 <= j < |names| && j != i ==> names[j].table == "";
      assert rest[i - 1] == rel;
    }
    if OnlyName(rest, rel) {
      var i :| 0 <= i < |rest| && rest[i] == rel && forall j :: 0 <= j < |rest| && j != i ==> rest[j].table == "";
      assert names[i + 1] == rel;
    }
  }

  /** A CRITICAL statement can be undone from a snapshot of one table exactly when it wipes just that one. */
  lemma {:induction false} RecoverableMeans(s: Stmt, rel: Relation)
    ensures Recoverable(s) && AnalyzeStatement(s).schema == rel.schema && AnalyzeStatement(s).table == rel.table
            <==> Wipes(s, rel)
  {
    match s
    case Drop(_, names) => NamesMeans("DROP TABLE", names, rel);
    case Truncate(names) => NamesMeans("TRUNCATE", names, rel);
    case Explain(options, query) =>
      AnalyzeOption(options);
      RecoverableMeans(query, rel);
    case _ =>
  }

  lemma NamesMeans(op: string, names: seq<Relation>, rel: Relation)
    ensures var a := AnalyzeTargets(op, names);
            a.recoverable && a.table != "" && a.schema == rel.schema && a.table == rel.table <==> OnlyName(names, rel)
  {
    OneName(names, rel);
    var named := NamedOnly(names);
    if |named| == 1 {
      OneName(names, named[0]);
      assert named == [named[0]];
      assert named[0] == rel <==> named[0].schema == rel.schema && named[0].table == rel.table;
    }
  }

  // ---- batches -----------------------------------------------------------------------------------------

  /** A batch is SAFE exactly when every statement in it changes nothing. */
  lemma BatchSafeMeans(stmts: seq<Stmt>)
    requires stmts != []
    ensures BatchAnalysis(stmts).risk == Safe <==> forall s :: s in stmts ==> ReadOnly(s)
  {
    var k := Dominant(stmts);
    forall s | s in stmts ensures AnalyzeStatement(s).risk == Safe <==> ReadOnly(s) { SafeMeans(s); }
    if s :| s in stmts && !ReadOnly(s) {
      var i :| 0 <= i < |stmts| && stmts[i] == s;
      assert RiskRank(AnalyzeStatement(stmts[i]).risk) <= RiskRank(AnalyzeStatement(stmts[k]).risk);
    }
    assert stmts[k] in stmts;
  }

  /** ... CRITICAL exactly when one of them wipes tables or goes beyond table snapshots, and HIGH otherwise. */
  lemma BatchRiskMeans(stmts: seq<Stmt>)
    requires stmts != []
    ensures BatchAnalysis(stmts).risk == Critical <==> exists s :: s in stmts && (Destroys(s) || Beyond(s))
    ensures BatchAnalysis(stmts).risk != ImpactCritical
  {
    BatchCritical(stmts);
    StatementNeverImpactCritical(stmts[Dominant(stmts)]);
    forall s | s in stmts ensures IsCritical(s) <==> Destroys(s) || Beyond(s) { CriticalMeans(s); }
  }

  /** One table name is the only table every wiping statement wipes, and nothing in the batch goes beyond table
      snapshots. */
  ghost predicate OneTableWiped(stmts: seq<Stmt>, table: string) {
    forall s :: s in stmts ==> !Beyond(s) && (Destroys(s) ==> exists schema :: Wipes(s, Relation(schema, table)))
  }

  lemma CoveredMeans(stmts: seq<Stmt>, table: string)
    ensures Policy.CoveredBy(stmts, table) <==> OneTableWiped(stmts, table)
  {
    forall s | s in stmts
      ensures (IsCritical(s) ==> Recoverable(s) && AnalyzeStatement(s).table == table)
              <==> !Beyond(s) && (Destroys(s) ==> exists schema :: Wipes(s, Relation(schema, table)))
    {
      StatementCovered(s, table);
    }
  }

  lemma StatementCovered(s: Stmt, table: string)
    ensures (IsCritical(s) ==> Recoverable(s) && AnalyzeStatement(s).table == table)
            <==> !Beyond(s) && (Destroys(s) ==> exists schema :: Wipes(s, Relation(schema, table)))
  {
    CriticalMeans(s);
    RecoverableMeans(s, Relation(AnalyzeStatement(s).schema, table));
    if schema :| Wipes(s, Relation(schema, table)) { RecoverableMeans(s, Relation(schema, table)); }
    if Beyond(s) { Policy.BeyondIsUnrecoverable(s); }
  }

  /** The recovery target of a batch with a wiping statement, across all layers and for any impact estimate. */
  lemma TargetMeans(stmts: seq<Stmt>, impactCritical: bool, table: string)
    requires exists s :: s in stmts && (Destroys(s) || Beyond(s))
    ensures Policy.RecoveryTable(Policy.ApplyImpact(AnalysisOf(Parsed(stmts)), impactCritical)) == Some(table)
            <==> OneTableWiped(stmts, table) && !Blank(table) && ',' !in table
  {
    var s :| s in stmts && (Destroys(s) || Beyond(s));
    CriticalMeans(s);
    Policy.RecoveryTargetCoversBatch(stmts, impactCritical, table);
    CoveredMeans(stmts, table);
  }

  // ---- batches that only the impact estimate makes critical ---------------------------------------------

  /** The table a statement that writes, without wiping a table, names. */
  function Named(s: Stmt): string {
    match s
    case Insert(rel) => if rel.Some? then rel.value.table else ""
    case Merge(rel) => if rel.Some? then rel.value.table else ""
    case Delete(rel, _) => if rel.Some? then rel.value.table else ""
    case Update(rel, _) => if rel.Some? then rel.value.table else ""
    case Explain(_, query) => Named(query)
    case _ => ""
  }

  lemma {:induction false} HighTable(s: Stmt)
    requires !ReadOnly(s) && !Destroys(s) && !Beyond(s)
    ensures AnalyzeStatement(s).risk == High && AnalyzeStatement(s).table == Named(s) && !AnalyzeStatement(s).recoverable
  {
    if s.Explain? {
      AnalyzeOption(s.options);
      HighTable(s.query);
    }
  }

  /** The first statement that writes. */
  ghost predicate FirstWrite(stmts: seq<Stmt>, k: int) {
    0 <= k < |stmts| && !ReadOnly(stmts[k]) && forall i :: 0 <= i < k ==> ReadOnly(stmts[i])
  }

  /** A batch without CRITICAL statements that the impact estimate makes critical is recovered through the table
      of its first write, and through no other. */
  lemma ImpactTargetIsTheFirstWrite(stmts: seq<Stmt>, k: nat, table: string)
    requires FirstWrite(stmts, k) && forall s :: s in stmts ==> !Destroys(s) && !Beyond(s)
    ensures Policy.RecoveryTable(Policy.ApplyImpact(AnalysisOf(Parsed(stmts)), true)) == Some(table)
            <==> Named(stmts[k]) == table && !Blank(table) && ',' !in table
  {
    var d := Dominant(stmts);
    forall i | 0 <= i < |stmts|
      ensures AnalyzeStatement(stmts[i]).risk == if ReadOnly(stmts[i]) then Safe else High
    {
      assert stmts[i] in stmts;
      SafeMeans(stmts[i]);
      if !ReadOnly(stmts[i]) { HighTable(stmts[i]); }
    }
    assert d == k;
    assert stmts[k] in stmts;
    HighTable(stmts[k]);
  }

  /** The limit of that: the other writes of the batch are not covered. */
  lemma ImpactMissesLaterWrites()
    ensures var first, second := Stmt.Delete(Some(Relation("", "a")), true), Stmt.Delete(Some(Relation("", "b")), true);
            Policy.RecoveryTable(Policy.ApplyImpact(AnalysisOf(Parsed([first, second])), true)) == Some("a")
  {
    var first, second := Stmt.Delete(Some(Relation("", "a")), true), Stmt.Delete(Some(Relation("", "b")), true);
    var stmts := [first, second];
    assert FirstWrite(stmts, 0);
    assert Named(stmts[0]) == "a" && "a"[0] == 'a' && !IsSpace('a');
    ImpactTargetIsTheFirstWrite(stmts, 0, "a");
  }

  // ---- decisions ---------------------------------------------------------------------------------------

  /** The decision in full: what is blocked, what goes to approval, and what the approval requires. */
  lemma DecideMeans(p: Policy.GatewayPolicy, a: Analysis)
    ensures var d := Policy.Decide(p, a);
            var critical := a.risk == Critical || a.risk == ImpactCritical;
            var listed := exists i :: 0 <= i < |p.blockOperations| && EqualFold(p.blockOperations[i], a.operation);
            var unknown := a.operation == "PARSE_FAILURE" || a.operation == "UNKNOWN"
                           || (a.operation != "" && a.operation[0] == '*');
            var approval := exists i :: 0 <= i < |p.approvalRisks| && EqualFold(p.approvalRisks[i], RiskName(a.risk));
            && (d.action == Policy.Block <==>
                  || listed || (p.blockUnknown && unknown)
                  || (p.blockUnrecoverable && critical && (!a.recoverable || Blank(a.table))))
            && (d.action == Policy.Approve <==> d.action != Policy.Block && approval)
            && (d.requiresRecovery <==> d.action == Policy.Approve && critical && p.requireRecovery)
  {
  }

  /** A batch that writes without wiping tables goes to approval, and needs no recovery point unless the impact
      estimate says so. */
  lemma WriteNeedsNoRecovery(p: Policy.GatewayPolicy, stmts: seq<Stmt>, s: Stmt)
    requires s in stmts && !ReadOnly(s) && forall w :: w in stmts ==> !Destroys(w) && !Beyond(w)
    ensures var a := AnalysisOf(Parsed(stmts));
            a.risk == High && Policy.ApplyImpact(a, false) == a && !Policy.Decide(p, a).requiresRecovery
  {
    BatchSafeMeans(stmts);
    BatchRiskMeans(stmts);
    DecideMeans(p, AnalysisOf(Parsed(stmts)));
  }

  /** An operation on the block list is never approved or executed, whatever its risk and target. */
  lemma ListedIsBlocked(p: Policy.GatewayPolicy, a: Analysis, i: nat)
    requires i < |p.blockOperations| && EqualFold(p.blockOperations[i], a.operation)
    ensures Policy.Decide(p, a).action == Policy.Block
  {
  }

  /** The names under which a block list catches statements beyond table snapshots. */
  lemma BeyondOperations(s: Stmt)
    ensures s.DropDb? || (s.Drop? && s.kind == DropDatabase) ==> AnalyzeStatement(s).operation == "DROP DATABASE"
    ensures s.Drop? && s.kind == DropSchema ==> AnalyzeStatement(s).operation == "DROP SCHEMA"
  {
  }

  /** Text that does not parse, and statements of unknown kind, are blocked by every policy that blocks the
      unknown. */
  lemma UnknownIsBlocked(p: Policy.GatewayPolicy, s: Stmt, impactCritical: bool)
    requires p.blockUnknown && (s.Missing? || s.Other?)
    ensures Policy.Decide(p, Policy.ApplyImpact(AnalysisOf(Rejected), impactCritical)).action == Policy.Block
    ensures Policy.Decide(p, Policy.ApplyImpact(AnalysisOf(Parsed([s])), impactCritical)).action == Policy.Block
  {
    var a := AnalyzeStatement(s);
    assert a.operation == "UNKNOWN" || a.operation[0] == '*';
    assert BatchAnalysis([s]).operation == a.operation;
  }

  lemma {:induction false} ReadOnlyIsKnown(s: Stmt)
    requires ReadOnly(s)
    ensures !Policy.UnknownOperation(AnalyzeStatement(s).operation)
  {
    if s.Explain? { AnalyzeOption(s.options); }
  }

  /** A batch that changes nothing runs without approval, unless the policy lists its operation as blocked or
      SAFE as needing approval; so it does under the default policy. */
  lemma ReadOnlyIsExecuted(p: Policy.GatewayPolicy, stmts: seq<Stmt>)
    requires stmts != [] && forall s :: s in stmts ==> ReadOnly(s)
    requires !Policy.RequiresApproval(p, Safe)
    requires forall s :: s in stmts ==> !ContainsFold(p.blockOperations, AnalyzeStatement(s).operation)
    ensures Policy.Decide(p, AnalysisOf(Parsed(stmts))) == Policy.Decision(Policy.Execute, false, false)
  {
    BatchSafeMeans(stmts);
    var k := Dominant(stmts);
    assert stmts[k] in stmts;
    ReadOnlyIsKnown(stmts[k]);
  }

  lemma {:induction false} ReadOnlyIsNotListed(s: Stmt)
    requires ReadOnly(s)
    ensures !ContainsFold(Policy.DefaultPolicy.blockOperations, AnalyzeStatement(s).operation)
  {
    var op := AnalyzeStatement(s).operation;
    assert Lower("DROP DATABASE"[0]) == 'd' && Lower("DROP SCHEMA"[0]) == 'd';
    if s.Explain? { AnalyzeOption(s.options); }
    assert op != "" && Lower(op[0]) != 'd';
  }

  lemma DefaultRunsReadOnly(stmts: seq<Stmt>)
    requires stmts != [] && forall s :: s in stmts ==> ReadOnly(s)
    ensures Policy.Decide(Policy.DefaultPolicy, AnalysisOf(Parsed(stmts))).action == Policy.Execute
  {
    Policy.DefaultPolicyIsGuarded();
    forall s | s in stmts ensures !ContainsFold(Policy.DefaultPolicy.blockOperations, AnalyzeStatement(s).operation) {
      ReadOnlyIsNotListed(s);
    }
    ReadOnlyIsExecuted(Policy.DefaultPolicy, stmts);
  }

  /** DELETE without WHERE on a named table goes to approval with recovery, and is recovered through it, under
      every guarded policy that does not block it outright. */
  lemma WipeIsApproved(p: Policy.GatewayPolicy, rel: Relation)
    requires Policy.Guarded(p) && !ContainsFold(p.blockOperations, "DELETE") && !Blank(rel.table) && ',' !in rel.table
    ensures var a := Policy.ApplyImpact(AnalysisOf(Parsed([Stmt.Delete(Some(rel), false)])), false);
            && Policy.Decide(p, a) == Policy.Decision(Policy.Approve, true, true)
            && Policy.RecoveryTable(a) == Some(rel.table)
  {
    var s := Stmt.Delete(Some(rel), false);
    assert rel.table != "";
    assert s in [s] && Destroys(s);
    assert Wipes(s, Relation(rel.schema, rel.table));
    TargetMeans([s], false, rel.table);
    BatchRiskMeans([s]);
  }
}
