/** sdk/python/backstop/guard.py: the protective capture inside the user's own transaction. */
module Savepoint {
  import opened Restore

  datatype Status = Idle | Active | Aborted

  datatype Mark = Mark(name: string, db: Database)

  /** A psycopg2 session: `stack` are the open savepoints, oldest first. */
  datatype Session = Session(autocommit: bool, status: Status, stack: seq<Mark>, db: Database)

  datatype Command = SetSavepoint(name: string) | Release(name: string) | RollbackTo(name: string) | Read

  /** Without autocommit, psycopg2 opens a transaction before the first statement. This is the state a
      statement runs in. */
  function Entered(s: Session): Session {
    if s.autocommit || s.status != Idle then s else s.(status := Active, stack := [])
  }

  /** The innermost savepoint of that name, or -1. */
  function Innermost(stack: seq<Mark>, name: string): int
    ensures -1 <= Innermost(stack, name) < |stack|
    ensures Innermost(stack, name) >= 0 ==> stack[Innermost(stack, name)].name == name
    ensures forall i :: Innermost(stack, name) < i < |stack| ==> stack[i].name != name
  {
    if stack == [] then -1
    else if stack[|stack| - 1].name == name then |stack| - 1
    else Innermost(stack[..|stack| - 1], name)
  }

  /** An error inside a transaction aborts it. */
  function Failing(s: Session): Session {
    if s.status == Active then s.(status := Aborted) else s
  }

  /** Whether PostgreSQL accepts the command in this state. */
  predicate Accepted(s: Session, c: Command) {
    match c
    case SetSavepoint(_) => s.status == Active
    case Release(name) => s.status == Active && Innermost(s.stack, name) >= 0
    case RollbackTo(name) => s.status != Idle && Innermost(s.stack, name) >= 0
    case Read => s.status != Aborted
  }

  function Done(s: Session, c: Command): Session
    requires Accepted(s, c)
  {
    match c
    case SetSavepoint(name) => s.(stack := s.stack + [Mark(name, s.db)])
    case Release(name) => s.(stack := s.stack[..Innermost(s.stack, name)])
    case RollbackTo(name) =>
      var i := Innermost(s.stack, name);
      s.(status := Active, db := s.stack[i].db, stack := s.stack[..i + 1])
    case Read => s
  }

  /** What can go wrong by itself: a server error in a query, or a failure outside the database (object
      storage, serialization, a local exception). */
  datatype Event = Query(fails: bool) | Local(fails: bool)

  datatype Faults = Faults(savepoint: bool, capture: seq<Event>, release: bool, rollback: bool, cleanup: bool)

  predicate CaptureFails(events: seq<Event>) {
    exists i :: 0 <= i < |events| && events[i].fails
  }

  /** The first thing to fail in the capture is a statement on the server. */
  predicate ServerFailsFirst(events: seq<Event>) {
    exists i :: 0 <= i < |events| && events[i] == Query(true) && forall j :: 0 <= j < i ==> !events[j].fails
  }

  /** A manifest is returned: nothing fails, and the transaction can still run queries. */
  predicate Captures(s: Session, f: Faults) {
    && !CaptureFails(f.capture)
    && (if s.autocommit then s.status == Aborted ==> NoQueries(f.capture)
        else s.status != Aborted && !f.savepoint && !f.release)
  }

  predicate NoQueries(events: seq<Event>) {
    forall i :: 0 <= i < |events| ==> events[i].Local?
  }

  /** When the guard is not invisible. With autocommit it sets no savepoint, so a failed capture query
      aborts a transaction the user opened with an explicit BEGIN; without, the savepoint commands
      themselves must not fail. */
  predicate Leaks(s: Session, f: Faults) {
    if s.autocommit then s.status == Active && ServerFailsFirst(f.capture)
    else s.status != Aborted
         && (f.savepoint || ((CaptureFails(f.capture) || f.release) && (f.rollback || f.cleanup)))
  }

  lemma InnermostLast(stack: seq<Mark>, m: Mark)
    ensures Innermost(stack + [m], m.name) == |stack|
  {
  }

  /** A captured before-image never costs the user anything. */
  lemma CapturesDoNotLeak(s: Session, f: Faults)
    requires Captures(s, f)
    ensures !Leaks(s, f)
  {
  }

  /** The savepoint commands themselves go through. */
  predicate SavepointsWork(f: Faults) {
    !f.savepoint && !f.release && !f.rollback && !f.cleanup
  }

  /** What a caller can check beforehand: as long as the savepoint commands themselves go through, no failure
      of the capture is visible, whatever it is, exactly when the connection is not an autocommit connection
      inside a transaction. */
  lemma NoCaptureFailureLeaks(s: Session)
    ensures (forall f :: SavepointsWork(f) ==> !Leaks(s, f)) <==> !(s.autocommit && s.status == Active)
  {
    if s.autocommit && s.status == Active {
      ExplicitBeginIsAborted(s);
    }
  }

  const QueryError := Faults(false, [Query(true)], false, false, false)

  /** The failing input: BEGIN on an autocommit connection, then a guarded statement whose capture query
      fails. Nothing else fails, and the user's transaction is aborted. */
  lemma ExplicitBeginIsAborted(s: Session)
    requires s.autocommit && s.status == Active
    ensures SavepointsWork(QueryError) && Leaks(s, QueryError)
    ensures Accepted(s, Read) && !Accepted(Failing(s), Read)
  {
    assert QueryError.capture[0] == Query(true);
  }

  datatype Mode = Protect | Monitor | Block

  /** The part of `assess_risk`'s result the guard looks at; `table` is "" for None. */
  datatype Assessment = Assessment(critical: bool, requiresSnapshot: bool, table: string)

  class GuardedConnection {
    var session: Session

    constructor (s: Session)
      ensures session == s
    {
      session := s;
    }

    method Execute(c: Command, fails: bool) returns (ok: bool)
      modifies this
      ensures ok == (!fails && Accepted(Entered(old(session)), c))
      ensures session == if ok then Done(Entered(old(session)), c) else Failing(Entered(old(session)))
    {
      session := Entered(session);
      ok := !fails && Accepted(session, c);
      session := if ok then Done(session, c) else Failing(session);
    }

    /** The capture's own queries and uploads, stopping at the first exception. */
    method Capture(events: seq<Event>) returns (ok: bool)
      requires events != [] ==> session == Entered(session)
      modifies this
      ensures ok <==> !CaptureFails(events) && (old(session).status == Aborted ==> NoQueries(events))
      ensures ok ==> session == old(session)
      ensures !ok && old(session).status != Aborted ==>
                session == if ServerFailsFirst(events) then Failing(old(session)) else old(session)
      ensures old(session).status == Aborted ==> session == old(session)
    {
      for i := 0 to |events|
        invariant session == old(session)
        invariant forall j :: 0 <= j < i ==> !events[j].fails
        invariant session.status == Aborted ==> forall j :: 0 <= j < i ==> events[j].Local?
      {
        if events[i].Local? {
          if events[i].fails {
            return false;
          }
        } else {
          var answered := Execute(Read, events[i].fails);
          if !answered {
            return false;
          }
        }
      }
      ok := true;
    }

    /** `_capture_with_savepoint`: for every starting state and every point of failure, the user's
        statement then runs in the very state it would have run in without the guard, or `Leaks` says so. */
    method CaptureWithSavepoint(name: string, f: Faults) returns (ok: bool)
      modifies this
      ensures Entered(session) == Entered(old(session)) <==> !Leaks(old(session), f)
      ensures session.db == old(session).db
      ensures ok <==> Captures(old(session), f)
    {
      ghost var user := Entered(session);
      var useSavepoint := !session.autocommit;
      if useSavepoint {
        var placed := Execute(SetSavepoint(name), f.savepoint);
        if !placed {
          return false;
        }
        InnermostLast(user.stack, Mark(name, user.db));
      }
      ok := Capture(f.capture);
      if ok && useSavepoint {
        ok := Execute(Release(name), f.release);
        assert ok ==> session == user by {
          assert (user.stack + [Mark(name, user.db)])[..|user.stack|] == user.stack;
        }
      }
      if !ok && useSavepoint {
        CleanUp(name, f, user);
      }
    }

    /** Leaves the user's state exactly when both cleanup commands succeed. */
    method CleanUp(name: string, f: Faults, ghost user: Session)
      requires user == Entered(user) && user.status == Active && !user.autocommit
      requires session.stack == user.stack + [Mark(name, user.db)]
      requires session == user.(status := session.status, stack := session.stack) && session.status != Idle
      modifies this
      ensures session == user <==> !f.rollback && !f.cleanup
      ensures session.status != Idle && session.autocommit == user.autocommit && session.db == user.db
    {
      InnermostLast(user.stack, Mark(name, user.db));
      var back := Execute(RollbackTo(name), f.rollback);
      assert session.stack == user.stack + [Mark(name, user.db)];
      if back {
        var _ := Execute(Release(name), f.cleanup);
        assert (user.stack + [Mark(name, user.db)])[..|user.stack|] == user.stack;
      }
    }

    /** `_before_execute`: the statement is refused, or it runs as if the guard were not there. A failed
        capture never stops it. */
    method BeforeExecute(mode: Mode, risk: Assessment, name: string, f: Faults)
      returns (refused: bool, captured: bool)
      modifies this
      ensures refused <==> (|| (mode == Block && risk.critical)
                            || (mode == Protect && risk.requiresSnapshot && risk.table == ""))
      ensures refused ==> session == old(session)
      ensures Entered(session) != Entered(old(session)) <==>
                mode == Protect && risk.requiresSnapshot && risk.table != "" && Leaks(old(session), f)
      ensures captured <==>
                mode == Protect && risk.requiresSnapshot && risk.table != "" && Captures(old(session), f)
      ensures captured ==> Entered(session) == Entered(old(session))
      ensures session.db == old(session).db
    {
      if mode == Block && risk.critical {
        return true, false;
      }
      if mode != Protect || !risk.requiresSnapshot {
        return false, false;
      }
      if risk.table == "" {
        return true, false;
      }
      refused := false;
      if Captures(session, f) { CapturesDoNotLeak(session, f); }
      captured := CaptureWithSavepoint(name, f);
    }
  }
}
