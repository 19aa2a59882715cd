/** gateway/agent_identity.go: the bounded in-memory audit log. */
module Audit {
  const MaxAuditEntries := 10000

  /** `trimLocked`: the most recent entries. */
  function Trimmed<T>(entries: seq<T>): seq<T> {
    if |entries| <= MaxAuditEntries then entries else entries[|entries| - MaxAuditEntries..]
  }

  /** Trimming at every append keeps the same window as trimming the whole history once. */
  lemma TrimmedAppend<T>(history: seq<T>, entry: T)
    ensures Trimmed(Trimmed(history) + [entry]) == Trimmed(history + [entry])
  {
  }

  datatype AuditEntry = AuditEntry(agent: string, query: string, risk: string, approved: bool, at: int)

  function ByAgent(entries: seq<AuditEntry>, agent: string): seq<AuditEntry> {
    if entries == [] then []
    else
      var last := entries[|entries| - 1];
      ByAgent(entries[..|entries| - 1], agent) + if last.agent == agent then [last] else []
  }

  /** Which entries these are: the agent's, all of them, in the order of the log. `at` is where each one stands. */
  lemma {:induction false} ByAgentMeans(entries: seq<AuditEntry>, agent: string) returns (at: seq<nat>)
    ensures |at| == |ByAgent(entries, agent)|
    ensures forall k :: 0 <= k < |at| ==>
              at[k] < |entries| && entries[at[k]] == ByAgent(entries, agent)[k] && entries[at[k]].agent == agent
    ensures forall j, k :: 0 <= j < k < |at| ==> at[j] < at[k]
    ensures forall i :: 0 <= i < |entries| && entries[i].agent == agent ==> i in at
  {
    at := [];
    if entries != [] {
      var n := |entries| - 1;
      at := ByAgentMeans(entries[..n], agent);
      if entries[n].agent == agent { at := at + [n]; }
    }
  }

  class AgentRegistry {
    var entries: seq<AuditEntry>
    ghost var history: seq<AuditEntry> // every entry ever recorded or loaded

    ghost predicate Valid()
      reads this
    {
      entries == Trimmed(history)
    }

    /** `loadAuditLog` */
    constructor (loaded: seq<AuditEntry>)
      ensures Valid() && history == loaded
    {
      entries, history := loaded, loaded;
      new;
      TrimLocked();
    }

    method TrimLocked()
      modifies this`entries
      ensures entries == Trimmed(old(entries))
    {
      if |entries| <= MaxAuditEntries {
        return;
      }
      var start := |entries| - MaxAuditEntries;
      entries := entries[start..];
    }

    method RecordDetailed(entry: AuditEntry)
      requires Valid()
      modifies this
      ensures Valid() && history == old(history) + [entry]
      ensures |entries| == if |history| <= 10000 then |history| else 10000
      ensures entries == history[|history| - |entries|..] && entries[|entries| - 1] == entry
    {
      TrimmedAppend(history, entry);
      entries, history := entries + [entry], history + [entry];
      TrimLocked();
    }

    /** One agent's entries, oldest first, out of the window. */
    method GetHistory(agent: string) returns (result: seq<AuditEntry>)
      requires Valid()
      ensures result == ByAgent(Trimmed(history), agent)
    {
      result := [];
      for i := 0 to |entries|
        invariant result == ByAgent(entries[..i], agent)
      {
        assert entries[..i + 1][..i] == entries[..i];
        if entries[i].agent == agent {
          result := result + [entries[i]];
        }
      }
      assert entries[..|entries|] == entries;
    }
  }
}
