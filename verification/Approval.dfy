/** gateway/approval.go: the pending map and its one-slot decision channels. */
module Approval {
  import opened Options

  datatype Details = Details(id: string, query: string, agent: string, table: string, snapshotId: string)

  datatype Resolution = Resolution(approved: bool, actor: string)

  /** What `RequestApproval` returns; Granted is the nil error. */
  datatype Verdict = Granted(actor: string) | Denied(actor: string) | TimedOut | Cancelled

  /** A non-blocking send on a channel with one slot. */
  function Offered(slot: Option<Resolution>, r: Resolution): Option<Resolution> {
    if slot.Some? then slot else Some(r)
  }

  function AllOffered(slot: Option<Resolution>, signals: seq<Resolution>): Option<Resolution> {
    if signals == [] then slot else Offered(AllOffered(slot, signals[..|signals| - 1]), signals[|signals| - 1])
  }

  /** However many operators answer, the request receives the first answer. */
  lemma {:induction false} FirstSignalWins(signals: seq<Resolution>)
    ensures AllOffered(None, signals) == if signals == [] then None else Some(signals[0])
  {
    if signals != [] { FirstSignalWins(signals[..|signals| - 1]); }
  }

  class PendingApproval {
    const details: Details
    const createdAt: int
    var decision: Option<Resolution>

    constructor (details: Details, now: int)
      ensures this.details == details && createdAt == now && decision == None
    {
      this.details, createdAt, decision := details, now, None;
    }
  }

  /** The reason the select of a waiting request fires. */
  datatype Wake = Answer | Timer | Done

  datatype Listing = Listing(details: Details, createdAt: int)

  class ApprovalEngine {
    var pending: map<string, PendingApproval>

    /** Every entry is filed under its own id, so no two ids share a channel. */
    ghost predicate Valid()
      reads this, pending.Values
    {
      forall id :: id in pending ==> pending[id].details.id == id
    }

    constructor ()
      ensures Valid() && pending == map[]
    {
      pending := map[];
    }

    /** `RequestApproval` up to its select; None is the missing-id error. */
    method Enroll(details: Details, now: int) returns (pa: PendingApproval?)
      requires Valid()
      modifies this
      ensures Valid()
      ensures details.id == "" ==> pa == null && pending == old(pending)
      ensures details.id != "" ==> pa != null && fresh(pa) && pending == old(pending)[details.id := pa]
      ensures pa != null ==> pa.details == details && pa.createdAt == now && pa.decision == None
    {
      if details.id == "" {
        return null;
      }
      pa := new PendingApproval(details, now);
      pending := pending[details.id := pa];
    }

    /** `signal`: never waits, and leaves a channel that already holds a value alone. */
    method Signal(id: string, r: Resolution) returns (found: bool)
      requires Valid()
      modifies pending.Values
      ensures Valid()
      ensures found == (id in pending)
      ensures found ==> pending[id].decision == Offered(old(pending[id].decision), r)
      ensures forall other :: other in pending && other != id ==>
                pending[other].decision == old(pending[other].decision)
    {
      if id !in pending {
        return false;
      }
      var pa := pending[id];
      if pa.decision.None? {
        pa.decision := Some(r);
      }
      found := true;
    }

    method Approve(id: string, actor: string) returns (found: bool)
      requires Valid()
      modifies pending.Values
      ensures Valid() && found == (id in pending)
      ensures found ==> pending[id].decision == Offered(old(pending[id].decision), Resolution(true, actor))
      ensures forall other :: other in pending && other != id ==>
                pending[other].decision == old(pending[other].decision)
    {
      found := Signal(id, Resolution(true, actor));
    }

    method Deny(id: string, actor: string) returns (found: bool)
      requires Valid()
      modifies pending.Values
      ensures Valid() && found == (id in pending)
      ensures found ==> pending[id].decision == Offered(old(pending[id].decision), Resolution(false, actor))
      ensures forall other :: other in pending && other != id ==>
                pending[other].decision == old(pending[other].decision)
    {
      found := Signal(id, Resolution(false, actor));
    }

    /** The rest of `RequestApproval`: the select fires, and the deferred delete runs. A grant is
        returned only for an approval that was in the channel. */
    method Await(pa: PendingApproval, wake: Wake) returns (v: Verdict)
      requires Valid() && (wake == Answer ==> pa.decision.Some?)
      modifies this, pa
      ensures Valid() && pending == old(pending) - {pa.details.id}
      ensures v.Granted? <==> wake == Answer && old(pa.decision).value.approved
      ensures v.Denied? <==> wake == Answer && !old(pa.decision).value.approved
      ensures wake == Answer ==> v.actor == old(pa.decision).value.actor
      ensures v.TimedOut? <==> wake == Timer
      ensures pa.decision == if wake == Answer then None else old(pa.decision)
    {
      match wake {
        case Answer =>
          var resolution := pa.decision.value;
          pa.decision := None;
          v := if resolution.approved then Granted(resolution.actor) else Denied(resolution.actor);
        case Timer => v := TimedOut;
        case Done => v := Cancelled;
      }
      pending := pending - {pa.details.id};
    }

    /** One view per pending approval, in the map's own order. */
    method PendingList() returns (list: seq<Listing>)
      requires Valid()
      ensures forall i, j :: 0 <= i < j < |list| ==> list[i].details.id != list[j].details.id
      ensures forall i :: 0 <= i < |list| ==>
                var id := list[i].details.id;
                id in pending && list[i] == Listing(pending[id].details, pending[id].createdAt)
      ensures |list| == |pending|
    {
      list := [];
      var left := pending.Keys;
      while left != {}
        invariant left <= pending.Keys && |list| + |left| == |pending.Keys|
        invariant forall i :: 0 <= i < |list| ==>
                    var id := list[i].details.id;
                    id in pending && id !in left && list[i] == Listing(pending[id].details, pending[id].createdAt)
        invariant forall i, j :: 0 <= i < j < |list| ==> list[i].details.id != list[j].details.id
        decreases left
      {
        var id :| id in left;
        list := list + [Listing(pending[id].details, pending[id].createdAt)];
        left := left - {id};
      }
    }
  }
}
