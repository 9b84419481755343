/**
 * The NGO verification panel of the admin: a list of pending NGOs, one of
 * which may show its details; approving or rejecting an NGO removes it from
 * the list once the request has resolved.
 */
module VerifyNgos {
  import opened Wrappers
  import Lists

  /** A pending NGO as listed; only its id matters to the panel's logic. */
  datatype PendingNgo = PendingNgo(id: int, name: string, columns: map<string, string>)

  function DiffersFrom(id: int): PendingNgo -> bool {
    (n: PendingNgo) => n.id != id
  }

  /** `prev.filter(n => n.id !== id)`. */
  function Removed(ngos: seq<PendingNgo>, id: int): (r: seq<PendingNgo>)
    ensures forall n :: n in r <==> n in ngos && n.id != id
    ensures forall n :: multiset(r)[n] == if n.id != id then multiset(ngos)[n] else 0
    ensures Lists.IsSubsequence(r, ngos)
  {
    Lists.FilterIsSubsequence(ngos, DiffersFrom(id));
    Lists.Filter(ngos, DiffersFrom(id))
  }

  /** Removing an id that is already gone changes nothing. */
  lemma RemovedIdempotent(ngos: seq<PendingNgo>, id: int)
    ensures Removed(Removed(ngos, id), id) == Removed(ngos, id)
  {
    Lists.FilterKeepsAll(Removed(ngos, id), DiffersFrom(id));
  }

  /** How a request ended: it resolved (with any status) or it was rejected. */
  datatype RequestOutcome = Resolved | Rejected

  /** What the pending-list request gave: a JSON list, or nothing usable. */
  datatype LoadOutcome = Loaded(list: seq<PendingNgo>) | LoadFailed

  class VerifyPanel {
    var ngos: seq<PendingNgo>
    var openDetailsId: Option<int>

    constructor ()
      ensures ngos == [] && openDetailsId.None?
    {
      ngos := [];
      openDetailsId := None;
    }

    /** The list request: a parsed body replaces the list, whatever the status. */
    method Load(outcome: LoadOutcome)
      modifies this
      ensures outcome.Loaded? ==> ngos == outcome.list
      ensures outcome.LoadFailed? ==> ngos == old(ngos)
      ensures openDetailsId == old(openDetailsId)
    {
      if outcome.Loaded? {
        ngos := outcome.list;
      }
    }

    /** `toggleDetails`: the open NGO closes, any other NGO opens. */
    method ToggleDetails(id: int)
      modifies this
      ensures old(openDetailsId) == Some(id) ==> openDetailsId.None?
      ensures old(openDetailsId) != Some(id) ==> openDetailsId == Some(id)
      ensures ngos == old(ngos)
    {
      openDetailsId := if openDetailsId == Some(id) then None else Some(id);
    }

    /** `handleApprove`: once the request resolves, with any status, every NGO with that id leaves the list. */
    method HandleApprove(id: int, outcome: RequestOutcome)
      modifies this
      ensures outcome == Resolved ==> ngos == Removed(old(ngos), id)
      ensures outcome == Rejected ==> ngos == old(ngos)
      ensures openDetailsId == old(openDetailsId)
    {
      if outcome == Resolved {
        ngos := Removed(ngos, id);
      }
    }

    /** `handleReject`: the same effect on the list as approving. */
    method HandleReject(id: int, outcome: RequestOutcome)
      modifies this
      ensures outcome == Resolved ==> ngos == Removed(old(ngos), id)
      ensures outcome == Rejected ==> ngos == old(ngos)
      ensures openDetailsId == old(openDetailsId)
    {
      if outcome == Resolved {
        ngos := Removed(ngos, id);
      }
    }
  }
}
