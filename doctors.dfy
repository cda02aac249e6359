/** The doctor portal's pending reports and what approving one does to them. */
module Doctors {

  import opened Lists

  /** A pending report; only its `id` matters to approval. */
  datatype Report = Report(id: string, body: string)

  /** `handleApproveReport(reportId)`: the pending list without every report of that id. */
  function ApproveReport(pending: seq<Report>, reportId: string): (r: seq<Report>)
    ensures |r| <= |pending|
    ensures IsSubseq(r, pending)
    ensures forall x :: x in r ==> x.id != reportId
    ensures forall x :: x in pending && x.id != reportId ==> x in r
    ensures forall x :: multiset(r)[x] == if x.id != reportId then multiset(pending)[x] else 0
    ensures (forall i :: 0 <= i < |pending| ==> pending[i].id != reportId) ==> r == pending
  {
    FilterCounts(pending, (x: Report) => x.id != reportId);
    Filter(pending, (x: Report) => x.id != reportId)
  }

  /** Approving the same id again changes nothing. */
  lemma ApproveTwice(pending: seq<Report>, reportId: string)
    ensures ApproveReport(ApproveReport(pending, reportId), reportId) == ApproveReport(pending, reportId)
  {
    FilterIdempotent(pending, (x: Report) => x.id != reportId);
  }

  /** Approving two reports leaves the same list in either order. */
  lemma ApprovalsCommute(pending: seq<Report>, a: string, b: string)
    ensures ApproveReport(ApproveReport(pending, a), b) == ApproveReport(ApproveReport(pending, b), a)
  {
    FilterCommute(pending, (x: Report) => x.id != a, (x: Report) => x.id != b);
  }
}
