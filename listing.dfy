/**
 * What the admin list pages share: the status select that narrows a query
 * with `.eq('status', filter)` unless "all" is chosen, the status badge whose
 * `switch` falls back to Pending, and approve/reject buttons shown only on
 * pending rows.
 */
module Listing {
  import opened Common
  import opened Rows
  import opened Schema

  /** `.eq('status', filter)` keeps a row whose status equals the filter; a null status never matches. */
  predicate StatusMatches(status: Option<string>, filter: string) {
    filter == AllFilter || status == Some(filter)
  }

  function StatusSelector<T>(status: T -> Option<string>, filter: string): T -> bool {
    (x: T) => StatusMatches(status(x), filter)
  }

  /** The rows a list page shows for a filter, in the order the query returns them. */
  function FilterByStatus<T>(rows: seq<T>, status: T -> Option<string>, filter: string): (r: seq<T>)
    ensures filter == AllFilter ==> r == rows
    ensures filter != AllFilter ==> forall x :: x in r ==> status(x) == Some(filter)
    ensures forall x :: x in r ==> x in rows
    ensures forall x :: x in rows && status(x) == Some(filter) ==> x in r
  {
    var r := Where(rows, StatusSelector(status, filter));
    assert filter == AllFilter ==> r == rows by {
      if filter == AllFilter {
        WhereAll(rows, StatusSelector(status, filter));
      }
    }
    r
  }

  /** The status an approve (true) or reject (false) decision writes. */
  function DecisionStatus(approved: bool): (s: string)
    ensures s == Approved <==> approved
    ensures s == Rejected <==> !approved
  {
    if approved then Approved else Rejected
  }

  datatype Badge = ApprovedBadge | RejectedBadge | PendingBadge

  /** `getStatusBadge`: approved and rejected show as such, anything else as Pending. */
  function StatusBadge(status: Option<string>): (b: Badge)
    ensures b == ApprovedBadge <==> status == Some(Approved)
    ensures b == RejectedBadge <==> status == Some(Rejected)
    ensures b == PendingBadge <==> status != Some(Approved) && status != Some(Rejected)
  {
    if status == Some(Approved) then ApprovedBadge
    else if status == Some(Rejected) then RejectedBadge
    else PendingBadge
  }

  /** Approve and reject are offered exactly for rows whose status is "pending". */
  predicate ShowsActions(status: Option<string>) {
    status == Some(Pending)
  }

  /** A row offered actions is shown with the Pending badge; the converse fails for unknown statuses. */
  lemma ActionsOnlyOnPendingBadge(status: Option<string>)
    ensures ShowsActions(status) ==> StatusBadge(status) == PendingBadge
    ensures StatusBadge(Some("on-hold")) == PendingBadge && !ShowsActions(Some("on-hold"))
  {
  }
}
