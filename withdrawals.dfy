/**
 * The admin withdrawals page: the status-filtered list, the profiles of the
 * requesting users (looked up once per distinct user id, kept in a map keyed
 * by profile id) and the approve/reject transition. Approving only records
 * the decision: no wallet is debited and no transaction is written.
 */
module Withdrawals {
  import opened Common
  import opened Rows
  import opened Schema
  import opened Store
  import opened Listing

  function WithdrawalStatus(w: WithdrawalRow): Option<string> { Some(w.status) }
  function WithdrawalIdIs(id: Id): WithdrawalRow -> bool { (w: WithdrawalRow) => w.id == id }

  /** The rows of the list for the status select (`fetchWithdrawals`' query). */
  function FilterWithdrawals(rows: seq<WithdrawalRow>, filter: string): (r: seq<WithdrawalRow>)
    ensures filter == AllFilter ==> r == rows
    ensures filter != AllFilter ==> forall i :: 0 <= i < |r| ==> r[i].status == filter
    ensures forall w :: w in r ==> w in rows
    ensures forall w :: w in rows && w.status == filter ==> w in r
  {
    var r := FilterByStatus(rows, WithdrawalStatus, filter);
    assert forall i :: 0 <= i < |r| ==> r[i] in r;
    r
  }

  /** `.update({ status }).eq('id', id)` on the withdrawals. */
  function SetWithdrawalStatus(rows: seq<WithdrawalRow>, id: Id, status: string): (r: seq<WithdrawalRow>)
    ensures |r| == |rows|
    ensures forall i :: 0 <= i < |rows| && rows[i].id == id ==> r[i] == rows[i].(status := status)
    ensures forall i :: 0 <= i < |rows| && rows[i].id != id ==> r[i] == rows[i]
  {
    UpdateWhere(rows, WithdrawalIdIs(id), (w: WithdrawalRow) => w.(status := status))
  }

  /** The user ids of the fetched rows, without repetition, in first-seen order. */
  function DistinctUserIds(rows: seq<WithdrawalRow>): (ids: seq<Id>)
    ensures forall i :: 0 <= i < |rows| ==> rows[i].userId in ids
    ensures forall u :: u in ids ==> exists i :: 0 <= i < |rows| && rows[i].userId == u
    ensures forall i, j :: 0 <= i < j < |ids| ==> ids[i] != ids[j]
  {
    var userIds := UserIds(rows);
    Distinct(userIds)
  }

  function UserIds(rows: seq<WithdrawalRow>): (r: seq<Id>)
    ensures |r| == |rows|
    ensures forall i :: 0 <= i < |rows| ==> r[i] == rows[i].userId
  {
    MapRows(rows, (w: WithdrawalRow) => w.userId)
  }

  /** `.in('id', userIds)` on the profiles. */
  function ProfilesOf(profiles: seq<ProfileRow>, ids: seq<Id>): seq<ProfileRow> {
    Where(profiles, (p: ProfileRow) => p.id in ids)
  }

  /** The map the `forEach` builds: each profile under its own id, a later row replacing an earlier one. */
  function ProfilesMapOf(rows: seq<ProfileRow>): map<Id, ProfileRow> {
    if rows == [] then map[] else ProfilesMapOf(rows[..|rows| - 1])[rows[|rows| - 1].id := rows[|rows| - 1]]
  }

  /** The map has exactly the fetched ids as keys and every entry is the profile with that id. */
  lemma {:induction false} ProfilesMapKeyedById(rows: seq<ProfileRow>)
    ensures forall k :: k in ProfilesMapOf(rows) <==> exists i :: 0 <= i < |rows| && rows[i].id == k
    ensures forall k :: k in ProfilesMapOf(rows) ==> ProfilesMapOf(rows)[k].id == k && ProfilesMapOf(rows)[k] in rows
  {
    if rows != [] {
      var init := rows[..|rows| - 1];
      ProfilesMapKeyedById(init);
      forall i | 0 <= i < |init| ensures rows[i] == init[i] { }
      forall k | k in ProfilesMapOf(rows)
        ensures exists i :: 0 <= i < |rows| && rows[i].id == k
      {
        if k != rows[|rows| - 1].id {
          assert k in ProfilesMapOf(init);
        }
      }
      forall k | k in ProfilesMapOf(init) ensures ProfilesMapOf(init)[k] in rows {
        assert ProfilesMapOf(init)[k] in init;
      }
    }
  }

  /** The admin page's list state. */
  class WithdrawalsPage {
    var withdrawals: seq<WithdrawalRow>
    var profiles: map<Id, ProfileRow>

    constructor ()
      ensures withdrawals == [] && profiles == map[]
    {
      withdrawals, profiles := [], map[];
    }

    /**
     * `fetchWithdrawals`: on success the list becomes the filtered rows; the
     * profile map is rebuilt only when some user id was found.
     */
    method FetchWithdrawals(st: Store, filter: string, queryFails: bool, profilesFail: bool)
      modifies this
      ensures queryFails ==> withdrawals == old(withdrawals) && profiles == old(profiles)
      ensures !queryFails ==> withdrawals == FilterWithdrawals(st.withdrawals, filter)
      ensures !queryFails && DistinctUserIds(withdrawals) != [] ==>
        profiles == (if profilesFail then map[] else ProfilesMapOf(ProfilesOf(st.profiles, DistinctUserIds(withdrawals))))
      ensures !queryFails && DistinctUserIds(withdrawals) == [] ==> profiles == old(profiles)
    {
      if queryFails {
        return;
      }
      withdrawals := FilterWithdrawals(st.withdrawals, filter);
      var userIds := DistinctUserIds(withdrawals);
      if |userIds| > 0 {
        var profilesData := if profilesFail then [] else ProfilesOf(st.profiles, userIds);
        var profilesMap := BuildProfilesMap(profilesData);
        profiles := profilesMap;
      }
    }
  }

  /** The `forEach` loop filling the profile map. */
  method BuildProfilesMap(rows: seq<ProfileRow>) returns (m: map<Id, ProfileRow>)
    ensures m == ProfilesMapOf(rows)
  {
    m := map[];
    var i := 0;
    while i < |rows|
      invariant 0 <= i <= |rows|
      invariant m == ProfilesMapOf(rows[..i])
    {
      m := m[rows[i].id := rows[i]];
      assert rows[..i + 1][..i] == rows[..i];
      i := i + 1;
    }
    assert rows[..i] == rows;
  }

  /**
   * `handleWithdrawal`: on success the matching row's status becomes the
   * decision and the list is refetched; on error nothing changes and there is
   * no refetch. Wallets and the ledger are never written.
   */
  method HandleWithdrawal(st: Store, id: Id, approved: bool, updateFails: bool) returns (refetch: bool)
    modifies st`withdrawals
    ensures refetch == !updateFails
    ensures st.withdrawals == if updateFails then old(st.withdrawals)
                              else SetWithdrawalStatus(old(st.withdrawals), id, DecisionStatus(approved))
    ensures st.profiles == old(st.profiles) && st.transactions == old(st.transactions)
  {
    var status := DecisionStatus(approved);
    if updateFails {
      return false;
    }
    st.withdrawals := SetWithdrawalStatus(st.withdrawals, id, status);
    return true;
  }

  /** Actions are offered only for pending withdrawals, and an unknown status shows as Pending. */
  lemma WithdrawalRowDisplay(w: WithdrawalRow)
    ensures ShowsActions(WithdrawalStatus(w)) <==> w.status == Pending
    ensures w.status != Approved && w.status != Rejected ==> StatusBadge(WithdrawalStatus(w)) == PendingBadge
  {
  }
}
