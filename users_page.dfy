/**
 * The admin users page: the profile list with each user's roles, and the
 * verification dialog that approves or revokes one of a profile's phone,
 * email or image verification flags.
 */
module UsersPage {
  import opened Common
  import opened Rows
  import opened Schema
  import opened Store
  import opened RolesMap

  datatype VerificationType = PhoneCheck | EmailCheck | ImageCheck

  function TypeName(t: VerificationType): string {
    match t
    case PhoneCheck => "phone"
    case EmailCheck => "email"
    case ImageCheck => "image"
  }

  /** The column a toggle writes and reads: `<type>_verified`. */
  function FieldName(t: VerificationType): (f: string)
    ensures f == TypeName(t) + "_verified"
    ensures f in FlagColumns
  {
    match t
    case PhoneCheck => "phone_verified"
    case EmailCheck => "email_verified"
    case ImageCheck => "image_verified"
  }

  /** The profile's boolean flag columns, by name. */
  const FlagColumns: seq<string> := ["phone_verified", "email_verified", "image_verified", "photo_verified"]

  /** `profile[column]` for a flag column; any other name reads as undefined. */
  function FlagColumn(p: ProfileRow, column: string): Option<bool> {
    if column == "phone_verified" then p.phoneVerified
    else if column == "email_verified" then p.emailVerified
    else if column == "image_verified" then p.imageVerified
    else if column == "photo_verified" then p.photoVerified
    else None
  }

  /** `{[column]: value}` applied to a profile; any other name leaves it as it is. */
  function WithFlag(p: ProfileRow, column: string, value: bool): ProfileRow {
    if column == "phone_verified" then p.(phoneVerified := Some(value))
    else if column == "email_verified" then p.(emailVerified := Some(value))
    else if column == "image_verified" then p.(imageVerified := Some(value))
    else if column == "photo_verified" then p.(photoVerified := Some(value))
    else p
  }

  /** The flag as the dialog reads it, `profile[field] || false`. */
  function CurrentValue(p: ProfileRow, t: VerificationType): bool {
    OrFalse(FlagColumn(p, FieldName(t)))
  }

  /** `updateData`: the flag column, and for an image toggle also the review status. */
  datatype ProfileUpdate = ProfileUpdate(field: string, value: bool, verificationStatus: Option<string>)

  function UpdateFor(t: VerificationType, approve: bool): (u: ProfileUpdate)
    ensures u.field == FieldName(t) && u.value == approve
    ensures u.verificationStatus.Some? <==> t == ImageCheck
    ensures t == ImageCheck ==> u.verificationStatus == Some(if approve then Approved else Rejected)
  {
    ProfileUpdate(FieldName(t), approve, if t == ImageCheck then Some(if approve then Approved else Rejected) else None)
  }

  /** The profile after the update is applied. */
  function Apply(u: ProfileUpdate): ProfileRow -> ProfileRow {
    (p: ProfileRow) =>
      var q := WithFlag(p, u.field, u.value);
      if u.verificationStatus.Some? then q.(verificationStatus := u.verificationStatus) else q
  }

  /** The three toggles name three different columns. */
  lemma FieldNamesDistinct(t1: VerificationType, t2: VerificationType)
    ensures FieldName(t1) == FieldName(t2) <==> t1 == t2
  {
  }

  /**
   * A toggle sets the column `FieldName(t)` names to the requested value and
   * every other flag column keeps its value; apart from the review status,
   * which only an image toggle sets, nothing else about the profile changes.
   */
  lemma ToggleWritesOnlyItsField(p: ProfileRow, t: VerificationType, approve: bool)
    ensures var q := Apply(UpdateFor(t, approve))(p);
      CurrentValue(q, t) == approve &&
      (forall c :: c in FlagColumns ==>
        FlagColumn(q, c) == if c == FieldName(t) then Some(approve) else FlagColumn(p, c)) &&
      q.(phoneVerified := p.phoneVerified, emailVerified := p.emailVerified,
         imageVerified := p.imageVerified, verificationStatus := p.verificationStatus) == p &&
      (t != ImageCheck ==> q.verificationStatus == p.verificationStatus) &&
      (t == ImageCheck ==> q.verificationStatus == Some(if approve then Approved else Rejected))
  {
  }

  function ProfileIdIs(id: Id): ProfileRow -> bool { (p: ProfileRow) => p.id == id }

  /** The dialog offers Revoke when the flag is currently true and Approve otherwise. */
  predicate OffersRevoke(p: ProfileRow, t: VerificationType) {
    CurrentValue(p, t)
  }

  /** The value the offered button asks for: Revoke asks false, Approve asks true. */
  function OfferedRequest(p: ProfileRow, t: VerificationType): (approve: bool)
    ensures approve <==> !CurrentValue(p, t)
  {
    !OffersRevoke(p, t)
  }

  /**
   * The button the dialog offers always asks for a change, and the update it
   * writes flips the flag that the dialog reads.
   */
  lemma OfferedButtonFlips(p: ProfileRow, t: VerificationType)
    ensures OfferedRequest(p, t) != CurrentValue(p, t)
    ensures CurrentValue(Apply(UpdateFor(t, OfferedRequest(p, t)))(p), t) == !CurrentValue(p, t)
  {
  }

  class UsersPageState {
    var profiles: seq<ProfileRow>
    var roles: map<Id, seq<string>>
    /** The open dialog: a profile and the flag it is about, or None when closed. */
    var dialog: Option<(ProfileRow, VerificationType)>

    constructor ()
      ensures profiles == [] && roles == map[] && dialog == None
    {
      profiles, roles, dialog := [], map[], None;
    }

    /** `handleVerificationClick`. */
    method OpenDialog(p: ProfileRow, t: VerificationType)
      modifies this`dialog
      ensures dialog == Some((p, t))
    {
      dialog := Some((p, t));
    }

    /**
     * `fetchUsers`: a profile error stops before anything is set; otherwise the
     * profiles are replaced and the roles map is rebuilt from the role rows,
     * empty when that query returns no data.
     */
    method FetchUsers(st: Store, profilesFail: bool, rolesFail: bool)
      modifies this`profiles, this`roles
      ensures profilesFail ==> profiles == old(profiles) && roles == old(roles)
      ensures !profilesFail ==> profiles == st.profiles
      ensures !profilesFail ==> roles == RolesMapOf(if rolesFail then [] else st.userRoles)
    {
      if profilesFail {
        return;
      }
      profiles := st.profiles;
      var rolesData := if rolesFail then [] else st.userRoles;
      var rolesMap := GroupRoles(rolesData);
      roles := rolesMap;
    }

    /**
     * `toggleVerification`: with no dialog open nothing happens; a request for
     * the value the flag already has only closes the dialog; otherwise the
     * selected profile is updated, and on success the dialog closes and the
     * list is refetched, while on error the dialog stays open.
     */
    method ToggleVerification(st: Store, approve: bool, updateFails: bool) returns (wrote: bool, refetch: bool)
      modifies this`dialog, st`profiles
      ensures old(dialog).None? ==> dialog == old(dialog) && !wrote && st.profiles == old(st.profiles)
      ensures old(dialog).Some? ==>
        var (p, t) := old(dialog).value;
        (wrote <==> CurrentValue(p, t) != approve && !updateFails) &&
        (refetch <==> wrote) &&
        (wrote ==> st.profiles == UpdateWhere(old(st.profiles), ProfileIdIs(p.id), Apply(UpdateFor(t, approve)))) &&
        (!wrote ==> st.profiles == old(st.profiles)) &&
        (dialog == if CurrentValue(p, t) != approve && updateFails then old(dialog) else None)
    {
      if dialog.None? {
        return false, false;
      }
      var (p, t) := dialog.value;
      var currentValue := CurrentValue(p, t);
      if currentValue == approve {
        dialog := None;
        return false, false;
      }
      var updateData := UpdateFor(t, approve);
      if updateFails {
        return false, false;
      }
      st.profiles := UpdateWhere(st.profiles, ProfileIdIs(p.id), Apply(updateData));
      dialog := None;
      return true, true;
    }
  }
}
