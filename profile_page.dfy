/**
 * The profile page's identity-document upload and its verification badge.
 * This page and the admin users page work on `image_verified` and
 * `verification_image_url`; the onboarding form and the status card use the
 * separate `photo_verified` flag.
 */
module ProfilePage {
  import opened Common
  import opened Rows
  import opened Schema
  import opened Store
  import opened Files
  import UsersPage
  import VerificationCard

  function ProfileIdIs(id: Id): ProfileRow -> bool { (p: ProfileRow) => p.id == id }

  /** The update an upload writes: the document url, review pending, not verified. */
  function SubmitDocument(url: string): ProfileRow -> ProfileRow {
    (p: ProfileRow) => p.(verificationImageUrl := Some(url), verificationStatus := Some(Pending), imageVerified := Some(false))
  }

  datatype UploadOutcome = NoFile | InvalidType | TooLarge | UploadFailed | Submitted

  /** The checks before any upload: an image type, then the size cap. */
  function CheckFile(f: FileInfo): (r: Option<UploadOutcome>)
    ensures r.None? <==> IsImageType(f) && WithinSizeLimit(f)
    ensures r == Some(InvalidType) <==> !IsImageType(f)
  {
    if !IsImageType(f) then Some(InvalidType)
    else if f.size > MaxFileSize then Some(TooLarge)
    else None
  }

  datatype VerificationBadge = VerifiedBadge | RejectedBadge | PendingApproval | NotSubmitted

  /** `getVerificationStatusBadge`, decided in order: verified, rejected, submitted and pending, otherwise not submitted. */
  function BadgeFor(p: ProfileRow): (b: VerificationBadge)
    ensures b == VerifiedBadge <==> OrFalse(p.imageVerified)
    ensures b == RejectedBadge <==> !OrFalse(p.imageVerified) && p.verificationStatus == Some(Rejected)
    ensures b == PendingApproval <==>
      !OrFalse(p.imageVerified) && p.verificationStatus == Some(Pending) && Truthy(p.verificationImageUrl)
  {
    if OrFalse(p.imageVerified) then VerifiedBadge
    else if p.verificationStatus == Some(Rejected) then RejectedBadge
    else if Truthy(p.verificationImageUrl) && p.verificationStatus == Some(Pending) then PendingApproval
    else NotSubmitted
  }

  /** The upload control is shown while the document is not verified. */
  predicate ShowsUpload(p: ProfileRow) {
    !OrFalse(p.imageVerified)
  }

  /**
   * The review cycle across the two pages: a submitted document shows as
   * Pending approval with the upload still offered; the admin's image
   * approval turns it Verified and hides the upload, a rejection shows
   * Rejected and offers the upload again. Neither touches the flags the
   * status card counts.
   */
  lemma ReviewCycle(p: ProfileRow, url: string, approve: bool)
    requires url != ""
    ensures var submitted := SubmitDocument(url)(p);
      var reviewed := UsersPage.Apply(UsersPage.UpdateFor(UsersPage.ImageCheck, approve))(submitted);
      BadgeFor(submitted) == PendingApproval && ShowsUpload(submitted) &&
      BadgeFor(reviewed) == (if approve then VerifiedBadge else RejectedBadge) &&
      ShowsUpload(reviewed) == !approve &&
      VerificationCard.Flags(Some(reviewed)) == VerificationCard.Flags(Some(p))
  {
  }

  class ProfilePageState {
    var profile: Option<ProfileRow>
    var isLoading: bool
    var isUploading: bool

    constructor ()
      ensures profile.None? && isLoading && !isUploading
    {
      profile, isLoading, isUploading := None, true, false;
    }

    /** `fetchProfile`: `.single()` on the user's row; an error keeps the shown profile. */
    method FetchProfile(st: Store, user: Option<Id>, queryFails: bool)
      modifies this`profile, this`isLoading
      ensures user.None? ==> profile == old(profile) && isLoading == old(isLoading)
      ensures user.Some? ==> !isLoading
      ensures user.Some? ==>
        var row := MaybeSingle(Where(st.profiles, ProfileIdIs(user.value)));
        profile == if queryFails || row.None? then old(profile) else row
    {
      if user.None? {
        return;
      }
      var row := if queryFails then None else MaybeSingle(Where(st.profiles, ProfileIdIs(user.value)));
      if row.Some? {
        profile := row;
      }
      isLoading := false;
    }

    /**
     * `handleFileSelect`: no file or no user does nothing; a non-image or a
     * file over 5 MiB is refused before any upload; otherwise a successful
     * upload and update submit the document for review and the profile is
     * refetched.
     */
    method HandleFileSelect(st: Store, user: Option<Id>, file: Option<FileInfo>,
                            uploadFails: bool, publicUrl: string, updateFails: bool, refetchFails: bool)
      returns (outcome: UploadOutcome)
      modifies this`profile, this`isLoading, this`isUploading, st`profiles
      ensures file.None? || user.None? ==> outcome == NoFile
      ensures file.Some? && user.Some? && CheckFile(file.value).Some? ==> outcome == CheckFile(file.value).value
      ensures outcome == Submitted <==> file.Some? && user.Some? && CheckFile(file.value).None? && !uploadFails && !updateFails
      ensures outcome == Submitted ==>
        st.profiles == UpdateWhere(old(st.profiles), ProfileIdIs(user.value), SubmitDocument(publicUrl))
      ensures outcome != Submitted ==> st.profiles == old(st.profiles) && profile == old(profile)
    {
      if file.None? || user.None? {
        return NoFile;
      }
      var check := CheckFile(file.value);
      if check.Some? {
        return check.value;
      }
      isUploading := true;
      if uploadFails || updateFails {
        outcome := UploadFailed;
      } else {
        st.profiles := UpdateWhere(st.profiles, ProfileIdIs(user.value), SubmitDocument(publicUrl));
        FetchProfile(st, user, refetchFails);
        outcome := Submitted;
      }
      isUploading := false;
    }
  }
}
