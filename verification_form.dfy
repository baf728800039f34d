/**
 * The onboarding verification form: record a phone number, upload an ID
 * photo, then complete verification once both steps are done. The phone
 * step stores the number and marks it verified without checking any code.
 */
module VerificationForm {
  import opened Common
  import opened Rows
  import opened Schema
  import opened Store
  import opened Files

  function ProfileIdIs(id: Id): ProfileRow -> bool { (p: ProfileRow) => p.id == id }

  function SetPhone(phone: string): ProfileRow -> ProfileRow {
    (p: ProfileRow) => p.(phone := Some(phone), phoneVerified := Some(true))
  }

  function SetPhoto(url: string): ProfileRow -> ProfileRow {
    (p: ProfileRow) => p.(verificationPhotoUrl := Some(url), photoVerified := Some(true))
  }

  const CompleteVerification: ProfileRow -> ProfileRow :=
    (p: ProfileRow) => p.(emailVerified := Some(true), verificationStatus := Some(Verified))

  class VerificationFormState {
    const userId: Id
    var phone: string
    var phoneVerified: bool
    var photoFile: Option<FileInfo>
    var photoUploaded: bool
    var uploading: bool

    /** A selected photo is within the size cap, and an uploaded photo was selected first. */
    predicate Valid()
      reads this
    {
      (photoFile.Some? ==> WithinSizeLimit(photoFile.value)) &&
      (photoUploaded ==> photoFile.Some?)
    }

    constructor (userId: Id)
      ensures Valid()
      ensures this.userId == userId && phone == "" && !phoneVerified && photoFile.None? && !photoUploaded && !uploading
    {
      this.userId := userId;
      phone, phoneVerified, photoFile, photoUploaded, uploading := "", false, None, false, false;
    }

    method EditPhone(value: string)
      modifies this`phone
      ensures phone == value
    {
      phone := value;
    }

    /** `handlePhoneVerification`: an empty number writes nothing; otherwise the profile gets the number, verified. */
    method HandlePhoneVerification(st: Store, updateFails: bool)
      requires Valid()
      modifies this`phoneVerified, st`profiles
      ensures Valid()
      ensures phone == "" || updateFails ==> st.profiles == old(st.profiles) && phoneVerified == old(phoneVerified)
      ensures phone != "" && !updateFails ==>
        st.profiles == UpdateWhere(old(st.profiles), ProfileIdIs(userId), SetPhone(phone)) && phoneVerified
    {
      if phone == "" {
        return;
      }
      if updateFails {
        return;
      }
      st.profiles := UpdateWhere(st.profiles, ProfileIdIs(userId), SetPhone(phone));
      phoneVerified := true;
    }

    /** `handlePhotoChange`: a file over 5 MiB is refused and the previous choice kept. */
    method HandlePhotoChange(file: Option<FileInfo>)
      requires Valid()
      modifies this`photoFile
      ensures Valid()
      ensures photoFile == if file.Some? && WithinSizeLimit(file.value) then file else old(photoFile)
    {
      if file.Some? {
        if file.value.size > MaxFileSize {
          return;
        }
        photoFile := file;
      }
    }

    /**
     * `handlePhotoUpload`: without a selected file nothing happens; otherwise
     * a successful upload and profile update set the photo url and
     * `photo_verified`, and mark the step done.
     */
    method HandlePhotoUpload(st: Store, uploadFails: bool, publicUrl: string, updateFails: bool)
      requires Valid()
      modifies this`photoUploaded, this`uploading, st`profiles
      ensures Valid()
      ensures uploading == if photoFile.None? then old(uploading) else false
      ensures photoFile.None? || uploadFails || updateFails ==>
        st.profiles == old(st.profiles) && photoUploaded == old(photoUploaded)
      ensures photoFile.Some? && !uploadFails && !updateFails ==>
        st.profiles == UpdateWhere(old(st.profiles), ProfileIdIs(userId), SetPhoto(publicUrl)) && photoUploaded
    {
      if photoFile.None? {
        return;
      }
      uploading := true;
      if !uploadFails && !updateFails {
        st.profiles := UpdateWhere(st.profiles, ProfileIdIs(userId), SetPhoto(publicUrl));
        photoUploaded := true;
      }
      uploading := false;
    }

    /**
     * `handleComplete`: both steps must be done, else nothing is written;
     * then the email is marked verified and the status becomes verified,
     * and `onComplete` runs only when that update succeeded.
     */
    method HandleComplete(st: Store, updateFails: bool) returns (completed: bool)
      requires Valid()
      modifies st`profiles
      ensures completed <==> phoneVerified && photoUploaded && !updateFails
      ensures completed ==> st.profiles == UpdateWhere(old(st.profiles), ProfileIdIs(userId), CompleteVerification)
      ensures !completed ==> st.profiles == old(st.profiles)
    {
      if !phoneVerified || !photoUploaded {
        return false;
      }
      if updateFails {
        return false;
      }
      st.profiles := UpdateWhere(st.profiles, ProfileIdIs(userId), CompleteVerification);
      return true;
    }
  }

  /** Completing marks exactly email and status on the user's profile; the photo and phone flags set earlier stay. */
  lemma CompletionKeepsEarlierSteps(p: ProfileRow)
    ensures var q := CompleteVerification(p);
      q.emailVerified == Some(true) && q.verificationStatus == Some(Verified) &&
      q.phoneVerified == p.phoneVerified && q.photoVerified == p.photoVerified &&
      q.phone == p.phone && q.verificationPhotoUrl == p.verificationPhotoUrl && q.walletBalance == p.walletBalance
  {
  }
}
