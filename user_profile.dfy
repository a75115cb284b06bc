/**
 * The profile page's local checks: which avatar files are handed to the upload, and which
 * password changes are sent to the authentication service, with the form state each leaves.
 */
module UserProfile {
  import opened Wrappers

  /** The chosen file: its size in bytes and its MIME type. */
  datatype File = File(size: nat, mime: string)

  /** What choosing a file leads to. */
  datatype UploadOutcome = NoFile | TooLarge | BadType | Upload(file: File)

  /** The size limit, 5 MiB. */
  const MaxAvatarBytes: nat := 5 * 1024 * 1024

  /** The accepted image types. */
  const AllowedTypes: seq<string> := ["image/jpeg", "image/png", "image/gif", "image/webp"]

  /** `handleImageUpload`: no file does nothing; the size is checked before the type. */
  function ImageUpload(file: Option<File>): UploadOutcome {
    if file.None? then NoFile
    else if file.value.size > MaxAvatarBytes then TooLarge
    else if file.value.mime !in AllowedTypes then BadType
    else Upload(file.value)
  }

  /**
   * A file is uploaded, unchanged, exactly when it is at most 5 MiB and of an accepted type;
   * an oversized file is refused for its size whatever its type.
   */
  lemma ImageUploadSpec(file: Option<File>)
    ensures ImageUpload(file).NoFile? <==> file.None?
    ensures ImageUpload(file).Upload? <==>
      file.Some? && file.value.size <= 5242880
      && file.value.mime in {"image/jpeg", "image/png", "image/gif", "image/webp"}
    ensures ImageUpload(file).Upload? ==> ImageUpload(file).file == file.value
    ensures ImageUpload(file).TooLarge? <==> file.Some? && file.value.size > 5242880
    ensures ImageUpload(file).BadType? <==>
      file.Some? && file.value.size <= 5242880
      && file.value.mime !in {"image/jpeg", "image/png", "image/gif", "image/webp"}
  {
  }

  /** A file of exactly 5 MiB passes the size check; one byte more does not. */
  lemma SizeBoundary(mime: string)
    ensures !ImageUpload(Some(File(5242880, mime))).TooLarge?
    ensures ImageUpload(Some(File(5242881, mime))) == TooLarge
  {
  }

  /** Why a password change is refused before any request. */
  datatype PasswordProblem = Mismatch | TooShort

  /** The checks of `handlePasswordChange`, in order: the match first, then the length. */
  function CheckPassword(newPassword: string, confirmPassword: string): Option<PasswordProblem> {
    if newPassword != confirmPassword then Some(Mismatch)
    else if |newPassword| < 6 then Some(TooShort)
    else None
  }

  /**
   * A change passes exactly when both entries agree and are at least six characters long;
   * a mismatch is reported whatever the length.
   */
  lemma CheckPasswordSpec(newPassword: string, confirmPassword: string)
    ensures CheckPassword(newPassword, confirmPassword).None? <==>
      newPassword == confirmPassword && |newPassword| >= 6
    ensures newPassword != confirmPassword ==>
      CheckPassword(newPassword, confirmPassword) == Some(Mismatch)
    ensures CheckPassword(newPassword, confirmPassword) == Some(TooShort) <==>
      newPassword == confirmPassword && |newPassword| < 6
  {
  }

  /** How a password change ends. */
  datatype PasswordOutcome = Refused(problem: PasswordProblem) | UpdateFailed | Updated

  /** A profile row; missing names are absent. */
  datatype Profile = Profile(username: Option<string>, fullName: Option<string>)

  /** The form's fields. */
  class ProfileForm {
    var username: string
    var fullName: string
    var currentPassword: string
    var newPassword: string
    var confirmPassword: string
    var updating: bool

    /** The form for the profile as first loaded. */
    constructor (p: Option<Profile>)
      ensures username == (if p.Some? then p.value.username.GetOr("") else "")
      ensures fullName == (if p.Some? then p.value.fullName.GetOr("") else "")
      ensures currentPassword == [] && newPassword == [] && confirmPassword == [] && !updating
    {
      username := if p.Some? then p.value.username.GetOr("") else "";
      fullName := if p.Some? then p.value.fullName.GetOr("") else "";
      currentPassword, newPassword, confirmPassword := [], [], [];
      updating := false;
    }

    /** The effect on a profile change: copy the names of a loaded profile, else keep the form. */
    method SyncProfile(p: Option<Profile>)
      modifies this
      ensures p.Some? ==> username == p.value.username.GetOr("")
                          && fullName == p.value.fullName.GetOr("")
      ensures p.None? ==> username == old(username) && fullName == old(fullName)
      ensures currentPassword == old(currentPassword) && newPassword == old(newPassword)
      ensures confirmPassword == old(confirmPassword) && updating == old(updating)
    {
      if p.Some? {
        username := p.value.username.GetOr("");
        fullName := p.value.fullName.GetOr("");
      }
    }

    /** `handleProfileUpdate`: send both name fields as they stand; `updating` ends off. */
    method UpdateProfile() returns (sentUsername: string, sentFullName: string)
      modifies this
      ensures sentUsername == old(username) && sentFullName == old(fullName)
      ensures username == old(username) && fullName == old(fullName) && !updating
      ensures currentPassword == old(currentPassword) && newPassword == old(newPassword)
      ensures confirmPassword == old(confirmPassword)
    {
      updating := true;
      sentUsername, sentFullName := username, fullName;
      updating := false;
    }

    /**
     * `handlePasswordChange` given whether the service accepts the update: a refused change
     * sends nothing and changes nothing; otherwise the new password is sent (the current one
     * never is), the three password fields are cleared only when the change succeeds, and
     * `updating` ends off.
     */
    method ChangePassword(serviceOk: bool)
      returns (outcome: PasswordOutcome, sentPassword: Option<string>)
      modifies this
      ensures var check := CheckPassword(old(newPassword), old(confirmPassword));
        && (check.Some? ==> outcome == Refused(check.value))
        && (check.None? ==> outcome == if serviceOk then Updated else UpdateFailed)
      ensures outcome.Refused? ==> sentPassword == None
      ensures !outcome.Refused? ==> sentPassword == Some(old(newPassword))
      ensures outcome.Refused? ==>
        newPassword == old(newPassword) && confirmPassword == old(confirmPassword)
        && currentPassword == old(currentPassword) && updating == old(updating)
      ensures outcome == UpdateFailed ==>
        newPassword == old(newPassword) && confirmPassword == old(confirmPassword)
        && currentPassword == old(currentPassword) && !updating
      ensures outcome == Updated ==>
        newPassword == [] && confirmPassword == [] && currentPassword == [] && !updating
      ensures username == old(username) && fullName == old(fullName)
    {
      if newPassword != confirmPassword {
        return Refused(Mismatch), None;
      }
      if |newPassword| < 6 {
        return Refused(TooShort), None;
      }
      updating := true;
      sentPassword := Some(newPassword);
      if serviceOk {
        outcome := Updated;
        currentPassword := [];
        newPassword := [];
        confirmPassword := [];
      } else {
        outcome := UpdateFailed;
      }
      updating := false;
    }
  }
}
