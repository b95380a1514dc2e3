/**
 * The profile-edit form's state logic: the draft field values, the
 * field-keyed error messages (an empty message means none), the chosen
 * photo file and its preview, and the two busy flags.
 *
 * The profile operations it calls are given as their replies; they never
 * reject, so the form's own catch-all branches are not reachable here. The
 * parent's `onUpdate` and `onCancel` callbacks show up as the number of
 * update notifications and whether the form was closed.
 */
module ProfileEdit {
  import opened Wrappers
  import opened Gateway

  const ImagePrefix := "image/"
  const MaxPhotoBytes := 5 * 1024 * 1024
  const NotAnImage := "Please select an image file"
  const PhotoTooLarge := "Image size must be less than 5MB"

  /** A file the user picked: its name, its MIME type and its size in bytes. */
  datatype File = File(name: string, mimeType: string, size: int)

  type Fields = map<string, string>

  /** An entry is set when it is present and not empty. */
  predicate HasError(errors: Fields, name: string)
  {
    name in errors && errors[name] != ""
  }

  /** The entry set to empty when it was set, and left alone otherwise. */
  function ClearedError(errors: Fields, name: string): (r: Fields)
    ensures !HasError(r, name)
    ensures forall k :: k != name ==> (k in r <==> k in errors) && (k in r ==> r[k] == errors[k])
    ensures name in r <==> name in errors
  {
    if HasError(errors, name) then errors[name := ""] else errors
  }

  /**
   * Why a picked file is refused, if it is: the type test comes first, then
   * the size bound, which admits exactly 5 MB.
   */
  function PhotoRejection(f: File): (r: Option<string>)
    ensures r.None? <==> ImagePrefix <= f.mimeType && f.size <= MaxPhotoBytes
    ensures !(ImagePrefix <= f.mimeType) ==> r == Some(NotAnImage)
    ensures r == Some(PhotoTooLarge) <==> ImagePrefix <= f.mimeType && f.size > MaxPhotoBytes
  {
    if !(ImagePrefix <= f.mimeType) then Some(NotAnImage)
    else if f.size > MaxPhotoBytes then Some(PhotoTooLarge)
    else None
  }

  lemma PhotoSizeBoundary(name: string)
    ensures PhotoRejection(File(name, "image/png", 5242880)).None?
    ensures PhotoRejection(File(name, "image/png", 5242881)) == Some(PhotoTooLarge)
    ensures PhotoRejection(File(name, "text/plain", 5242881)) == Some(NotAnImage)
  {
    assert "text/plain"[0] != ImagePrefix[0];
  }

  /** The field a failed reply names, if any. */
  function FieldOf<T>(r: Reply<T>): Option<string>
  {
    if r.Failed? then r.field else None
  }

  /** After a failed profile update: both text fields get an entry, and only the one the reply names gets the message. */
  function UpdateFailureErrors(field: Option<string>, error: string): (r: Fields)
    ensures r.Keys == {"displayName", "bio"}
    ensures forall k :: k in r ==> (r[k] != "" <==> field == Some(k) && error != "")
    ensures forall k :: k in r && r[k] != "" ==> r[k] == error
  {
    map["displayName" := if field == Some("displayName") then error else "",
        "bio" := if field == Some("bio") then error else ""]
  }

  /**
   * The error entries a submit ends with. A failed upload leaves only the
   * photo entry; otherwise a failed update leaves the two text entries, and
   * success leaves none.
   */
  function SubmitErrors(hasPhoto: bool, upload: Reply<string>, update: Reply<User>): (r: Fields)
    ensures hasPhoto && !upload.Done? ==> r == map["photo" := upload.error]
    ensures "photo" in r ==> hasPhoto && !upload.Done?
    ensures (!hasPhoto || upload.Done?) && update.Done? ==> r == map[]
    ensures (!hasPhoto || upload.Done?) && !update.Done? ==> r == UpdateFailureErrors(FieldOf(update), update.error)
  {
    if hasPhoto && !upload.Done? then map["photo" := upload.error]
    else if update.Done? then map[]
    else UpdateFailureErrors(FieldOf(update), update.error)
  }

  /** A truthy profile photo address on the user being edited. */
  predicate HasPhotoUrl(user: Option<User>)
  {
    user.Some? && Truthy(user.value.profilePhotoUrl)
  }

  /** The starting draft: the user's display name and bio, each defaulting to empty. */
  function InitialFormData(user: Option<User>): (r: Fields)
    ensures r.Keys == {"displayName", "bio"}
    ensures user.None? ==> r["displayName"] == "" && r["bio"] == ""
    ensures user.Some? ==>
              r["displayName"] == OrDefault(user.value.displayName, "") && r["bio"] == OrDefault(user.value.bio, "")
  {
    if user.Some? then
      map["displayName" := OrDefault(user.value.displayName, ""), "bio" := OrDefault(user.value.bio, "")]
    else
      map["displayName" := "", "bio" := ""]
  }

  class EditProfileForm {
    const user: Option<User>
    var formData: Fields
    var errors: Fields
    var loading: bool
    var photoFile: Option<File>
    var photoPreview: Option<string>
    var photoUploading: bool

    constructor (user: Option<User>)
      ensures this.user == user
      ensures formData == InitialFormData(user)
      ensures errors == map[]
      ensures photoPreview == (if HasPhotoUrl(user) then user.value.profilePhotoUrl else None)
      ensures photoFile.None? && !loading && !photoUploading
    {
      this.user := user;
      formData := InitialFormData(user);
      errors := map[];
      loading := false;
      photoFile := None;
      photoPreview := if HasPhotoUrl(user) then user.value.profilePhotoUrl else None;
      photoUploading := false;
    }

    /** Typing into a field: only that value changes, and only that field's message is cleared. */
    method HandleChange(name: string, value: string)
      modifies this`formData, this`errors
      ensures formData == old(formData)[name := value]
      ensures errors == ClearedError(old(errors), name)
    {
      formData := formData[name := value];
      if name in errors && errors[name] != "" {
        errors := errors[name := ""];
      }
    }

    /** Picking a photo file; `blobUrl` is the preview address made for an accepted file. */
    method HandlePhotoChange(file: Option<File>, blobUrl: string)
      modifies this`errors, this`photoFile, this`photoPreview
      ensures file.None? ==> errors == old(errors) && photoFile == old(photoFile) && photoPreview == old(photoPreview)
      ensures file.Some? && PhotoRejection(file.value).Some? ==>
                errors == old(errors)["photo" := PhotoRejection(file.value).value] &&
                photoFile == old(photoFile) && photoPreview == old(photoPreview)
      ensures file.Some? && PhotoRejection(file.value).None? ==>
                photoFile == file && photoPreview == Some(blobUrl) && errors == ClearedError(old(errors), "photo")
    {
      if file.None? {
        return;
      }
      var rejection := PhotoRejection(file.value);
      if rejection.Some? {
        errors := errors["photo" := rejection.value];
        return;
      }
      photoFile := file;
      photoPreview := Some(blobUrl);
      errors := ClearedError(errors, "photo");
    }

    /**
     * Deleting the photo, given the delete operation's reply. Without a photo
     * address or a picked file nothing happens; otherwise success drops the
     * preview and the file and notifies the parent, failure records the message.
     */
    method HandleDeletePhoto(result: Reply<()>) returns (notified: bool)
      modifies this`errors, this`photoFile, this`photoPreview, this`photoUploading
      ensures !HasPhotoUrl(user) && old(photoFile).None? ==>
                !notified && errors == old(errors) && photoFile == old(photoFile) &&
                photoPreview == old(photoPreview) && photoUploading == old(photoUploading)
      ensures (HasPhotoUrl(user) || old(photoFile).Some?) ==> !photoUploading && (notified <==> result.Done?)
      ensures (HasPhotoUrl(user) || old(photoFile).Some?) && result.Done? ==>
                photoPreview.None? && photoFile.None? && errors == old(errors)["photo" := ""]
      ensures (HasPhotoUrl(user) || old(photoFile).Some?) && !result.Done? ==>
                errors == old(errors)["photo" := result.error] &&
                photoPreview == old(photoPreview) && photoFile == old(photoFile)
    {
      notified := false;
      if !HasPhotoUrl(user) && photoFile.None? {
        return;
      }
      photoUploading := true;
      errors := errors["photo" := ""];
      if !result.Done? {
        errors := errors["photo" := result.error];
      } else {
        photoPreview := None;
        photoFile := None;
        notified := true;
      }
      photoUploading := false;
    }

    /**
     * Submitting the form, given the replies of the photo upload and of the
     * profile update. A picked photo is uploaded first; a failed upload stops
     * the submit before any update is requested. The calls made come back as
     * what was sent to each.
     */
    method HandleSubmit(upload: Reply<string>, update: Reply<User>)
      returns (uploadSent: Option<File>, updateSent: Option<Fields>, notifications: nat, closed: bool)
      modifies this`errors, this`loading, this`photoUploading
      ensures !loading && !photoUploading
      ensures errors == SubmitErrors(photoFile.Some?, upload, update)
      ensures uploadSent == photoFile
      ensures updateSent.Some? <==> photoFile.None? || upload.Done?
      ensures updateSent.Some? ==> updateSent.value == formData
      ensures closed <==> updateSent.Some? && update.Done?
      ensures notifications == (if photoFile.Some? && upload.Done? then 1 else 0) + (if closed then 1 else 0)
    {
      loading := true;
      errors := map[];
      uploadSent, updateSent, notifications, closed := None, None, 0, false;
      if photoFile.Some? {
        photoUploading := true;
        uploadSent := photoFile;
        if !upload.Done? {
          errors := map["photo" := upload.error];
          photoUploading := false;
          loading := false;
          return;
        }
        photoUploading := false;
        notifications := notifications + 1;
      }
      updateSent := Some(formData);
      if update.Done? {
        notifications := notifications + 1;
        closed := true;
      } else {
        errors := UpdateFailureErrors(FieldOf(update), update.error);
      }
      loading := false;
      photoUploading := false;
    }
  }
}
