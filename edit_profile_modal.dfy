/** The edit-profile dialog: the form filled from the loaded profile, the
    sanitised username field, the avatar choice, and the submit sequence
    (upload a new avatar if one was picked, then update the profile). */
module EditProfileDialog {
  import opened Wrappers
  import opened Text
  import opened Store
  import opened ProfileHooks

  /** The `maxLength` of the bio box. */
  const BioLimit: nat := 150

  datatype ProfileForm = ProfileForm(fullName: string, username: string, bio: string, website: string)

  function EmptyForm(): ProfileForm { ProfileForm([], [], [], []) }

  /** The form the loaded profile fills in: a `null` field becomes ''. */
  function FormFromProfile(p: ProfileRow): (f: ProfileForm)
    ensures f.username == p.username
    ensures f.fullName == p.fullName.GetOr([]) && f.bio == p.bio.GetOr([]) && f.website == p.website.GetOr([])
  {
    ProfileForm(p.fullName.GetOr([]), p.username, p.bio.GetOr([]), p.website.GetOr([]))
  }

  /** `profile?.avatar_url`, replaced by the uploaded URL when a new file
      was stored: left out of the update when no profile is loaded. */
  function ChosenAvatar(profile: Option<ProfileRow>, uploadedUrl: Option<string>): (a: AvatarField)
    ensures uploadedUrl.Some? ==> a == Given(uploadedUrl)
    ensures uploadedUrl.None? && profile.Some? ==> a == Given(profile.value.avatarUrl)
    ensures uploadedUrl.None? && profile.None? ==> a == Omitted
  {
    if uploadedUrl.Some? then Given(uploadedUrl)
    else match profile
      case None => Omitted
      case Some(p) => Given(p.avatarUrl)
  }

  /** The update built from the form and the chosen avatar. */
  function FormUpdate(f: ProfileForm, avatar: AvatarField): ProfileUpdate {
    ProfileUpdate(f.fullName, f.username, f.bio, f.website, avatar)
  }

  /** Without a new file the saved avatar is the one the row already has,
      whether or not the profile had loaded into the dialog. */
  lemma AvatarKeptWithoutNewFile(row: ProfileRow, seen: Option<ProfileRow>, f: ProfileForm)
    requires seen.None? || seen == Some(row)
    ensures ApplyUpdate(row, FormUpdate(f, ChosenAvatar(seen, None))).avatarUrl == row.avatarUrl
  {
  }

  /** Saving the form unedited leaves a row whose optional text fields are
      all set exactly as it was; a `null` field is saved as ''. */
  lemma UneditedFormSavesSameRow(row: ProfileRow)
    ensures var saved := ApplyUpdate(row, FormUpdate(FormFromProfile(row), ChosenAvatar(Some(row), None)));
            && saved.userId == row.userId && saved.username == row.username && saved.avatarUrl == row.avatarUrl
            && saved.fullName == Some(row.fullName.GetOr([]))
            && saved.bio == Some(row.bio.GetOr([]))
            && saved.website == Some(row.website.GetOr([]))
            && (row.fullName.Some? && row.bio.Some? && row.website.Some? ==> saved == row)
  {
  }

  /** What a submit ends with. */
  datatype Outcome = Ignored | Saved | UploadError | SaveError

  class EditProfileModal {
    const user: Option<UserId>
    var form: ProfileForm
    var avatarFile: Option<File>
    var avatarPreview: string
    var isSubmitting: bool

    constructor (user: Option<UserId>)
      ensures this.user == user && form == EmptyForm() && avatarFile.None? && avatarPreview == [] && !isSubmitting
    {
      this.user := user;
      form, avatarFile, avatarPreview, isSubmitting := EmptyForm(), None, [], false;
    }

    /** The effect that runs when the profile arrives: fill the form and the
        preview from it; with no profile, nothing changes. */
    method LoadProfile(profile: Option<ProfileRow>)
      modifies this
      ensures profile.Some? ==> form == FormFromProfile(profile.value) && avatarPreview == profile.value.avatarUrl.GetOr([])
      ensures profile.None? ==> form == old(form) && avatarPreview == old(avatarPreview)
      ensures avatarFile == old(avatarFile) && isSubmitting == old(isSubmitting)
    {
      if profile.Some? {
        form := FormFromProfile(profile.value);
        avatarPreview := profile.value.avatarUrl.GetOr([]);
      }
    }

    /** Typing in the username field keeps it lower-case and free of white space. */
    method SetUsername(typed: string)
      modifies this
      ensures form == old(form).(username := SanitizeUsername(typed))
      ensures NoSpace(form.username) && NoUpper(form.username)
      ensures avatarFile == old(avatarFile) && avatarPreview == old(avatarPreview) && isSubmitting == old(isSubmitting)
    {
      form := form.(username := SanitizeUsername(typed));
    }

    method SetFullName(typed: string)
      modifies this
      ensures form == old(form).(fullName := typed)
      ensures avatarFile == old(avatarFile) && avatarPreview == old(avatarPreview) && isSubmitting == old(isSubmitting)
    {
      form := form.(fullName := typed);
    }

    /** Typing in the bio box, which holds at most 150 characters. */
    method SetBio(typed: string)
      modifies this
      ensures form == old(form).(bio := typed[..Min(|typed|, BioLimit)])
      ensures |form.bio| <= BioLimit && (|typed| <= BioLimit ==> form.bio == typed)
      ensures avatarFile == old(avatarFile) && avatarPreview == old(avatarPreview) && isSubmitting == old(isSubmitting)
    {
      form := form.(bio := typed[..Min(|typed|, BioLimit)]);
    }

    method SetWebsite(typed: string)
      modifies this
      ensures form == old(form).(website := typed)
      ensures avatarFile == old(avatarFile) && avatarPreview == old(avatarPreview) && isSubmitting == old(isSubmitting)
    {
      form := form.(website := typed);
    }

    /** `handleAvatarSelect`: a picked file is held and previewed through
        `objectUrl`; no file changes nothing. There is no type check here. */
    method SelectAvatar(file: Option<File>, objectUrl: string)
      modifies this
      ensures file.Some? ==> avatarFile == file && avatarPreview == objectUrl
      ensures file.None? ==> avatarFile == old(avatarFile) && avatarPreview == old(avatarPreview)
      ensures form == old(form) && isSubmitting == old(isSubmitting)
    {
      if file.Some? {
        avatarFile := file;
        avatarPreview := objectUrl;
      }
    }

    /** `handleSubmit`: with no user nothing happens. Otherwise a picked
        file is uploaded under `UploadPath` first (its URL is `uploadedUrl`,
        `None` when the upload fails, which stops the submit), then the
        profile is updated from the form and the chosen avatar. The dialog
        closes only after a successful save, and `isSubmitting` is false
        again on every path. */
    method HandleSubmit(db: Backend, profile: Option<ProfileRow>, now: nat, uploadedUrl: Option<string>, writeOk: bool)
      returns (outcome: Outcome, uploadPath: Option<string>, sent: Option<ProfileUpdate>)
      requires db.Valid()
      modifies this, db
      ensures db.Valid()
      ensures user.None? ==> outcome == Ignored && uploadPath.None? && sent.None? && db.State() == old(db.State())
      ensures user.Some? && avatarFile.Some? ==> uploadPath == Some(UploadPath(user.value, now, avatarFile.value.name))
      ensures user.None? || avatarFile.None? ==> uploadPath.None?
      ensures user.Some? && avatarFile.Some? && uploadedUrl.None? ==>
                outcome == UploadError && sent.None? && db.State() == old(db.State())
      ensures sent.Some? <==> user.Some? && (avatarFile.None? || uploadedUrl.Some?)
      ensures outcome == Saved ==> sent.Some?
      ensures sent.Some? ==> sent.value == FormUpdate(form, ChosenAvatar(profile, if avatarFile.Some? then uploadedUrl else None))
      ensures sent.Some? ==> outcome == (if user.value in old(db.profiles) && writeOk then Saved else SaveError)
      ensures outcome == Saved ==> db.profiles == old(db.profiles)[user.value := ApplyUpdate(old(db.profiles)[user.value], sent.value)]
      ensures outcome != Saved ==> db.profiles == old(db.profiles)
      ensures user.Some? ==> !isSubmitting
      ensures user.None? ==> isSubmitting == old(isSubmitting)
      ensures form == old(form) && avatarFile == old(avatarFile) && avatarPreview == old(avatarPreview)
      ensures db.posts == old(db.posts) && db.likes == old(db.likes) && db.comments == old(db.comments)
      ensures db.follows == old(db.follows) && db.notifications == old(db.notifications)
    {
      if user.None? {
        return Ignored, None, None;
      }
      isSubmitting := true;
      var avatar := ChosenAvatar(profile, None);
      uploadPath := None;
      if avatarFile.Some? {
        uploadPath := Some(UploadPath(user.value, now, avatarFile.value.name));
        if uploadedUrl.None? {
          isSubmitting := false;
          return UploadError, uploadPath, None;
        }
        avatar := ChosenAvatar(profile, uploadedUrl);
      }
      var update := FormUpdate(form, avatar);
      var r, _ := UpdateProfile(db, user, update, writeOk);
      outcome := if r.Success? then Saved else SaveError;
      sent := Some(update);
      isSubmitting := false;
    }
  }
}
