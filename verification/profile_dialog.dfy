/** The profile editor: the form filled from the stored profile, the avatar and
    background pickers with their checks, and the save that uploads the chosen
    files and then updates the profile or creates the first one. */
module UserProfileDialog {
  import opened Base
  import opened Text
  import opened Gateway
  import opened Uploads
  import UserPanel

  /** The text fields of the form. */
  datatype Form = Form(displayName: string, bio: string, status: string)

  /** The form's initial state. */
  const BlankForm := Form("", "", "online")

  /** The form after the effect that runs when the dialog receives a user and a
      profile: a stored profile fills every field, with '' for a missing name or
      bio and 'online' for a missing status; without one, only the name is set,
      to the e-mail's local part or ''. */
  function FormFor(user: Option<User>, profile: Option<UserProfile>, current: Form): (f: Form)
    ensures profile.Some? ==>
      && f.displayName == OrElse(profile.value.displayName, "")
      && f.bio == OrElse(profile.value.bio, "") && f.status == OrElse(profile.value.status, "online")
    ensures profile.Some? ==> f.status != []
    ensures profile.None? && user.Some? ==> f.bio == current.bio && f.status == current.status
    ensures profile.None? && user.Some? && user.value.email.Some? ==> f.displayName == BeforeAt(user.value.email.value)
    ensures profile.None? && user.Some? && user.value.email.None? ==> f.displayName == ""
    ensures profile.None? && user.None? ==> f == current
  {
    if profile.Some? then
      var p := profile.value;
      Form(OrElse(p.displayName, ""), OrElse(p.bio, ""), OrElse(p.status, "online"))
    else if user.Some? then
      current.(displayName := if user.value.email.None? then "" else BeforeAt(user.value.email.value))
    else current
  }

  /** `userProfile?.avatarUrl || null`: the avatar URL a save keeps when no new file is chosen. */
  function KeptAvatar(profile: Option<UserProfile>): (u: Option<string>)
    ensures profile.Some? && Truthy(profile.value.avatarUrl) ==> u == profile.value.avatarUrl
    ensures profile.None? || !Truthy(profile.value.avatarUrl) ==> u.None?
  {
    if profile.None? then None else OrNull(profile.value.avatarUrl)
  }

  /** `userProfile?.backgroundUrl || null`. */
  function KeptBackground(profile: Option<UserProfile>): (u: Option<string>)
    ensures profile.Some? && Truthy(profile.value.backgroundUrl) ==> u == profile.value.backgroundUrl
    ensures profile.None? || !Truthy(profile.value.backgroundUrl) ==> u.None?
  {
    if profile.None? then None else OrNull(profile.value.backgroundUrl)
  }

  /** Storage path of a new avatar. */
  function AvatarPath(userId: string, f: File): (p: string)
    ensures "avatars/" <= p
  {
    KeyedPath("avatars/", userId, f.name)
  }

  /** Storage path of a new profile background. */
  function BackgroundPath(userId: string, f: File): (p: string)
    ensures "profile-backgrounds/" <= p
  {
    KeyedPath("profile-backgrounds/", userId, f.name)
  }

  /** The uploads a save makes, in order: the avatar, then the background. */
  function UploadPaths(userId: string, avatar: Option<File>, background: Option<File>): (r: seq<string>)
    ensures |r| == UploadCount(avatar.Some?, background.Some?)
    ensures avatar.Some? ==> r[0] == AvatarPath(userId, avatar.value)
    ensures background.Some? ==> r[|r| - 1] == BackgroundPath(userId, background.value)
  {
    Chosen(AvatarSlot(userId, avatar), BackgroundSlot(userId, background))
  }

  /** The avatar's upload path, when a new avatar was chosen. */
  function AvatarSlot(userId: string, avatar: Option<File>): (p: Option<string>)
    ensures p.Some? <==> avatar.Some?
  {
    if avatar.Some? then Some(AvatarPath(userId, avatar.value)) else None
  }

  /** The background's upload path, when a new background was chosen. */
  function BackgroundSlot(userId: string, background: Option<File>): (p: Option<string>)
    ensures p.Some? <==> background.Some?
  {
    if background.Some? then Some(BackgroundPath(userId, background.value)) else None
  }

  /** `p` holds what a save of `form` writes: the trimmed name, the trimmed bio
      or null when it is blank, the status, and the two image URLs. */
  predicate Holds(p: UserProfile, form: Form, avatarUrl: Option<string>, backgroundUrl: Option<string>) {
    && p.displayName == Some(Trim(form.displayName))
    && p.bio == NullIfBlank(form.bio)
    && p.status == Some(form.status)
    && p.avatarUrl == avatarUrl
    && p.backgroundUrl == backgroundUrl
  }

  /** The profiles after the save's write: an update of the existing profile by
      its id, or the creation of a new one for the user. */
  function WrittenProfiles(
    ps: seq<UserProfile>, userId: string, existing: Option<UserProfile>, profileId: string,
    form: Form, avatarUrl: Option<string>, backgroundUrl: Option<string>): (r: seq<UserProfile>)
    ensures existing.Some? ==> |r| == |ps|
    ensures existing.Some? ==> forall k :: 0 <= k < |ps| && ps[k].id != existing.value.id ==> r[k] == ps[k]
    ensures existing.Some? ==> forall k :: 0 <= k < |ps| && ps[k].id == existing.value.id ==>
      && Holds(r[k], form, avatarUrl, backgroundUrl)
      && r[k].id == ps[k].id && r[k].userId == ps[k].userId && r[k].themeColors == ps[k].themeColors
    ensures existing.None? ==>
      && |r| == |ps| + 1 && r[..|ps|] == ps
      && r[|ps|].id == profileId && r[|ps|].userId == userId && r[|ps|].themeColors.None?
      && Holds(r[|ps|], form, avatarUrl, backgroundUrl)
  {
    if existing.Some? then
      WithProfileFields(ps, existing.value.id, Trim(form.displayName), NullIfBlank(form.bio), form.status, avatarUrl, backgroundUrl)
    else
      var p := UserProfile(profileId, userId, Some(Trim(form.displayName)), NullIfBlank(form.bio),
                           Some(form.status), avatarUrl, backgroundUrl, None);
      assert (ps + [p])[..|ps|] == ps;
      ps + [p]
  }

  /** The write at the end of a save: `userProfiles.update` of the existing
      profile, or `userProfiles.create` of a new one. */
  method WriteProfile(
    store: Store, userId: string, existing: Option<UserProfile>, profileId: string,
    form: Form, avatarUrl: Option<string>, backgroundUrl: Option<string>)
    modifies store
    ensures store.db == old(store.db).(profiles := WrittenProfiles(old(store.db.profiles), userId, existing, profileId, form, avatarUrl, backgroundUrl))
  {
    if existing.Some? {
      store.UpdateProfile(existing.value.id, Trim(form.displayName), NullIfBlank(form.bio), form.status, avatarUrl, backgroundUrl);
    } else {
      store.CreateProfile(UserProfile(profileId, userId, Some(Trim(form.displayName)), NullIfBlank(form.bio),
                                      Some(form.status), avatarUrl, backgroundUrl, None));
    }
  }

  /** The stored data after the gateway calls of a save with a non-blank name:
      the blobs of the uploads that succeeded and, when every call succeeded,
      the written profile. */
  function AfterSave(
    db: Db, userId: string, existing: Option<UserProfile>, profileId: string, form: Form,
    avatar: Option<File>, background: Option<File>, okCalls: nat,
    avatarUploadUrl: string, backgroundUploadUrl: string): (r: Db)
    ensures r.servers == db.servers && r.members == db.members && r.channels == db.channels
    ensures r.messages == db.messages && r.directMessages == db.directMessages && r.friends == db.friends
    ensures db.blobs <= r.blobs && |r.blobs| <= |db.blobs| + 2
    ensures okCalls <= |UploadPaths(userId, avatar, background)| ==> r.profiles == db.profiles
  {
    db.(blobs := db.blobs + FirstN(UploadPaths(userId, avatar, background), okCalls),
        profiles := if okCalls > |UploadPaths(userId, avatar, background)|
          then WrittenProfiles(db.profiles, userId, existing, profileId, form,
                 FinalUrl(KeptAvatar(existing), avatar, avatarUploadUrl),
                 FinalUrl(KeptBackground(existing), background, backgroundUploadUrl))
          else db.profiles)
  }

  /** The gateway calls of a save with a non-blank name: the chosen avatar and
      background are uploaded in that order, then the profile is written.
      `okCalls` calls succeed before one throws. `run` is every value the
      progress bar takes until the final reset. */
  method UploadAndWrite(
    store: Store, userId: string, existing: Option<UserProfile>, form: Form,
    avatar: Option<File>, background: Option<File>, okCalls: nat,
    avatarUploadUrl: string, backgroundUploadUrl: string,
    avatarPercents: seq<real>, backgroundPercents: seq<real>, profileId: string)
    returns (saved: bool, run: seq<real>)
    modifies store
    ensures saved <==> okCalls > |UploadPaths(userId, avatar, background)|
    ensures store.db == AfterSave(old(store.db), userId, existing, profileId, form, avatar, background, okCalls,
                                  avatarUploadUrl, backgroundUploadUrl)
    ensures run == SaveRun(avatar.Some?, background.Some?, okCalls, avatarPercents, backgroundPercents)
  {
    var paths := UploadPaths(userId, avatar, background);
    assert paths == Chosen(AvatarSlot(userId, avatar), BackgroundSlot(userId, background));
    var done, closing;
    done, run := UploadInOrder(store, AvatarSlot(userId, avatar), BackgroundSlot(userId, background),
                               okCalls, avatarPercents, backgroundPercents);
    saved, closing := WriteAfterUploads(store, userId, existing, profileId, form, avatar, background, done, okCalls,
                                        avatarUploadUrl, backgroundUploadUrl);
    run := run + closing;
  }

  /** What follows the uploads: once they are all done the bar shows 90 and
      the profile is written, after which it shows 100. */
  method WriteAfterUploads(
    store: Store, userId: string, existing: Option<UserProfile>, profileId: string, form: Form,
    avatar: Option<File>, background: Option<File>, done: bool, okCalls: nat,
    avatarUploadUrl: string, backgroundUploadUrl: string)
    returns (saved: bool, closing: seq<real>)
    requires done <==> okCalls >= UploadCount(avatar.Some?, background.Some?)
    modifies store
    ensures saved <==> okCalls > UploadCount(avatar.Some?, background.Some?)
    ensures store.db == old(store.db).(profiles := if saved
      then WrittenProfiles(old(store.db.profiles), userId, existing, profileId, form,
             FinalUrl(KeptAvatar(existing), avatar, avatarUploadUrl),
             FinalUrl(KeptBackground(existing), background, backgroundUploadUrl))
      else old(store.db.profiles))
    ensures closing == Closing(avatar.Some?, background.Some?, okCalls)
  {
    saved, closing := false, [];
    if done {
      closing := [90.0];
      if okCalls > UploadCount(avatar.Some?, background.Some?) {
        WriteProfile(store, userId, existing, profileId, form,
                     FinalUrl(KeptAvatar(existing), avatar, avatarUploadUrl),
                     FinalUrl(KeptBackground(existing), background, backgroundUploadUrl));
        closing := closing + [100.0];
        saved := true;
      }
    }
  }


  /** After a save, the user panel shows the trimmed name and the chosen
      status's colour. */
  lemma SavedProfileIsShown(p: UserProfile, form: Form, avatarUrl: Option<string>, backgroundUrl: Option<string>, email: Option<string>)
    requires Holds(p, form, avatarUrl, backgroundUrl)
    requires !IsBlank(form.displayName) && form.status != []
    ensures UserPanel.PanelName(Some(p), email) == Trim(form.displayName)
    ensures UserPanel.DotColor(Some(p)) == UserPanel.StatusColor(form.status)
    ensures UserPanel.StatusText(Some(p)) == form.status
  {
  }

  /** Opening the dialog on a stored profile and saving without edits writes
      that profile's own values back, provided they are already in the form a
      save produces: a trimmed non-empty name, a bio that is absent or trimmed
      and non-empty, a non-empty status, and image URLs that are not empty strings. */
  lemma UneditedSaveRewritesProfile(user: Option<User>, p: UserProfile, current: Form)
    requires p.displayName.Some? && p.displayName.value != [] && Trim(p.displayName.value) == p.displayName.value
    requires p.bio.None? || (p.bio.value != [] && Trim(p.bio.value) == p.bio.value)
    requires Truthy(p.status)
    requires p.avatarUrl != Some("") && p.backgroundUrl != Some("")
    ensures var form := FormFor(user, Some(p), current);
      Holds(p, form, FinalUrl(KeptAvatar(Some(p)), None, ""), FinalUrl(KeptBackground(Some(p)), None, ""))
  {
  }

  /** Removing the stored avatar and saving does not remove it: the remove
      button clears the preview, but a save without a new file writes the
      stored URL back. */
  lemma RemovedAvatarComesBack(p: UserProfile, uploaded: string)
    requires Truthy(p.avatarUrl)
    ensures FinalUrl(KeptAvatar(Some(p)), None, uploaded) == p.avatarUrl
  {
  }

  /** The options of the status select. */
  const StatusOptions: seq<string> := ["online", "away", "busy", "offline"]

  /** The dialog's status preview uses the panel's colour table: green, yellow,
      red and gray for the four options, a different colour for each. */
  lemma StatusOptionColors()
    ensures UserPanel.StatusColor(StatusOptions[0]) == "bg-green-500"
    ensures UserPanel.StatusColor(StatusOptions[1]) == "bg-yellow-500"
    ensures UserPanel.StatusColor(StatusOptions[2]) == "bg-red-500"
    ensures UserPanel.StatusColor(StatusOptions[3]) == "bg-gray-500"
    ensures forall i, j :: 0 <= i < j < |StatusOptions| ==>
      UserPanel.StatusColor(StatusOptions[i]) != UserPanel.StatusColor(StatusOptions[j])
  {
  }

  /** The dialog's state. */
  class ProfileEditor {
    var displayName: string
    var bio: string
    var status: string
    var avatarFile: Option<File>
    var avatarPreview: Option<string>
    var backgroundFile: Option<File>
    var backgroundPreview: Option<string>
    var uploading: bool
    var uploadProgress: real

    /** The text fields as one value. */
    function Fields(): Form
      reads this
    {
      Form(displayName, bio, status)
    }

    constructor ()
      ensures Fields() == BlankForm
      ensures avatarFile.None? && avatarPreview.None? && backgroundFile.None? && backgroundPreview.None?
      ensures !uploading && uploadProgress == 0.0
    {
      displayName, bio, status := "", "", "online";
      avatarFile, avatarPreview := None, None;
      backgroundFile, backgroundPreview := None, None;
      uploading, uploadProgress := false, 0.0;
    }

    /** The effect on `[userProfile, user]`: the form and, with a profile, the
        two previews are filled from the stored values; picked files stay. */
    method Sync(user: Option<User>, userProfile: Option<UserProfile>)
      modifies this
      ensures Fields() == FormFor(user, userProfile, old(Fields()))
      ensures userProfile.Some? ==>
        && avatarPreview == OrNull(userProfile.value.avatarUrl)
        && backgroundPreview == OrNull(userProfile.value.backgroundUrl)
      ensures userProfile.None? ==> avatarPreview == old(avatarPreview) && backgroundPreview == old(backgroundPreview)
      ensures avatarFile == old(avatarFile) && backgroundFile == old(backgroundFile)
      ensures uploading == old(uploading) && uploadProgress == old(uploadProgress)
    {
      if userProfile.Some? {
        var p := userProfile.value;
        displayName := OrElse(p.displayName, "");
        bio := OrElse(p.bio, "");
        status := OrElse(p.status, "online");
        avatarPreview := OrNull(p.avatarUrl);
        backgroundPreview := OrNull(p.backgroundUrl);
      } else if user.Some? {
        displayName := if user.value.email.None? then "" else BeforeAt(user.value.email.value);
      }
    }

    /** `handleAvatarUpload`: a picked file is checked (at most 10 MiB, then an
        `image/` type); an accepted one becomes the avatar file and its data URL
        the preview; a rejected one changes nothing. */
    method HandleAvatarUpload(file: Option<File>, dataUrl: string) returns (verdict: Option<Verdict>)
      modifies this
      ensures file.None? ==> verdict.None?
      ensures file.Some? ==> verdict == Some(IconCheck(file.value))
      ensures verdict == Some(Accepted) ==> avatarFile == file && avatarPreview == Some(dataUrl)
      ensures verdict != Some(Accepted) ==> avatarFile == old(avatarFile) && avatarPreview == old(avatarPreview)
      ensures Fields() == old(Fields()) && backgroundFile == old(backgroundFile) && backgroundPreview == old(backgroundPreview)
      ensures uploading == old(uploading) && uploadProgress == old(uploadProgress)
    {
      if file.None? { return None; }
      verdict := Some(IconCheck(file.value));
      if verdict == Some(Accepted) {
        avatarFile := file;
        avatarPreview := Some(dataUrl);
      }
    }

    /** `handleBackgroundUpload`: at most 100 MiB, then an `image/` or `video/`
        type; a rejected file changes nothing. */
    method HandleBackgroundUpload(file: Option<File>, dataUrl: string) returns (verdict: Option<Verdict>)
      modifies this
      ensures file.None? ==> verdict.None?
      ensures file.Some? ==> verdict == Some(BackgroundCheck(file.value))
      ensures verdict == Some(Accepted) ==> backgroundFile == file && backgroundPreview == Some(dataUrl)
      ensures verdict != Some(Accepted) ==> backgroundFile == old(backgroundFile) && backgroundPreview == old(backgroundPreview)
      ensures Fields() == old(Fields()) && avatarFile == old(avatarFile) && avatarPreview == old(avatarPreview)
      ensures uploading == old(uploading) && uploadProgress == old(uploadProgress)
    {
      if file.None? { return None; }
      verdict := Some(BackgroundCheck(file.value));
      if verdict == Some(Accepted) {
        backgroundFile := file;
        backgroundPreview := Some(dataUrl);
      }
    }

    /** `removeAvatar`: both the file and its preview are cleared. */
    method RemoveAvatar()
      modifies this
      ensures avatarFile.None? && avatarPreview.None?
      ensures Fields() == old(Fields()) && backgroundFile == old(backgroundFile) && backgroundPreview == old(backgroundPreview)
      ensures uploading == old(uploading) && uploadProgress == old(uploadProgress)
    {
      avatarFile, avatarPreview := None, None;
    }

    /** `removeBackground`: both the file and its preview are cleared. */
    method RemoveBackground()
      modifies this
      ensures backgroundFile.None? && backgroundPreview.None?
      ensures Fields() == old(Fields()) && avatarFile == old(avatarFile) && avatarPreview == old(avatarPreview)
      ensures uploading == old(uploading) && uploadProgress == old(uploadProgress)
    {
      backgroundFile, backgroundPreview := None, None;
    }

    /** `saveProfile`: a blank name stops it before any upload or write.
        Otherwise the chosen avatar and background are uploaded in that order
        and the profile is updated, or created when there is none; `okCalls`
        gateway calls succeed before one throws. `trace` is every value the
        progress bar takes; the save always ends with `uploading` false and the
        bar at 0, and the form is left as it was. */
    method SaveProfile(
      store: Store, user: User, userProfile: Option<UserProfile>, okCalls: nat,
      avatarUploadUrl: string, backgroundUploadUrl: string,
      avatarPercents: seq<real>, backgroundPercents: seq<real>, profileId: string)
      returns (saved: bool, trace: seq<real>)
      modifies this, store
      ensures var paths := UploadPaths(user.id, old(avatarFile), old(backgroundFile));
        saved <==> !IsBlank(old(displayName)) && okCalls > |paths|
      ensures IsBlank(old(displayName)) ==>
        && store.db == old(store.db) && trace == []
        && uploading == old(uploading) && uploadProgress == old(uploadProgress)
      ensures !IsBlank(old(displayName)) ==>
        && store.db == AfterSave(old(store.db), user.id, userProfile, profileId, old(Fields()),
                                 old(avatarFile), old(backgroundFile), okCalls, avatarUploadUrl, backgroundUploadUrl)
        && trace == TwoUploadTrace(old(avatarFile).Some?, old(backgroundFile).Some?, okCalls, avatarPercents, backgroundPercents)
        && !uploading && uploadProgress == 0.0
      ensures Fields() == old(Fields())
      ensures avatarFile == old(avatarFile) && avatarPreview == old(avatarPreview)
      ensures backgroundFile == old(backgroundFile) && backgroundPreview == old(backgroundPreview)
    {
      saved, trace := false, [];
      if IsBlank(displayName) { return; }
      uploading, uploadProgress := true, 0.0;
      saved, trace := UploadAndWrite(store, user.id, userProfile, Fields(), avatarFile, backgroundFile, okCalls,
                                     avatarUploadUrl, backgroundUploadUrl, avatarPercents, backgroundPercents, profileId);
      uploading, uploadProgress := false, 0.0;
      trace := trace + [0.0];
    }
  }
}
