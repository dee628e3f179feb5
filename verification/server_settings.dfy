/** The server settings dialog: the name, description, icon and background of
    one server, editable by its owner only, and the save that uploads the
    chosen images and then updates the server record. */
module ServerSettingsDialog {
  import opened Base
  import opened Text
  import opened Gateway
  import opened Uploads

  /** The text fields of the form. */
  datatype Form = Form(name: string, description: string)

  /** The form after the effect on `server`: the stored name, and the stored
      description or '' when there is none. */
  function FormFor(server: Server): (f: Form)
    ensures f.name == server.name
    ensures server.description.Some? ==> f.description == server.description.value
    ensures server.description.None? ==> f.description == ""
  {
    Form(server.name, OrElse(server.description, ""))
  }

  /** `server.ownerId === user.id`: the gate of every editing control. */
  predicate IsOwner(server: Server, user: User)
    ensures IsOwner(server, user) <==> server.ownerId == user.id
  {
    server.ownerId == user.id
  }

  /** What the dialog lets the user do. */
  datatype Controls = Controls(
    inputsEnabled: bool,       // the name and description fields
    fileButtonsShown: bool,    // upload, change and remove buttons of both images
    fileButtonsEnabled: bool,
    footerShown: bool,         // Cancel and Save Changes
    saveEnabled: bool,
    progressShown: bool)

  /** The rendered controls: nothing without a server; otherwise the text
      fields are locked while saving or for anyone but the owner, the image
      buttons and the footer exist for the owner only, and saving needs a
      non-blank name and no save in progress. */
  function ControlsFor(server: Option<Server>, user: User, uploading: bool, name: string): (c: Option<Controls>)
    ensures c.None? <==> server.None?
    ensures c.Some? ==> (c.value.inputsEnabled <==> IsOwner(server.value, user) && !uploading)
    ensures c.Some? ==> (c.value.fileButtonsShown <==> IsOwner(server.value, user))
    ensures c.Some? ==> (c.value.fileButtonsEnabled <==> !uploading)
    ensures c.Some? ==> (c.value.footerShown <==> IsOwner(server.value, user))
    ensures c.Some? ==> (c.value.saveEnabled <==> !IsBlank(name) && !uploading)
    ensures c.Some? ==> (c.value.progressShown <==> uploading)
  {
    if server.None? then None
    else
      var owner := IsOwner(server.value, user);
      Some(Controls(owner && !uploading, owner, !uploading, owner, !IsBlank(name) && !uploading, uploading))
  }

  /** Only the owner can reach a save: anyone else sees locked fields and
      neither the image buttons nor the save button. */
  lemma OnlyOwnerCanSave(server: Server, user: User, uploading: bool, name: string)
    ensures var c := ControlsFor(Some(server), user, uploading, name).value;
      (c.footerShown && c.saveEnabled) <==> IsOwner(server, user) && !IsBlank(name) && !uploading
    ensures !IsOwner(server, user) ==>
      var c := ControlsFor(Some(server), user, uploading, name).value;
      !c.inputsEnabled && !c.fileButtonsShown && !c.footerShown
  {
  }

  /** Storage path of a new server icon. */
  function IconPath(serverId: string, f: File): (p: string)
    ensures "server-icons/" <= p
  {
    KeyedPath("server-icons/", serverId, f.name)
  }

  /** Storage path of a new server background. */
  function BackgroundPath(serverId: string, f: File): (p: string)
    ensures "server-backgrounds/" <= p
  {
    KeyedPath("server-backgrounds/", serverId, f.name)
  }

  /** The icon's upload path, when a new icon was chosen. */
  function IconSlot(serverId: string, icon: Option<File>): (p: Option<string>)
    ensures p.Some? <==> icon.Some?
  {
    if icon.Some? then Some(IconPath(serverId, icon.value)) else None
  }

  /** The background's upload path, when a new background was chosen. */
  function BackgroundSlot(serverId: string, background: Option<File>): (p: Option<string>)
    ensures p.Some? <==> background.Some?
  {
    if background.Some? then Some(BackgroundPath(serverId, background.value)) else None
  }

  /** The uploads a save makes, in order: the icon, then the background. */
  function UploadPaths(serverId: string, icon: Option<File>, background: Option<File>): (r: seq<string>)
    ensures |r| == UploadCount(icon.Some?, background.Some?)
    ensures icon.Some? ==> r[0] == IconPath(serverId, icon.value)
    ensures background.Some? ==> r[|r| - 1] == BackgroundPath(serverId, background.value)
  {
    Chosen(IconSlot(serverId, icon), BackgroundSlot(serverId, background))
  }

  /** The servers after the save's update: the trimmed name, the trimmed
      description or null when it is blank, and the two image URLs, where an
      image without a new file keeps the server's stored value as it is. */
  function UpdatedServers(
    ss: seq<Server>, server: Server, form: Form, icon: Option<File>, background: Option<File>,
    iconUploadUrl: string, backgroundUploadUrl: string): (r: seq<Server>)
    ensures |r| == |ss|
    ensures forall k :: 0 <= k < |ss| && ss[k].id != server.id ==> r[k] == ss[k]
    ensures forall k :: 0 <= k < |ss| && ss[k].id == server.id ==>
      && r[k].name == Trim(form.name) && r[k].description == NullIfBlank(form.description)
      && r[k].iconUrl == FinalUrl(server.iconUrl, icon, iconUploadUrl)
      && r[k].backgroundUrl == FinalUrl(server.backgroundUrl, background, backgroundUploadUrl)
      && r[k].id == ss[k].id && r[k].ownerId == ss[k].ownerId && r[k].themeColors == ss[k].themeColors
  {
    WithServerFields(ss, server.id, Trim(form.name), NullIfBlank(form.description),
      FinalUrl(server.iconUrl, icon, iconUploadUrl), FinalUrl(server.backgroundUrl, background, backgroundUploadUrl))
  }

  /** The stored data after the gateway calls of a save with a non-blank
      name: the blobs of the uploads that succeeded and, when every call
      succeeded, the updated server. */
  function AfterSave(
    db: Db, server: Server, form: Form, icon: Option<File>, background: Option<File>, okCalls: nat,
    iconUploadUrl: string, backgroundUploadUrl: string): (r: Db)
    ensures r.members == db.members && r.channels == db.channels && r.profiles == db.profiles
    ensures r.messages == db.messages && r.directMessages == db.directMessages && r.friends == db.friends
    ensures db.blobs <= r.blobs && |r.blobs| <= |db.blobs| + 2
    ensures okCalls <= |UploadPaths(server.id, icon, background)| ==> r.servers == db.servers
  {
    db.(blobs := db.blobs + FirstN(UploadPaths(server.id, icon, background), okCalls),
        servers := if okCalls > |UploadPaths(server.id, icon, background)|
          then UpdatedServers(db.servers, server, form, icon, background, iconUploadUrl, backgroundUploadUrl)
          else db.servers)
  }

  /** Opening the dialog and saving without edits leaves every server as it
      was, provided the stored name is already trimmed and the stored
      description is absent or trimmed and non-empty. */
  lemma UneditedSaveKeepsServers(ss: seq<Server>, server: Server)
    requires Trim(server.name) == server.name && server.name != []
    requires server.description.None? || (server.description.value != [] && Trim(server.description.value) == server.description.value)
    requires forall k :: 0 <= k < |ss| && ss[k].id == server.id ==> ss[k] == server
    ensures UpdatedServers(ss, server, FormFor(server), None, None, "", "") == ss
  {
    var form := FormFor(server);
    UneditedFormStoresItself(server);
    var r := UpdatedServers(ss, server, form, None, None, "", "");
    forall k | 0 <= k < |ss|
      ensures r[k] == ss[k]
    {
    }
    assert r == ss;
  }

  /** The form of an opened dialog, trimmed and nulled as a save does, gives
      back the stored name and description when those are already trimmed. */
  lemma UneditedFormStoresItself(server: Server)
    requires Trim(server.name) == server.name
    requires server.description.None? || (server.description.value != [] && Trim(server.description.value) == server.description.value)
    ensures Trim(FormFor(server).name) == server.name
    ensures NullIfBlank(FormFor(server).description) == server.description
  {
    if server.description.None? {
      assert FormFor(server).description == "";
    }
  }

  /** The gateway calls of a save with a non-blank name: the chosen icon and
      background are uploaded in that order, then the server is updated.
      `okCalls` calls succeed before one throws. `run` is every value the
      progress bar takes until the final reset. */
  method UploadAndUpdate(
    store: Store, server: Server, form: Form, icon: Option<File>, background: Option<File>, okCalls: nat,
    iconUploadUrl: string, backgroundUploadUrl: string, iconPercents: seq<real>, backgroundPercents: seq<real>)
    returns (saved: bool, run: seq<real>)
    modifies store
    ensures saved <==> okCalls > |UploadPaths(server.id, icon, background)|
    ensures store.db == AfterSave(old(store.db), server, form, icon, background, okCalls, iconUploadUrl, backgroundUploadUrl)
    ensures run == SaveRun(icon.Some?, background.Some?, okCalls, iconPercents, backgroundPercents)
  {
    var paths := UploadPaths(server.id, icon, background);
    assert paths == Chosen(IconSlot(server.id, icon), BackgroundSlot(server.id, background));
    var done, closing;
    done, run := UploadInOrder(store, IconSlot(server.id, icon), BackgroundSlot(server.id, background),
                               okCalls, iconPercents, backgroundPercents);
    saved, closing := UpdateAfterUploads(store, server, form, icon, background, done, okCalls,
                                         iconUploadUrl, backgroundUploadUrl);
    run := run + closing;
  }

  /** What follows the uploads: once they are all done the bar shows 90 and
      the server is updated, after which it shows 100. */
  method UpdateAfterUploads(
    store: Store, server: Server, form: Form, icon: Option<File>, background: Option<File>,
    done: bool, okCalls: nat, iconUploadUrl: string, backgroundUploadUrl: string)
    returns (saved: bool, closing: seq<real>)
    requires done <==> okCalls >= UploadCount(icon.Some?, background.Some?)
    modifies store
    ensures saved <==> okCalls > UploadCount(icon.Some?, background.Some?)
    ensures store.db == old(store.db).(servers := if saved
      then UpdatedServers(old(store.db.servers), server, form, icon, background, iconUploadUrl, backgroundUploadUrl)
      else old(store.db.servers))
    ensures closing == Closing(icon.Some?, background.Some?, okCalls)
  {
    saved, closing := false, [];
    if done {
      closing := [90.0];
      if okCalls > UploadCount(icon.Some?, background.Some?) {
        store.UpdateServer(server.id, Trim(form.name), NullIfBlank(form.description),
                           FinalUrl(server.iconUrl, icon, iconUploadUrl),
                           FinalUrl(server.backgroundUrl, background, backgroundUploadUrl));
        closing := closing + [100.0];
        saved := true;
      }
    }
  }

  /** Removing the stored icon and saving does not remove it: the remove
      button clears the preview, but a save without a new file writes the
      server's stored URL back. */
  lemma RemovedIconComesBack(ss: seq<Server>, server: Server, form: Form, k: nat)
    requires k < |ss| && ss[k].id == server.id && Truthy(server.iconUrl)
    ensures UpdatedServers(ss, server, form, None, None, "", "")[k].iconUrl == server.iconUrl
    ensures UpdatedServers(ss, server, form, None, None, "", "")[k].iconUrl != None
  {
  }

  /** The dialog's state. */
  class SettingsEditor {
    var name: string
    var description: string
    var iconFile: Option<File>
    var iconPreview: Option<string>
    var backgroundFile: Option<File>
    var backgroundPreview: Option<string>
    var uploading: bool
    var uploadProgress: real

    /** The text fields as one value. */
    function Fields(): Form
      reads this
    {
      Form(name, description)
    }

    constructor ()
      ensures Fields() == Form("", "")
      ensures iconFile.None? && iconPreview.None? && backgroundFile.None? && backgroundPreview.None?
      ensures !uploading && uploadProgress == 0.0
    {
      name, description := "", "";
      iconFile, iconPreview := None, None;
      backgroundFile, backgroundPreview := None, None;
      uploading, uploadProgress := false, 0.0;
    }

    /** The effect on `[server]`: with a server, the form and the two previews
        are filled from its stored values; picked files stay. */
    method Sync(server: Option<Server>)
      modifies this
      ensures server.Some? ==> Fields() == FormFor(server.value)
      ensures server.Some? ==>
        && iconPreview == OrNull(server.value.iconUrl)
        && backgroundPreview == OrNull(server.value.backgroundUrl)
      ensures server.None? ==> Fields() == old(Fields()) && iconPreview == old(iconPreview) && backgroundPreview == old(backgroundPreview)
      ensures iconFile == old(iconFile) && backgroundFile == old(backgroundFile)
      ensures uploading == old(uploading) && uploadProgress == old(uploadProgress)
    {
      if server.Some? {
        var s := server.value;
        name := s.name;
        description := OrElse(s.description, "");
        iconPreview := OrNull(s.iconUrl);
        backgroundPreview := OrNull(s.backgroundUrl);
      }
    }

    /** `handleIconUpload`: a picked file is checked (at most 10 MiB, then an
        `image/` type); an accepted one becomes the icon file and its data URL
        the preview; a rejected one changes nothing. */
    method HandleIconUpload(file: Option<File>, dataUrl: string) returns (verdict: Option<Verdict>)
      modifies this
      ensures file.None? ==> verdict.None?
      ensures file.Some? ==> verdict == Some(IconCheck(file.value))
      ensures verdict == Some(Accepted) ==> iconFile == file && iconPreview == Some(dataUrl)
      ensures verdict != Some(Accepted) ==> iconFile == old(iconFile) && iconPreview == old(iconPreview)
      ensures Fields() == old(Fields()) && backgroundFile == old(backgroundFile) && backgroundPreview == old(backgroundPreview)
      ensures uploading == old(uploading) && uploadProgress == old(uploadProgress)
    {
      if file.None? { return None; }
      verdict := Some(IconCheck(file.value));
      if verdict == Some(Accepted) {
        iconFile := file;
        iconPreview := Some(dataUrl);
      }
    }

    /** `handleBackgroundUpload`: at most 100 MiB, then an `image/` or `video/`
        type; a rejected file changes nothing. */
    method HandleBackgroundUpload(file: Option<File>, dataUrl: string) returns (verdict: Option<Verdict>)
      modifies this
      ensures file.None? ==> verdict.None?
      ensures file.Some? ==> verdict == Some(BackgroundCheck(file.value))
      ensures verdict == Some(Accepted) ==> backgroundFile == file && backgroundPreview == Some(dataUrl)
      ensures verdict != Some(Accepted) ==> backgroundFile == old(backgroundFile) && backgroundPreview == old(backgroundPreview)
      ensures Fields() == old(Fields()) && iconFile == old(iconFile) && iconPreview == old(iconPreview)
      ensures uploading == old(uploading) && uploadProgress == old(uploadProgress)
    {
      if file.None? { return None; }
      verdict := Some(BackgroundCheck(file.value));
      if verdict == Some(Accepted) {
        backgroundFile := file;
        backgroundPreview := Some(dataUrl);
      }
    }

    /** `removeIcon`: both the file and its preview are cleared. */
    method RemoveIcon()
      modifies this
      ensures iconFile.None? && iconPreview.None?
      ensures Fields() == old(Fields()) && backgroundFile == old(backgroundFile) && backgroundPreview == old(backgroundPreview)
      ensures uploading == old(uploading) && uploadProgress == old(uploadProgress)
    {
      iconFile, iconPreview := None, None;
    }

    /** `removeBackground`: both the file and its preview are cleared. */
    method RemoveBackground()
      modifies this
      ensures backgroundFile.None? && backgroundPreview.None?
      ensures Fields() == old(Fields()) && iconFile == old(iconFile) && iconPreview == old(iconPreview)
      ensures uploading == old(uploading) && uploadProgress == old(uploadProgress)
    {
      backgroundFile, backgroundPreview := None, None;
    }

    /** `saveSettings`: a blank name stops it before any upload or write.
        Otherwise the chosen icon and background are uploaded in that order and
        the server is updated; `okCalls` gateway calls succeed before one
        throws. The save itself does not check ownership. `trace` is every
        value the progress bar takes; the save always ends with `uploading`
        false and the bar at 0, and the form is left as it was. */
    method SaveSettings(
      store: Store, server: Server, okCalls: nat, iconUploadUrl: string, backgroundUploadUrl: string,
      iconPercents: seq<real>, backgroundPercents: seq<real>)
      returns (saved: bool, trace: seq<real>)
      modifies this, store
      ensures saved <==> !IsBlank(old(name)) && okCalls > |UploadPaths(server.id, old(iconFile), old(backgroundFile))|
      ensures IsBlank(old(name)) ==>
        && store.db == old(store.db) && trace == []
        && uploading == old(uploading) && uploadProgress == old(uploadProgress)
      ensures !IsBlank(old(name)) ==>
        && store.db == AfterSave(old(store.db), server, old(Fields()), old(iconFile), old(backgroundFile), okCalls,
                                 iconUploadUrl, backgroundUploadUrl)
        && trace == TwoUploadTrace(old(iconFile).Some?, old(backgroundFile).Some?, okCalls, iconPercents, backgroundPercents)
        && !uploading && uploadProgress == 0.0
      ensures Fields() == old(Fields())
      ensures iconFile == old(iconFile) && iconPreview == old(iconPreview)
      ensures backgroundFile == old(backgroundFile) && backgroundPreview == old(backgroundPreview)
    {
      saved, trace := false, [];
      if IsBlank(name) { return; }
      uploading, uploadProgress := true, 0.0;
      saved, trace := UploadAndUpdate(store, server, Fields(), iconFile, backgroundFile, okCalls,
                                      iconUploadUrl, backgroundUploadUrl, iconPercents, backgroundPercents);
      uploading, uploadProgress := false, 0.0;
      trace := trace + [0.0];
    }
  }
}
