/** The create-server dialog: a name, a description and an optional icon,
    and the creation that uploads the icon and then writes the server, the
    creator's owner membership and the two default channels. */
module CreateServerDialog {
  import opened Base
  import opened Text
  import opened Gateway
  import opened Uploads
  import ThemeCustomizer
  import VoxenLayout
  import ChannelSidebar
  import ServerSettingsDialog

  /** The text fields of the form. */
  datatype Form = Form(name: string, description: string)

  /** Storage path of the icon; `stamp` is the clock reading taken for it. */
  function IconPath(stamp: string, f: File): (p: string)
    ensures "server-icons/" <= p
  {
    KeyedPath("server-icons/", stamp, f.name)
  }

  /** The gateway calls made before the server record: one for an icon. */
  function IconCalls(icon: Option<File>): (n: nat)
    ensures n == UploadCount(icon.Some?, false)
    ensures n <= 1 && (n == 1 <==> icon.Some?)
  {
    if icon.Some? then 1 else 0
  }

  /** The server record a creation writes: the trimmed name, the trimmed
      description or null when it is blank, the icon's URL if any, no
      background, the creator as owner and the default theme. */
  function NewServer(id: string, form: Form, iconUrl: Option<string>, ownerId: string): Server {
    Server(id, Trim(form.name), NullIfBlank(form.description), iconUrl, None, ownerId,
      Some(ThemeCustomizer.Serialize(ThemeCustomizer.DefaultPalette)))
  }

  /** The new server's name never has surrounding spaces and is never empty
      for a non-blank input; its description is absent exactly when the input
      is blank. */
  lemma NewServerFields(id: string, form: Form, iconUrl: Option<string>, ownerId: string)
    ensures var s := NewServer(id, form, iconUrl, ownerId);
      && s.id == id && s.ownerId == ownerId && s.iconUrl == iconUrl && s.backgroundUrl.None?
      && (s.name == [] <==> IsBlank(form.name))
      && (s.name != [] ==> !IsSpace(s.name[0]) && !IsSpace(s.name[|s.name| - 1]))
      && (s.description.None? <==> IsBlank(form.description))
  {
    var s := NewServer(id, form, iconUrl, ownerId);
    var n := Trim(form.name);
    assert s.name == n;
  }

  /** The stored theme of a new server reads back as the default palette. */
  lemma NewServerTheme(id: string, form: Form, iconUrl: Option<string>, ownerId: string)
    ensures ThemeCustomizer.Fill(NewServer(id, form, iconUrl, ownerId).themeColors.value) == ThemeCustomizer.DefaultPalette
  {
  }

  /** Filled in with the first-login defaults and no icon, the dialog writes
      exactly the server the layout creates for a new user. */
  lemma SameAsFirstServer(id: string, ownerId: string)
    ensures NewServer(id, Form("My First Server", "Welcome to Voxen!"), None, ownerId)
      == VoxenLayout.DefaultServer(id, ownerId)
  {
    assert !IsSpace("My First Server"[0]) && !IsSpace("My First Server"[|"My First Server"| - 1]);
    assert !IsSpace("Welcome to Voxen!"[0]) && !IsSpace("Welcome to Voxen!"[|"Welcome to Voxen!"| - 1]);
    assert Trim("My First Server") == "My First Server";
    assert Trim("Welcome to Voxen!") == "Welcome to Voxen!";
  }

  /** The server's creator, on either creation path, is the one user the
      settings dialog treats as its owner. */
  lemma CreatorOwnsServer(id: string, form: Form, iconUrl: Option<string>, creator: User, user: User)
    ensures ServerSettingsDialog.IsOwner(NewServer(id, form, iconUrl, creator.id), user) <==> user.id == creator.id
    ensures ServerSettingsDialog.IsOwner(VoxenLayout.DefaultServer(id, creator.id), user) <==> user.id == creator.id
  {
  }

  /** The bar values of the icon upload: the jump to 25, then its progress. */
  function IconSegment(icon: bool, ps: seq<real>): (r: seq<real>)
    ensures Percentages(ps) ==> Within(r, 25.0, 75.0)
    ensures icon ==> r == [25.0] + CreateIconPhase(ps)
    ensures !icon ==> r == []
  {
    if icon then [25.0] + CreateIconPhase(ps) else []
  }

  /** 75 once the icon (if any) is stored, then 100 once all four records are. */
  function CreateClosing(icon: bool, okCalls: nat): (r: seq<real>)
    ensures Within(r, 75.0, 100.0)
    ensures 100.0 in r <==> okCalls >= UploadCount(icon, false) + 4
    ensures okCalls >= UploadCount(icon, false) + 4 ==> r == [75.0, 100.0]
    ensures UploadCount(icon, false) <= okCalls < UploadCount(icon, false) + 4 ==> r == [75.0]
    ensures okCalls < UploadCount(icon, false) ==> r == []
  {
    (if okCalls >= UploadCount(icon, false) then [75.0] else [])
      + (if okCalls >= UploadCount(icon, false) + 4 then [100.0] else [])
  }

  /** The bar values of a creation up to, not including, the final reset: 0
      when it starts; 25 and the icon upload's values; 75 once the icon is
      stored; 100 once the server, membership and both channels are. */
  function CreateRun(icon: bool, okCalls: nat, ps: seq<real>): (r: seq<real>)
    ensures r != [] && r[0] == 0.0
    ensures okCalls >= UploadCount(icon, false) + 4 ==> r[|r| - 1] == 100.0
  {
    [0.0] + IconSegment(icon, ps) + CreateClosing(icon, okCalls)
  }

  /** Every value the bar takes during a creation: the run, then the reset to
      0 that ends every creation, however it ends. */
  function CreateTrace(icon: bool, okCalls: nat, ps: seq<real>): (r: seq<real>)
    ensures |r| >= 2 && r[0] == 0.0 && r[|r| - 1] == 0.0
  {
    CreateRun(icon, okCalls, ps) + [0.0]
  }

  /** While the gateway reports percentages in [0, 100], the bar never leaves
      [0, 100], and it reaches 100 exactly when every record is written. */
  lemma CreateRunInBar(icon: bool, okCalls: nat, ps: seq<real>)
    requires Percentages(ps)
    ensures InBar(CreateRun(icon, okCalls, ps))
    ensures 100.0 in CreateRun(icon, okCalls, ps) <==> okCalls >= UploadCount(icon, false) + 4
  {
    var o, m, c := [0.0], IconSegment(icon, ps), CreateClosing(icon, okCalls);
    WithinWiden(m, 25.0, 75.0, 0.0, 100.0);
    WithinJoin(o, m, 0.0, 100.0);
    WithinWiden(c, 75.0, 100.0, 0.0, 100.0);
    WithinJoin(o + m, c, 0.0, 100.0);
    assert 100.0 !in o + m;
  }

  /** Every creation starts and ends with an empty bar and, while the
      gateway reports percentages in [0, 100], never leaves [0, 100]. */
  lemma CreateTraceInBar(icon: bool, okCalls: nat, ps: seq<real>)
    requires Percentages(ps)
    ensures var t := CreateTrace(icon, okCalls, ps);
      |t| >= 2 && t[0] == 0.0 && t[|t| - 1] == 0.0 && InBar(t)
  {
    CreateRunInBar(icon, okCalls, ps);
    WithinJoin(CreateRun(icon, okCalls, ps), [0.0], 0.0, 100.0);
  }

  /** The opening of a creation rises and stays at or below 75. */
  lemma OpeningRises(icon: bool, ps: seq<real>)
    requires Percentages(ps) && Rising(ps)
    ensures Rising([0.0] + IconSegment(icon, ps)) && Within([0.0] + IconSegment(icon, ps), 0.0, 75.0)
  {
    var m := IconSegment(icon, ps);
    if icon {
      PhasesRise(ps);
      RisingJoin([25.0], CreateIconPhase(ps), 25.0);
    }
    RisingJoin([0.0], m, 25.0);
    WithinWiden(m, 25.0, 75.0, 0.0, 75.0);
    WithinJoin([0.0], m, 0.0, 75.0);
  }

  /** While the gateway reports rising percentages, the bar only moves
      forward until the final reset. */
  lemma CreateRunRises(icon: bool, okCalls: nat, ps: seq<real>)
    requires Percentages(ps) && Rising(ps)
    ensures Rising(CreateRun(icon, okCalls, ps))
  {
    var o, c := [0.0] + IconSegment(icon, ps), CreateClosing(icon, okCalls);
    OpeningRises(icon, ps);
    assert Rising(c);
    RisingJoin(o, c, 75.0);
  }

  /** The stored data after the icon step: the icon's blob is added when one
      was chosen and its upload succeeds. */
  function AfterIcon(db: Db, icon: Option<File>, okCalls: nat, stamp: string): (r: Db)
    ensures r == db.(blobs := r.blobs) && db.blobs <= r.blobs && |r.blobs| <= |db.blobs| + 1
    ensures icon.None? || okCalls == 0 ==> r == db
  {
    db.(blobs := db.blobs + (if icon.Some? && okCalls >= 1 then [IconPath(stamp, icon.value)] else []))
  }

  /** The stored data after the gateway calls of a creation with a non-blank
      name: the icon's blob once its upload succeeds, then, when the icon (if
      any) is stored, the first of the four creates that succeed. */
  function AfterCreate(
    db: Db, userId: string, form: Form, icon: Option<File>, okCalls: nat, stamp: string, iconUploadUrl: string,
    serverId: string, memberId: string, generalId: string, voiceId: string): (r: Db)
    ensures okCalls == 0 ==> r == db
    ensures db.servers <= r.servers && |r.servers| <= |db.servers| + 1
    ensures r.profiles == db.profiles && r.messages == db.messages && r.friends == db.friends
  {
    var afterIcon := AfterIcon(db, icon, okCalls, stamp);
    if okCalls >= IconCalls(icon) then
      SeededUpTo(afterIcon, NewServer(serverId, form, FinalUrl(None, icon, iconUploadUrl), userId),
                 userId, memberId, generalId, voiceId, okCalls - IconCalls(icon))
    else afterIcon
  }

  /** The records a creation that succeeds adds: the server, the owner
      membership and the two channels, after everything already stored. */
  lemma CreatedRecords(
    db: Db, userId: string, form: Form, icon: Option<File>, okCalls: nat, stamp: string, iconUploadUrl: string,
    serverId: string, memberId: string, generalId: string, voiceId: string)
    requires okCalls >= IconCalls(icon) + 4
    ensures var after := AfterCreate(db, userId, form, icon, okCalls, stamp, iconUploadUrl, serverId, memberId, generalId, voiceId);
      && after.servers == db.servers + [NewServer(serverId, form, FinalUrl(None, icon, iconUploadUrl), userId)]
      && after.members == db.members + [OwnerMembership(memberId, serverId, userId)]
      && after.channels == db.channels + [GeneralChannel(generalId, serverId), GeneralVoiceChannel(voiceId, serverId)]
  {
  }

  /** The sidebar of a server holding only the two default channels. */
  lemma DefaultSections(serverId: string, generalId: string, voiceId: string)
    ensures var g, v := GeneralChannel(generalId, serverId), GeneralVoiceChannel(voiceId, serverId);
      ChannelSidebar.ChannelsOfKind([g, v], "text") == [g] && ChannelSidebar.ChannelsOfKind([g, v], "voice") == [v]
  {
    var g, v := GeneralChannel(generalId, serverId), GeneralVoiceChannel(voiceId, serverId);
    assert [g, v] == [g] + [v];
    ChannelSidebar.SectionsKeepOrder([g], [v], "text");
    ChannelSidebar.SectionsKeepOrder([g], [v], "voice");
    assert ChannelSidebar.ChannelsOfKind([v], "text") == [] && ChannelSidebar.ChannelsOfKind([g], "voice") == [];
  }

  /** After a creation that succeeds, the new server is listed for its
      creator, its only channels are 'general' in the text section and
      'General Voice' in the voice section, and the creator's membership in it
      is the owner's. */
  lemma CreatedServerIsUsable(
    db: Db, userId: string, form: Form, icon: Option<File>, okCalls: nat, stamp: string, iconUploadUrl: string,
    serverId: string, memberId: string, generalId: string, voiceId: string)
    requires okCalls >= IconCalls(icon) + 4
    requires forall c :: c in db.channels ==> c.serverId != serverId
    ensures var after := AfterCreate(db, userId, form, icon, okCalls, stamp, iconUploadUrl, serverId, memberId, generalId, voiceId);
      var s := NewServer(serverId, form, FinalUrl(None, icon, iconUploadUrl), userId);
      && s in VoxenLayout.JoinedServers(after.servers, after.members, userId)
      && ChannelSidebar.ChannelsOfKind(VoxenLayout.ChannelsOf(after.channels, serverId), "text") == [GeneralChannel(generalId, serverId)]
      && ChannelSidebar.ChannelsOfKind(VoxenLayout.ChannelsOf(after.channels, serverId), "voice") == [GeneralVoiceChannel(voiceId, serverId)]
      && OwnerMembership(memberId, serverId, userId) in after.members
  {
    var after := AfterCreate(db, userId, form, icon, okCalls, stamp, iconUploadUrl, serverId, memberId, generalId, voiceId);
    CreatedRecords(db, userId, form, icon, okCalls, stamp, iconUploadUrl, serverId, memberId, generalId, voiceId);
    var m := OwnerMembership(memberId, serverId, userId);
    assert m in after.members;
    VoxenLayout.BootstrapChannels(db.channels, serverId, generalId, voiceId);
    DefaultSections(serverId, generalId, voiceId);
  }

  /** A creation whose membership create fails leaves the server record
      behind, yet the creator's server list does not show it. */
  lemma OrphanServerIsHidden(
    db: Db, userId: string, form: Form, icon: Option<File>, stamp: string, iconUploadUrl: string,
    serverId: string, memberId: string, generalId: string, voiceId: string)
    requires forall m :: m in db.members ==> m.serverId != serverId
    ensures var after := AfterCreate(db, userId, form, icon, IconCalls(icon) + 1, stamp, iconUploadUrl, serverId, memberId, generalId, voiceId);
      var s := NewServer(serverId, form, FinalUrl(None, icon, iconUploadUrl), userId);
      s in after.servers && s !in VoxenLayout.JoinedServers(after.servers, after.members, userId)
  {
  }

  /** The icon step of a creation: the chosen icon, if any, is uploaded.
      `stored` says whether the step got through; the server then records
      the uploaded URL, or none without an icon. */
  method UploadIcon(store: Store, icon: Option<File>, okCalls: nat, stamp: string, iconUploadUrl: string)
    returns (stored: bool, iconUrl: Option<string>)
    modifies store
    ensures stored <==> okCalls >= IconCalls(icon)
    ensures store.db == AfterIcon(old(store.db), icon, okCalls, stamp)
    ensures iconUrl == FinalUrl(None, icon, iconUploadUrl)
  {
    iconUrl := None;
    stored := true;
    if icon.Some? {
      iconUrl := Some(iconUploadUrl);
      if okCalls == 0 {
        stored := false;
        return;
      }
      store.Upload(IconPath(stamp, icon.value));
    }
  }

  /** The writes of a creation with a non-blank name: the icon upload when
      an icon was chosen, then the four creates. `okCalls` calls succeed
      before one throws. */
  method CreateRecords(
    store: Store, userId: string, form: Form, icon: Option<File>, okCalls: nat, stamp: string, iconUploadUrl: string,
    serverId: string, memberId: string, generalId: string, voiceId: string)
    returns (stored: bool, created: bool)
    modifies store
    ensures stored <==> okCalls >= IconCalls(icon)
    ensures created <==> okCalls >= IconCalls(icon) + 4
    ensures store.db == AfterCreate(old(store.db), userId, form, icon, okCalls, stamp, iconUploadUrl,
                                    serverId, memberId, generalId, voiceId)
  {
    var iconUrl;
    created := false;
    stored, iconUrl := UploadIcon(store, icon, okCalls, stamp, iconUploadUrl);
    AfterCreateSteps(old(store.db), userId, form, icon, okCalls, stamp, iconUploadUrl, serverId, memberId, generalId, voiceId);
    if stored {
      var server := NewServer(serverId, form, iconUrl, userId);
      created := SeedServer(store, server, userId, memberId, generalId, voiceId, okCalls - IconCalls(icon));
    }
  }

  /** `AfterCreate` as the two steps that produce it. */
  lemma AfterCreateSteps(
    db: Db, userId: string, form: Form, icon: Option<File>, okCalls: nat, stamp: string, iconUploadUrl: string,
    serverId: string, memberId: string, generalId: string, voiceId: string)
    ensures var afterIcon := AfterIcon(db, icon, okCalls, stamp);
      AfterCreate(db, userId, form, icon, okCalls, stamp, iconUploadUrl, serverId, memberId, generalId, voiceId)
      == if okCalls >= IconCalls(icon)
         then SeededUpTo(afterIcon, NewServer(serverId, form, FinalUrl(None, icon, iconUploadUrl), userId),
                         userId, memberId, generalId, voiceId, okCalls - IconCalls(icon))
         else afterIcon
  {
  }

  /** A creation with a non-blank name: its writes, and `run`, every value
      the progress bar takes until the final reset. */
  method UploadAndCreate(
    store: Store, userId: string, form: Form, icon: Option<File>, okCalls: nat, stamp: string,
    iconUploadUrl: string, iconPercents: seq<real>,
    serverId: string, memberId: string, generalId: string, voiceId: string)
    returns (created: bool, run: seq<real>)
    modifies store
    ensures created <==> okCalls >= IconCalls(icon) + 4
    ensures store.db == AfterCreate(old(store.db), userId, form, icon, okCalls, stamp, iconUploadUrl,
                                    serverId, memberId, generalId, voiceId)
    ensures run == CreateRun(icon.Some?, okCalls, iconPercents)
  {
    run := [0.0];
    if icon.Some? {
      run := run + [25.0] + CreateIconPhase(iconPercents);
    }
    assert run == [0.0] + IconSegment(icon.Some?, iconPercents);
    var stored;
    stored, created := CreateRecords(store, userId, form, icon, okCalls, stamp, iconUploadUrl,
                                     serverId, memberId, generalId, voiceId);
    var closing := (if stored then [75.0] else []) + (if created then [100.0] else []);
    assert closing == CreateClosing(icon.Some?, okCalls);
    run := run + closing;
  }

  /** The dialog's state. */
  class ServerCreator {
    var name: string
    var description: string
    var iconFile: Option<File>
    var iconPreview: Option<string>
    var uploading: bool
    var uploadProgress: real

    /** The text fields as one value. */
    function Fields(): Form
      reads this
    {
      Form(name, description)
    }

    constructor ()
      ensures Fields() == Form("", "") && iconFile.None? && iconPreview.None?
      ensures !uploading && uploadProgress == 0.0
    {
      name, description := "", "";
      iconFile, iconPreview := None, None;
      uploading, uploadProgress := false, 0.0;
    }

    /** `handleIconUpload`: a picked file is checked (at most 10 MiB, then an
        `image/` type); an accepted one becomes the icon file and its data URL
        the preview; a rejected one changes nothing. */
    method HandleIconUpload(file: Option<File>, dataUrl: string) returns (verdict: Option<Verdict>)
      modifies this
      ensures file.None? ==> verdict.None?
      ensures file.Some? ==> verdict == Some(IconCheck(file.value))
      ensures verdict == Some(Accepted) ==> iconFile == file && iconPreview == Some(dataUrl)
      ensures verdict != Some(Accepted) ==> iconFile == old(iconFile) && iconPreview == old(iconPreview)
      ensures Fields() == old(Fields()) && uploading == old(uploading) && uploadProgress == old(uploadProgress)
    {
      if file.None? { return None; }
      verdict := Some(IconCheck(file.value));
      if verdict == Some(Accepted) {
        iconFile := file;
        iconPreview := Some(dataUrl);
      }
    }

    /** `removeIcon`: both the file and its preview are cleared. */
    method RemoveIcon()
      modifies this
      ensures iconFile.None? && iconPreview.None?
      ensures Fields() == old(Fields()) && uploading == old(uploading) && uploadProgress == old(uploadProgress)
    {
      iconFile, iconPreview := None, None;
    }

    /** The end of a creation: a successful one resets the form and the
        icon; every one turns `uploading` off and the bar back to 0. */
    method Finish(created: bool)
      modifies this
      ensures created ==> name == "" && description == "" && iconFile.None? && iconPreview.None?
      ensures !created ==> name == old(name) && description == old(description)
      ensures !created ==> iconFile == old(iconFile) && iconPreview == old(iconPreview)
      ensures !uploading && uploadProgress == 0.0
    {
      if created {
        name, description, iconFile, iconPreview := "", "", None, None;
      }
      uploading, uploadProgress := false, 0.0;
    }

    /** The part of `createServer` after the name check: the uploads and
        writes, then the reset. */
    method CreateNamed(
      store: Store, user: User, okCalls: nat, stamp: string, iconUploadUrl: string, iconPercents: seq<real>,
      serverId: string, memberId: string, generalId: string, voiceId: string)
      returns (created: bool, trace: seq<real>)
      modifies this, store
      ensures created <==> okCalls >= IconCalls(old(iconFile)) + 4
      ensures store.db == AfterCreate(old(store.db), user.id, Form(old(name), old(description)), old(iconFile), okCalls, stamp, iconUploadUrl,
                                      serverId, memberId, generalId, voiceId)
      ensures trace == CreateTrace(old(iconFile).Some?, okCalls, iconPercents)
      ensures !uploading && uploadProgress == 0.0
      ensures created ==> name == "" && description == "" && iconFile.None? && iconPreview.None?
      ensures !created ==> name == old(name) && description == old(description)
      ensures !created ==> iconFile == old(iconFile) && iconPreview == old(iconPreview)
    {
      var form, icon := Form(name, description), iconFile;
      uploading, uploadProgress := true, 0.0;
      created, trace := UploadAndCreate(store, user.id, form, icon, okCalls, stamp, iconUploadUrl, iconPercents,
                                        serverId, memberId, generalId, voiceId);
      assert name == old(name) && description == old(description);
      assert iconFile == old(iconFile) && iconPreview == old(iconPreview);
      Finish(created);
      trace := trace + [0.0];
    }

    /** `createServer`: a blank name stops it before any upload or write.
        Otherwise the chosen icon is uploaded and the server, the creator's
        owner membership and the channels 'general' and 'General Voice' are
        created in that order; `okCalls` gateway calls succeed before one
        throws, and records written before the throw stay. The clock readings
        used for the icon path and the record ids are the parameters `stamp`,
        `serverId`, `memberId`, `generalId` and `voiceId`. A creation that
        succeeds clears the form and the icon; `trace` is every value the
        progress bar takes, and the creation always ends with `uploading`
        false and the bar at 0. */
    method CreateServer(
      store: Store, user: User, okCalls: nat, stamp: string, iconUploadUrl: string, iconPercents: seq<real>,
      serverId: string, memberId: string, generalId: string, voiceId: string)
      returns (created: bool, trace: seq<real>)
      modifies this, store
      ensures created <==> !IsBlank(old(name)) && okCalls >= IconCalls(old(iconFile)) + 4
      ensures IsBlank(old(name)) ==>
        && store.db == old(store.db) && trace == []
        && uploading == old(uploading) && uploadProgress == old(uploadProgress)
      ensures !IsBlank(old(name)) ==>
        && store.db == AfterCreate(old(store.db), user.id, old(Fields()), old(iconFile), okCalls, stamp, iconUploadUrl,
                                   serverId, memberId, generalId, voiceId)
        && trace == CreateTrace(old(iconFile).Some?, okCalls, iconPercents)
        && !uploading && uploadProgress == 0.0
      ensures created ==> name == "" && description == "" && iconFile.None? && iconPreview.None?
      ensures !created ==> name == old(name) && description == old(description)
      ensures !created ==> iconFile == old(iconFile) && iconPreview == old(iconPreview)
    {
      created, trace := false, [];
      if IsBlank(name) { return; }
      created, trace := CreateNamed(store, user, okCalls, stamp, iconUploadUrl, iconPercents, serverId, memberId, generalId, voiceId);
    }
  }
}
