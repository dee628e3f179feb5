/** The hosted data gateway the components talk to, modelled as an in-memory
    record store: one sequence per collection, in creation order, plus the
    paths of the blobs uploaded to storage. `list` queries are filters over
    these sequences; `create` appends, `update` patches the records with the
    given id and `delete` removes them. */
module Gateway {
  import opened Base

  /** A theme as serialised into `themeColors`; a field may be missing. */
  datatype StoredTheme = StoredTheme(primary: Option<string>, accent: Option<string>, background: Option<string>)

  /** The signed-in user as the auth service reports it. */
  datatype User = User(id: string, email: Option<string>, displayName: Option<string>, avatar: Option<string>)

  /** A file picked in a browser file input. */
  datatype File = File(name: string, size: nat, mime: string)

  datatype Server = Server(
    id: string, name: string, description: Option<string>, iconUrl: Option<string>,
    backgroundUrl: Option<string>, ownerId: string, themeColors: Option<StoredTheme>)

  datatype ServerMember = ServerMember(id: string, serverId: string, userId: string, role: Option<string>)

  /** `kind` is the record's `type` field ('text', 'voice' or anything else). */
  datatype Channel = Channel(id: string, serverId: string, name: string, kind: string, position: int)

  /** The `fileType` of a channel attachment: 'image', 'video' or 'file'. */
  datatype FileKind = ImageFile | VideoFile | PlainFile

  datatype Message = Message(
    id: string, channelId: string, userId: string, content: string,
    fileUrl: Option<string>, fileType: Option<FileKind>, fileSize: Option<nat>)

  datatype DirectMessage = DirectMessage(
    id: string, senderId: string, recipientId: string, content: string,
    fileUrl: Option<string>, fileName: Option<string>, fileSize: Option<nat>,
    senderName: Option<string>, senderAvatar: Option<string>)

  /** A directional friend record: `userId` asked `friendUserId`. */
  datatype Friend = Friend(id: string, userId: string, friendUserId: string, status: string, friendName: Option<string>)

  datatype UserProfile = UserProfile(
    id: string, userId: string, displayName: Option<string>, bio: Option<string>,
    status: Option<string>, avatarUrl: Option<string>, backgroundUrl: Option<string>,
    themeColors: Option<StoredTheme>)

  /** Everything the gateway holds. */
  datatype Db = Db(
    servers: seq<Server>, members: seq<ServerMember>, channels: seq<Channel>,
    messages: seq<Message>, directMessages: seq<DirectMessage>, friends: seq<Friend>,
    profiles: seq<UserProfile>, blobs: seq<string>)

  const EmptyDb := Db([], [], [], [], [], [], [], [])

  /** `friends.update(id, { status })`. */
  function WithFriendStatus(fs: seq<Friend>, id: string, status: string): (r: seq<Friend>)
    ensures |r| == |fs|
    ensures forall k :: 0 <= k < |fs| ==> r[k] == if fs[k].id == id then fs[k].(status := status) else fs[k]
  {
    MapWhere(fs, (f: Friend) => f.id == id, (f: Friend) => f.(status := status))
  }

  /** `friends.delete(id)`. */
  function WithoutFriend(fs: seq<Friend>, id: string): (r: seq<Friend>)
    ensures forall f :: f in r <==> f in fs && f.id != id
  {
    Filter(fs, (f: Friend) => f.id != id)
  }

  /** `servers.update(id, { name, description, iconUrl, backgroundUrl })`. */
  function WithServerFields(
    ss: seq<Server>, id: string, name: string, description: Option<string>,
    iconUrl: Option<string>, backgroundUrl: Option<string>): (r: seq<Server>)
    ensures |r| == |ss|
    ensures forall k :: 0 <= k < |ss| ==> r[k] == if ss[k].id == id
      then ss[k].(name := name, description := description, iconUrl := iconUrl, backgroundUrl := backgroundUrl)
      else ss[k]
  {
    MapWhere(ss, (s: Server) => s.id == id,
      (s: Server) => s.(name := name, description := description, iconUrl := iconUrl, backgroundUrl := backgroundUrl))
  }

  /** `userProfiles.update(id, { displayName, bio, status, avatarUrl, backgroundUrl })`. */
  function WithProfileFields(
    ps: seq<UserProfile>, id: string, displayName: string, bio: Option<string>, status: string,
    avatarUrl: Option<string>, backgroundUrl: Option<string>): (r: seq<UserProfile>)
    ensures |r| == |ps|
    ensures forall k :: 0 <= k < |ps| ==> r[k] == if ps[k].id == id
      then ps[k].(displayName := Some(displayName), bio := bio, status := Some(status),
                  avatarUrl := avatarUrl, backgroundUrl := backgroundUrl)
      else ps[k]
  {
    MapWhere(ps, (p: UserProfile) => p.id == id,
      (p: UserProfile) => p.(displayName := Some(displayName), bio := bio, status := Some(status),
                             avatarUrl := avatarUrl, backgroundUrl := backgroundUrl))
  }

  /** `userProfiles.update(id, { themeColors })`. */
  function WithProfileTheme(ps: seq<UserProfile>, id: string, theme: StoredTheme): (r: seq<UserProfile>)
    ensures |r| == |ps|
    ensures forall k :: 0 <= k < |ps| ==> r[k] == if ps[k].id == id then ps[k].(themeColors := Some(theme)) else ps[k]
  {
    MapWhere(ps, (p: UserProfile) => p.id == id, (p: UserProfile) => p.(themeColors := Some(theme)))
  }

  /** `userProfiles.list({ where: { userId } })`. */
  function ProfilesOf(ps: seq<UserProfile>, userId: string): (r: seq<UserProfile>)
    ensures forall p :: p in r <==> p in ps && p.userId == userId
  {
    Filter(ps, (p: UserProfile) => p.userId == userId)
  }

  /** Creating a profile for a user who has none leaves that user with exactly one. */
  lemma FirstProfileIsOnlyProfile(ps: seq<UserProfile>, p: UserProfile)
    requires ProfilesOf(ps, p.userId) == []
    ensures ProfilesOf(ps + [p], p.userId) == [p]
  {
    FilterConcat(ps, [p], (q: UserProfile) => q.userId == p.userId);
  }

  /** A profile created for one user does not show up in another user's query. */
  lemma OtherUsersProfilesUnchanged(ps: seq<UserProfile>, p: UserProfile, userId: string)
    requires p.userId != userId
    ensures ProfilesOf(ps + [p], userId) == ProfilesOf(ps, userId)
  {
    FilterConcat(ps, [p], (q: UserProfile) => q.userId == userId);
  }

  /** Updating the theme of a user's first profile by its id changes that profile,
      and it stays the first one the user's query returns. */
  lemma {:induction false} ThemeUpdateReachesFirstProfile(ps: seq<UserProfile>, userId: string, theme: StoredTheme)
    requires ProfilesOf(ps, userId) != []
    ensures var after := ProfilesOf(WithProfileTheme(ps, ProfilesOf(ps, userId)[0].id, theme), userId);
      after != [] && after[0] == ProfilesOf(ps, userId)[0].(themeColors := Some(theme))
  {
    FirstProfileThemed(ps, userId, ProfilesOf(ps, userId)[0].id, theme);
  }

  lemma {:induction false} FirstProfileThemed(ps: seq<UserProfile>, userId: string, id: string, theme: StoredTheme)
    requires ProfilesOf(ps, userId) != [] && ProfilesOf(ps, userId)[0].id == id
    ensures var after := ProfilesOf(WithProfileTheme(ps, id, theme), userId);
      after != [] && after[0] == ProfilesOf(ps, userId)[0].(themeColors := Some(theme))
  {
    var upd := WithProfileTheme(ps, id, theme);
    if ps[0].userId != userId {
      assert upd[1..] == WithProfileTheme(ps[1..], id, theme);
      FirstProfileThemed(ps[1..], userId, id, theme);
    }
  }

  /** The owner membership written whenever a server is created. */
  function OwnerMembership(id: string, serverId: string, userId: string): (m: ServerMember)
    ensures m.id == id && m.serverId == serverId && m.userId == userId && m.role == Some("owner")
  {
    ServerMember(id, serverId, userId, Some("owner"))
  }

  /** The default text channel of a new server. */
  function GeneralChannel(id: string, serverId: string): (c: Channel)
    ensures c.id == id && c.serverId == serverId && c.name == "general" && c.kind == "text" && c.position == 0
  {
    Channel(id, serverId, "general", "text", 0)
  }

  /** The default voice channel of a new server. */
  function GeneralVoiceChannel(id: string, serverId: string): (c: Channel)
    ensures c.id == id && c.serverId == serverId && c.name == "General Voice" && c.kind == "voice" && c.position == 1
  {
    Channel(id, serverId, "General Voice", "voice", 1)
  }

  /** The gateway itself: the one mutable store all components share. */
  class Store {
    var db: Db

    constructor ()
      ensures db == EmptyDb
    {
      db := EmptyDb;
    }

    /** `storage.upload(file, path, …)`: the blob at `path` now exists. */
    method Upload(path: string)
      modifies this
      ensures db == old(db).(blobs := old(db).blobs + [path])
    {
      db := db.(blobs := db.blobs + [path]);
    }

    method CreateServer(s: Server)
      modifies this
      ensures db == old(db).(servers := old(db).servers + [s])
    {
      db := db.(servers := db.servers + [s]);
    }

    method CreateMember(m: ServerMember)
      modifies this
      ensures db == old(db).(members := old(db).members + [m])
    {
      db := db.(members := db.members + [m]);
    }

    method CreateChannel(c: Channel)
      modifies this
      ensures db == old(db).(channels := old(db).channels + [c])
    {
      db := db.(channels := db.channels + [c]);
    }

    method CreateMessage(m: Message)
      modifies this
      ensures db == old(db).(messages := old(db).messages + [m])
    {
      db := db.(messages := db.messages + [m]);
    }

    method CreateDirectMessage(d: DirectMessage)
      modifies this
      ensures db == old(db).(directMessages := old(db).directMessages + [d])
    {
      db := db.(directMessages := db.directMessages + [d]);
    }

    method CreateFriend(f: Friend)
      modifies this
      ensures db == old(db).(friends := old(db).friends + [f])
    {
      db := db.(friends := db.friends + [f]);
    }

    method UpdateFriendStatus(id: string, status: string)
      modifies this
      ensures db == old(db).(friends := WithFriendStatus(old(db).friends, id, status))
    {
      db := db.(friends := WithFriendStatus(db.friends, id, status));
    }

    method DeleteFriend(id: string)
      modifies this
      ensures db == old(db).(friends := WithoutFriend(old(db).friends, id))
    {
      db := db.(friends := WithoutFriend(db.friends, id));
    }

    method UpdateServer(id: string, name: string, description: Option<string>, iconUrl: Option<string>, backgroundUrl: Option<string>)
      modifies this
      ensures db == old(db).(servers := WithServerFields(old(db).servers, id, name, description, iconUrl, backgroundUrl))
    {
      db := db.(servers := WithServerFields(db.servers, id, name, description, iconUrl, backgroundUrl));
    }

    method CreateProfile(p: UserProfile)
      modifies this
      ensures db == old(db).(profiles := old(db).profiles + [p])
    {
      db := db.(profiles := db.profiles + [p]);
    }

    method UpdateProfile(id: string, displayName: string, bio: Option<string>, status: string, avatarUrl: Option<string>, backgroundUrl: Option<string>)
      modifies this
      ensures db == old(db).(profiles := WithProfileFields(old(db).profiles, id, displayName, bio, status, avatarUrl, backgroundUrl))
    {
      db := db.(profiles := WithProfileFields(db.profiles, id, displayName, bio, status, avatarUrl, backgroundUrl));
    }

    method UpdateProfileTheme(id: string, theme: StoredTheme)
      modifies this
      ensures db == old(db).(profiles := WithProfileTheme(old(db).profiles, id, theme))
    {
      db := db.(profiles := WithProfileTheme(db.profiles, id, theme));
    }
  }

  /** The store after all four creates of `SeedServer` succeed: one server, one
      membership and two channels of that server are appended, and nothing
      else changes. */
  function Seeded(db: Db, server: Server, userId: string, memberId: string, generalId: string, voiceId: string): (r: Db)
    ensures db.servers <= r.servers && |r.servers| == |db.servers| + 1 && server in r.servers
    ensures db.members <= r.members && |r.members| == |db.members| + 1
    ensures db.channels <= r.channels && |r.channels| == |db.channels| + 2
    ensures forall k :: |db.channels| <= k < |r.channels| ==> r.channels[k].serverId == server.id
    ensures r.messages == db.messages && r.directMessages == db.directMessages && r.friends == db.friends
    ensures r.profiles == db.profiles && r.blobs == db.blobs
  {
    db.(servers := db.servers + [server],
        members := db.members + [OwnerMembership(memberId, server.id, userId)],
        channels := db.channels + [GeneralChannel(generalId, server.id), GeneralVoiceChannel(voiceId, server.id)])
  }

  /** The records of the first `k` of those four creates: a failure part way
      leaves a server without its membership or channels. */
  function SeededUpTo(db: Db, server: Server, userId: string, memberId: string, generalId: string, voiceId: string, k: nat): (r: Db)
    ensures k == 0 ==> r == db
    ensures k >= 4 ==> r == Seeded(db, server, userId, memberId, generalId, voiceId)
    ensures k >= 1 ==> server in r.servers
    ensures r.blobs == db.blobs && r.profiles == db.profiles && r.messages == db.messages
  {
    db.(servers := db.servers + (if k >= 1 then [server] else []),
        members := db.members + (if k >= 2 then [OwnerMembership(memberId, server.id, userId)] else []),
        channels := db.channels
          + (if k >= 3 then [GeneralChannel(generalId, server.id)] else [])
          + (if k >= 4 then [GeneralVoiceChannel(voiceId, server.id)] else []))
  }

  /** The four creates that make a server usable, as both server-creating paths
      issue them: the server, the owner membership, 'general' and 'General Voice'.
      `okCalls` gateway calls succeed before one throws, so a failure can leave
      the first records in place; `done` says whether all four were written. */
  method SeedServer(store: Store, server: Server, userId: string, memberId: string, generalId: string, voiceId: string, okCalls: nat)
    returns (done: bool)
    modifies store
    ensures done <==> okCalls >= 4
    ensures done ==> store.db == Seeded(old(store.db), server, userId, memberId, generalId, voiceId)
    ensures store.db == SeededUpTo(old(store.db), server, userId, memberId, generalId, voiceId, okCalls)
  {
    done := false;
    if okCalls == 0 { return; }
    store.CreateServer(server);
    if okCalls == 1 { return; }
    store.CreateMember(OwnerMembership(memberId, server.id, userId));
    if okCalls == 2 { return; }
    store.CreateChannel(GeneralChannel(generalId, server.id));
    if okCalls == 3 { return; }
    store.CreateChannel(GeneralVoiceChannel(voiceId, server.id));
    done := true;
  }
}
