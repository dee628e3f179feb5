/** The top-level layout: which server, channel or direct-message thread is
    selected, the loaded server and channel lists, the signed-in user's
    profile, and the first-login bootstrap of a default server and profile. */
module VoxenLayout {
  import opened Base
  import opened Text
  import opened Gateway
  import ThemeCustomizer

  /** The selection part of the layout's state. */
  datatype Nav = Nav(
    server: Option<Server>, channel: Option<Channel>,
    dmsSelected: bool, dm: string, dmName: string)

  const StartNav := Nav(None, None, false, "", "")

  /** `handleSelectDMs`: the DM view with nothing selected, whatever was
      selected before, so the friends list and the empty chat pane are shown. */
  function AfterSelectDMs(n: Nav): (r: Nav)
    ensures r.dmsSelected && r.server.None? && r.channel.None? && r.dm == "" && r.dmName == ""
    ensures ScreenOf(r) == Screen(DMsList, ChannelChat, false)
  {
    Nav(None, None, true, "", "")
  }

  /** `handleSelectServer`, as written: the server view of `s` with no DM
      selected, and the channel selection left alone. */
  function AfterSelectServer(n: Nav, s: Server): (r: Nav)
    ensures r.server == Some(s) && !r.dmsSelected && r.dm == "" && r.dmName == ""
    ensures r.channel == n.channel
    ensures ScreenOf(r) == Screen(ChannelList, ChannelChat, true)
  {
    n.(server := Some(s), dmsSelected := false, dm := "", dmName := "")
  }

  /** `handleSelectDM`: only the selected friend changes; within the DM view a
      non-empty friend id opens that friend's chat. */
  function AfterSelectDM(n: Nav, friendId: string, friendName: string): (r: Nav)
    ensures r.dm == friendId && r.dmName == friendName
    ensures r.server == n.server && r.channel == n.channel && r.dmsSelected == n.dmsSelected
    ensures n.dmsSelected && friendId != "" ==> ScreenOf(r).main == DMChat(friendId, friendName)
  {
    n.(dm := friendId, dmName := friendName)
  }

  /** `onSelectChannel`, which is `setSelectedChannel` itself: only the channel
      changes, and what the layout shows stays the same. */
  function AfterSelectChannel(n: Nav, c: Channel): (r: Nav)
    ensures r.channel == Some(c)
    ensures r.server == n.server && r.dmsSelected == n.dmsSelected && r.dm == n.dm && r.dmName == n.dmName
    ensures ScreenOf(r) == ScreenOf(n)
  {
    n.(channel := Some(c))
  }

  /** The selection effect of a channel listing: the first channel is picked
      only when no channel is selected. */
  function AfterChannelsListed(n: Nav, listing: seq<Channel>): (r: Nav)
    ensures n.channel.Some? || listing == [] ==> r == n
    ensures n.channel.None? && listing != [] ==> r == n.(channel := Some(listing[0])) && r.channel.value in listing
  {
    if listing != [] && n.channel.None? then n.(channel := Some(listing[0])) else n
  }

  /** What the layout renders in its three variable slots. */
  datatype Sidebar = DMsList | ChannelList
  datatype MainPane = DMChat(friendId: string, friendName: string) | ChannelChat
  datatype Screen = Screen(sidebar: Sidebar, main: MainPane, memberList: bool)

  /** The layout's slots for a selection: the DM chat only ever appears beside
      the friends list and never with the member list. */
  function ScreenOf(n: Nav): (s: Screen)
    ensures s.main.DMChat? ==> s.sidebar == DMsList && !s.memberList
    ensures s.main.DMChat? ==> s.main.friendId == n.dm && s.main.friendName == n.dmName
  {
    Screen(
      if n.dmsSelected then DMsList else ChannelList,
      if n.dmsSelected && n.dm != "" then DMChat(n.dm, n.dmName) else ChannelChat,
      !n.dmsSelected)
  }

  /** The direct-message chat is on screen exactly when the DM view is active
      and a friend is selected; the member list exactly when it is not active. */
  lemma ScreenRules(n: Nav)
    ensures ScreenOf(n).main.DMChat? <==> n.dmsSelected && n.dm != ""
    ensures ScreenOf(n).memberList <==> !n.dmsSelected
    ensures ScreenOf(n).sidebar == DMsList <==> !ScreenOf(n).memberList
  {
  }

  /** Opening the DM view clears every server-side selection and shows the
      friends sidebar with no chat open and no member list. */
  lemma SelectDMsScreen(n: Nav)
    ensures var m := AfterSelectDMs(n);
      m.server.None? && m.channel.None? && m.dm == "" && m.dmName == ""
      && ScreenOf(m) == Screen(DMsList, ChannelChat, false)
  {
  }

  /** Picking a friend in the DM view opens that conversation, and only the DM
      fields of the selection change. */
  lemma SelectDMScreen(n: Nav, friendId: string, friendName: string)
    requires n.dmsSelected && friendId != ""
    ensures ScreenOf(AfterSelectDM(n, friendId, friendName)) == Screen(DMsList, DMChat(friendId, friendName), false)
    ensures AfterSelectDM(n, friendId, friendName).server == n.server
    ensures AfterSelectDM(n, friendId, friendName).channel == n.channel
  {
  }

  /** Selecting a server leaves the DM view: channel sidebar, channel chat and
      member list, with the DM fields cleared. */
  lemma SelectServerScreen(n: Nav, s: Server)
    ensures ScreenOf(AfterSelectServer(n, s)) == Screen(ChannelList, ChannelChat, true)
    ensures AfterSelectServer(n, s).dm == "" && AfterSelectServer(n, s).server == Some(s)
  {
  }

  /** A DM selection only exists inside the DM view. */
  predicate DMOnlyInDMView(n: Nav) {
    !n.dmsSelected ==> n.dm == "" && n.dmName == ""
  }

  /** Every handler keeps `DMOnlyInDMView`; `handleSelectDM` is reachable only
      from the friends sidebar, which is rendered in the DM view. */
  lemma DMOnlyInDMViewKept(n: Nav, s: Server, c: Channel, friendId: string, friendName: string, listing: seq<Channel>)
    requires DMOnlyInDMView(n)
    ensures DMOnlyInDMView(AfterSelectDMs(n))
    ensures DMOnlyInDMView(AfterSelectServer(n, s))
    ensures n.dmsSelected ==> DMOnlyInDMView(AfterSelectDM(n, friendId, friendName))
    ensures DMOnlyInDMView(AfterSelectChannel(n, c))
    ensures DMOnlyInDMView(AfterChannelsListed(n, listing))
  {
  }

  /** The selected channel, if any, is one of `listing` (the channels shown for
      the selected server). */
  predicate ChannelListed(n: Nav, listing: seq<Channel>) {
    n.channel.Some? ==> n.channel.value in listing
  }

  /** As written, switching from one server to another keeps the old server's
      channel selected, and the reload of the new server's channels does not
      replace it, because the first channel is only picked when none is selected. */
  lemma StaleChannelAfterSwitch(a: Server, b: Server, general: Channel, listing: seq<Channel>)
    requires a.id != b.id && general.serverId == a.id
    requires forall c :: c in listing ==> c.serverId == b.id
    ensures var n := AfterChannelsListed(AfterSelectServer(Nav(Some(a), Some(general), false, "", ""), b), listing);
      n.server == Some(b) && n.channel == Some(general) && !ChannelListed(n, listing)
  {
  }

  /** The evident intent: a switch to a different server clears the channel so
      that the new server's first channel is picked; re-selecting the current
      server keeps it. */
  function AfterSelectServerCorrected(n: Nav, s: Server): (r: Nav)
    ensures r.server == Some(s) && !r.dmsSelected && r.dm == "" && r.dmName == ""
    ensures r.channel.Some? ==> n.server.Some? && n.server.value.id == s.id
    ensures n.server.Some? && n.server.value.id == s.id ==> r.channel == n.channel
    ensures ScreenOf(r) == Screen(ChannelList, ChannelChat, true)
  {
    var m := AfterSelectServer(n, s);
    if n.server.Some? && n.server.value.id == s.id then m else m.(channel := None)
  }

  /** With the corrected switch, after the new server's channels are listed the
      selected channel is always one of them. */
  lemma CorrectedSwitchSelectsListedChannel(n: Nav, s: Server, listing: seq<Channel>)
    requires n.server.Some? && n.server.value.id == s.id ==> ChannelListed(n, listing)
    ensures ChannelListed(AfterChannelsListed(AfterSelectServerCorrected(n, s), listing), listing)
    ensures listing != [] && !(n.server.Some? && n.server.value.id == s.id) ==>
      AfterChannelsListed(AfterSelectServerCorrected(n, s), listing).channel == Some(listing[0])
  {
  }

  /** `channels.list({ where: { serverId } })`, before ordering. */
  function ChannelsOf(all: seq<Channel>, serverId: string): (r: seq<Channel>)
    ensures forall c :: c in r <==> c in all && c.serverId == serverId
  {
    Filter(all, (c: Channel) => c.serverId == serverId)
  }

  /** `listing` is what the gateway returns for `orderBy: { position: 'asc' }`:
      the server's channels, each once, by ascending position. */
  predicate IsPositionListing(listing: seq<Channel>, all: seq<Channel>, serverId: string) {
    && multiset(listing) == multiset(ChannelsOf(all, serverId))
    && forall i, j :: 0 <= i < j < |listing| ==> listing[i].position <= listing[j].position
  }

  /** `serverMembers.list({ where: { userId } })`. */
  function MembershipsOf(members: seq<ServerMember>, userId: string): (r: seq<ServerMember>)
    ensures forall m :: m in r <==> m in members && m.userId == userId
  {
    Filter(members, (m: ServerMember) => m.userId == userId)
  }

  /** The server ids of a list of memberships, in order. */
  function ServerIds(ms: seq<ServerMember>): (r: seq<string>)
    ensures |r| == |ms|
    ensures forall id :: id in r <==> exists m :: m in ms && m.serverId == id
  {
    if ms == [] then [] else [ms[0].serverId] + ServerIds(ms[1..])
  }

  /** `servers.list({ where: { id: { in: serverIds } } })`: exactly the servers
      the user is a member of, in store order. */
  function JoinedServers(servers: seq<Server>, members: seq<ServerMember>, userId: string): (r: seq<Server>)
    ensures forall s :: s in r <==> s in servers && exists m :: m in members && m.userId == userId && m.serverId == s.id
  {
    var ids := ServerIds(MembershipsOf(members, userId));
    Filter(servers, (s: Server) => s.id in ids)
  }

  /** The server `createDefaultServer` writes for a new user. */
  function DefaultServer(id: string, ownerId: string): (s: Server)
    ensures s.id == id && s.ownerId == ownerId
    ensures s.name == "My First Server" && s.description == Some("Welcome to Voxen!")
    ensures s.themeColors == Some(ThemeCustomizer.Serialize(ThemeCustomizer.DefaultPalette))
  {
    Server(id, "My First Server", Some("Welcome to Voxen!"), None, None, ownerId,
      Some(ThemeCustomizer.Serialize(ThemeCustomizer.DefaultPalette)))
  }

  /** `loadAndApplyTheme`: the palette written into the page's theme variables,
      filled in colour by colour from the first profile's stored theme; none
      when the user has no profile or it holds no theme, which leaves the
      variables as they are. */
  function AppliedTheme(ps: seq<UserProfile>, userId: string): (r: Option<ThemeCustomizer.Palette>)
    ensures r.Some? ==> r.value.primary != [] && r.value.accent != [] && r.value.background != []
    ensures ProfilesOf(ps, userId) == [] || ProfilesOf(ps, userId)[0].themeColors.None? ==> r.None?
    ensures ProfilesOf(ps, userId) != [] && ProfilesOf(ps, userId)[0].themeColors.Some? ==>
      r == Some(ThemeCustomizer.Fill(ProfilesOf(ps, userId)[0].themeColors.value))
  {
    var mine := FirstN(ProfilesOf(ps, userId), 1);
    if mine != [] && mine[0].themeColors.Some? then Some(ThemeCustomizer.Fill(mine[0].themeColors.value)) else None
  }

  /** The palette the customiser saves is the one the layout applies on its
      next load, whether the save updated a profile or created one. */
  lemma SavedThemeIsApplied(ps: seq<UserProfile>, user: User, colors: ThemeCustomizer.Palette, profileId: string)
    requires colors.primary != [] && colors.accent != [] && colors.background != []
    ensures AppliedTheme(ThemeCustomizer.SavedProfiles(ps, user, colors, profileId), user.id) == Some(colors)
  {
    if ProfilesOf(ps, user.id) != [] {
      ThemeUpdateReachesFirstProfile(ps, user.id, ThemeCustomizer.Serialize(colors));
    } else {
      FirstProfileIsOnlyProfile(ps, ThemeCustomizer.ThemeProfile(profileId, user, ThemeCustomizer.Serialize(colors)));
    }
    ThemeCustomizer.RoundTrip(colors);
  }

  /** The layout and the customiser read a stored theme the same way: where
      the layout applies a palette, the customiser shows that palette. */
  lemma AppliedThemeMatchesCustomizer(ps: seq<UserProfile>, userId: string, current: ThemeCustomizer.Palette)
    ensures AppliedTheme(ps, userId).Some? ==> AppliedTheme(ps, userId).value == ThemeCustomizer.LoadedPalette(ps, userId, current)
    ensures AppliedTheme(ps, userId).None? ==> ThemeCustomizer.LoadedPalette(ps, userId, current) == current
  {
  }

  /** The profile `loadUserProfile` writes for a user who has none. */
  function DefaultProfile(id: string, user: User): (p: UserProfile)
    ensures p.userId == user.id && p.status == Some("online")
    ensures p.displayName == Some(EmailName(user.email))
    ensures p.bio.None? && p.avatarUrl.None? && p.backgroundUrl.None? && p.themeColors.None?
  {
    UserProfile(id, user.id, Some(EmailName(user.email)), None, Some("online"), None, None, None)
  }

  /** After the first-login bootstrap the user belongs to the new server alone. */
  lemma BootstrapMembership(members: seq<ServerMember>, userId: string, serverId: string, memberId: string)
    requires MembershipsOf(members, userId) == []
    ensures MembershipsOf(members + [OwnerMembership(memberId, serverId, userId)], userId)
      == [OwnerMembership(memberId, serverId, userId)]
  {
    FilterConcat(members, [OwnerMembership(memberId, serverId, userId)], (m: ServerMember) => m.userId == userId);
  }

  /** ... so the next `loadServers` lists exactly the new server. */
  lemma BootstrapIsListed(db: Db, userId: string, serverId: string, memberId: string, generalId: string, voiceId: string)
    requires MembershipsOf(db.members, userId) == []
    ensures var after := Seeded(db, DefaultServer(serverId, userId), userId, memberId, generalId, voiceId);
      forall s :: s in JoinedServers(after.servers, after.members, userId) <==> s in after.servers && s.id == serverId
  {
    var after := Seeded(db, DefaultServer(serverId, userId), userId, memberId, generalId, voiceId);
    BootstrapMembership(db.members, userId, serverId, memberId);
    assert ServerIds(MembershipsOf(after.members, userId)) == [serverId];
  }

  /** The new server's channels are 'general' then 'General Voice'. */
  lemma BootstrapChannels(channels: seq<Channel>, serverId: string, generalId: string, voiceId: string)
    requires forall c :: c in channels ==> c.serverId != serverId
    ensures ChannelsOf(channels + [GeneralChannel(generalId, serverId), GeneralVoiceChannel(voiceId, serverId)], serverId)
      == [GeneralChannel(generalId, serverId), GeneralVoiceChannel(voiceId, serverId)]
  {
    var g, v := GeneralChannel(generalId, serverId), GeneralVoiceChannel(voiceId, serverId);
    FilterConcat(channels, [g, v], (c: Channel) => c.serverId == serverId);
    FilterKeepsNone(channels, (c: Channel) => c.serverId == serverId);
    assert [g, v][1..] == [v];
    assert ChannelsOf([v], serverId) == [v];
  }

  /** The layout's state for one signed-in user. */
  class Layout {
    const user: User
    var selectedServer: Option<Server>
    var selectedChannel: Option<Channel>
    var servers: seq<Server>
    var channels: seq<Channel>
    var userProfile: Option<UserProfile>
    var isDMsSelected: bool
    var selectedDM: string
    var selectedDMName: string

    /** The selection fields as one value. */
    function Selection(): Nav
      reads this
    {
      Nav(selectedServer, selectedChannel, isDMsSelected, selectedDM, selectedDMName)
    }

    constructor (user: User)
      ensures this.user == user
      ensures Selection() == StartNav
      ensures servers == [] && channels == [] && userProfile.None?
    {
      this.user := user;
      selectedServer, selectedChannel := None, None;
      servers, channels, userProfile := [], [], None;
      isDMsSelected, selectedDM, selectedDMName := false, "", "";
    }

    /** `handleSelectDMs`: DM view on, every other selection cleared. */
    method SelectDMs()
      modifies this
      ensures isDMsSelected && selectedServer.None? && selectedChannel.None?
      ensures selectedDM == "" && selectedDMName == ""
      ensures Selection() == AfterSelectDMs(old(Selection()))
      ensures servers == old(servers) && channels == old(channels) && userProfile == old(userProfile)
    {
      isDMsSelected := true;
      selectedServer := None;
      selectedChannel := None;
      selectedDM := "";
      selectedDMName := "";
    }

    /** `handleSelectServer`: DM view off, DM fields cleared, the server
        selected; the selected channel is not touched. */
    method SelectServer(server: Server)
      modifies this
      ensures !isDMsSelected && selectedDM == "" && selectedDMName == ""
      ensures selectedServer == Some(server) && selectedChannel == old(selectedChannel)
      ensures Selection() == AfterSelectServer(old(Selection()), server)
      ensures servers == old(servers) && channels == old(channels) && userProfile == old(userProfile)
    {
      isDMsSelected := false;
      selectedDM := "";
      selectedDMName := "";
      selectedServer := Some(server);
    }

    /** `handleSelectDM`: only the DM id and name change. */
    method SelectDM(friendId: string, friendName: string)
      modifies this
      ensures selectedDM == friendId && selectedDMName == friendName
      ensures Selection() == AfterSelectDM(old(Selection()), friendId, friendName)
      ensures selectedServer == old(selectedServer) && selectedChannel == old(selectedChannel)
      ensures isDMsSelected == old(isDMsSelected)
      ensures servers == old(servers) && channels == old(channels) && userProfile == old(userProfile)
    {
      selectedDM := friendId;
      selectedDMName := friendName;
    }

    /** The channel sidebar's `onSelectChannel`. */
    method SelectChannel(c: Channel)
      modifies this
      ensures Selection() == AfterSelectChannel(old(Selection()), c)
      ensures servers == old(servers) && channels == old(channels) && userProfile == old(userProfile)
    {
      selectedChannel := Some(c);
    }

    /** `loadChannels(serverId)`: the gateway's `listing` replaces the channel
        list and its first channel is selected only when none is; a failed
        query (`okCalls == 0`) changes nothing. */
    method LoadChannels(store: Store, serverId: string, listing: seq<Channel>, okCalls: nat)
      requires IsPositionListing(listing, store.db.channels, serverId)
      modifies this
      ensures okCalls >= 1 ==> channels == listing && Selection() == AfterChannelsListed(old(Selection()), listing)
      ensures okCalls >= 1 && old(selectedChannel).Some? ==> selectedChannel == old(selectedChannel)
      ensures okCalls >= 1 && old(selectedChannel).None? && listing != [] ==> selectedChannel == Some(listing[0])
      ensures okCalls == 0 ==> channels == old(channels) && Selection() == old(Selection())
      ensures servers == old(servers) && userProfile == old(userProfile)
    {
      if okCalls == 0 { return; }
      channels := listing;
      if |listing| > 0 && selectedChannel.None? {
        selectedChannel := Some(listing[0]);
      }
    }

    /** `createDefaultServer`: seeds a server named "My First Server" owned by
        the user, with its owner membership and two default channels; only when
        all four creates succeed does it become the only listed server and the
        selected one. */
    method CreateDefaultServer(store: Store, okCalls: nat, serverId: string, memberId: string, generalId: string, voiceId: string)
      modifies this, store
      ensures store.db == old(store.db).(
        servers := old(store.db).servers + (if okCalls >= 1 then [DefaultServer(serverId, user.id)] else []),
        members := old(store.db).members + (if okCalls >= 2 then [OwnerMembership(memberId, serverId, user.id)] else []),
        channels := old(store.db).channels
          + (if okCalls >= 3 then [GeneralChannel(generalId, serverId)] else [])
          + (if okCalls >= 4 then [GeneralVoiceChannel(voiceId, serverId)] else []))
      ensures store.db == SeededUpTo(old(store.db), DefaultServer(serverId, user.id), user.id, memberId, generalId, voiceId, okCalls)
      ensures okCalls >= 4 ==> servers == [DefaultServer(serverId, user.id)] && selectedServer == Some(DefaultServer(serverId, user.id))
      ensures okCalls < 4 ==> servers == old(servers) && selectedServer == old(selectedServer)
      ensures selectedChannel == old(selectedChannel) && isDMsSelected == old(isDMsSelected)
      ensures selectedDM == old(selectedDM) && selectedDMName == old(selectedDMName)
      ensures channels == old(channels) && userProfile == old(userProfile)
    {
      var server := DefaultServer(serverId, user.id);
      var done := SeedServer(store, server, user.id, memberId, generalId, voiceId, okCalls);
      if done {
        servers := [server];
        selectedServer := Some(server);
      }
    }

    /** `loadServers`: with at least one membership, the joined servers replace
        the list and the first is selected only when no server is; with none,
        the default server is created with the calls that remain. */
    method LoadServers(store: Store, okCalls: nat, serverId: string, memberId: string, generalId: string, voiceId: string)
      modifies this, store
      ensures okCalls == 0 || MembershipsOf(old(store.db.members), user.id) != [] ==> store.db == old(store.db)
      ensures okCalls >= 2 && MembershipsOf(old(store.db.members), user.id) != [] ==>
        && servers == JoinedServers(old(store.db.servers), old(store.db.members), user.id)
        && selectedServer == (if servers != [] && old(selectedServer).None? then Some(servers[0]) else old(selectedServer))
      ensures okCalls < 2 && MembershipsOf(old(store.db.members), user.id) != [] ==>
        servers == old(servers) && selectedServer == old(selectedServer)
      ensures okCalls >= 5 && MembershipsOf(old(store.db.members), user.id) == [] ==>
        && store.db == Seeded(old(store.db), DefaultServer(serverId, user.id), user.id, memberId, generalId, voiceId)
        && servers == [DefaultServer(serverId, user.id)] && selectedServer == Some(servers[0])
      ensures 1 <= okCalls < 5 && MembershipsOf(old(store.db.members), user.id) == [] ==>
        && store.db == SeededUpTo(old(store.db), DefaultServer(serverId, user.id), user.id, memberId, generalId, voiceId, okCalls - 1)
        && servers == old(servers) && selectedServer == old(selectedServer)
      ensures selectedChannel == old(selectedChannel) && isDMsSelected == old(isDMsSelected)
      ensures selectedDM == old(selectedDM) && selectedDMName == old(selectedDMName)
      ensures channels == old(channels) && userProfile == old(userProfile)
    {
      if okCalls == 0 { return; }
      var memberships := MembershipsOf(store.db.members, user.id);
      if |memberships| > 0 {
        if okCalls == 1 { return; }
        var serverList := JoinedServers(store.db.servers, store.db.members, user.id);
        servers := serverList;
        if |serverList| > 0 && selectedServer.None? {
          selectedServer := Some(serverList[0]);
        }
      } else {
        CreateDefaultServer(store, okCalls - 1, serverId, memberId, generalId, voiceId);
      }
    }

    /** `loadUserProfile`: the user's first profile, or, when there is none, a
        new one named after the e-mail's local part with status 'online'. */
    method LoadUserProfile(store: Store, okCalls: nat, profileId: string)
      modifies this, store
      ensures var mine := ProfilesOf(old(store.db.profiles), user.id);
        && (okCalls >= 1 && mine != [] ==> userProfile == Some(mine[0]) && store.db == old(store.db))
        && (okCalls >= 2 && mine == [] ==>
              userProfile == Some(DefaultProfile(profileId, user))
              && store.db == old(store.db).(profiles := old(store.db.profiles) + [DefaultProfile(profileId, user)])
              && ProfilesOf(store.db.profiles, user.id) == [DefaultProfile(profileId, user)])
        && (okCalls == 0 || (okCalls == 1 && mine == []) ==> userProfile == old(userProfile) && store.db == old(store.db))
      ensures Selection() == old(Selection()) && servers == old(servers) && channels == old(channels)
    {
      if okCalls == 0 { return; }
      var profiles := FirstN(ProfilesOf(store.db.profiles, user.id), 1);
      if |profiles| == 0 {
        if okCalls == 1 { return; }
        var p := DefaultProfile(profileId, user);
        FirstProfileIsOnlyProfile(store.db.profiles, p);
        store.CreateProfile(p);
        userProfile := Some(p);
      } else {
        userProfile := Some(profiles[0]);
      }
    }
  }

  /** The first login of a user with no memberships, when every call succeeds:
      the default server is created with 'general' and 'General Voice', and the
      channel reload it triggers, whatever order the gateway's position-sorted
      listing of the new server's channels comes in, selects 'general'. */
  lemma FirstLoginSelectsGeneral(db: Db, nav: Nav, userId: string, serverId: string, memberId: string,
                                 generalId: string, voiceId: string, listing: seq<Channel>)
    requires nav.channel.None?
    requires forall c :: c in db.channels ==> c.serverId != serverId
    requires IsPositionListing(listing, Seeded(db, DefaultServer(serverId, userId), userId, memberId, generalId, voiceId).channels, serverId)
    ensures AfterChannelsListed(nav, listing).channel == Some(GeneralChannel(generalId, serverId))
    ensures AfterChannelsListed(nav, listing).channel.value.kind == "text"
  {
    var g, v := GeneralChannel(generalId, serverId), GeneralVoiceChannel(voiceId, serverId);
    BootstrapChannels(db.channels, serverId, generalId, voiceId);
    assert multiset(listing) == multiset([g, v]);
    assert |listing| == 2;
    assert listing[0] in multiset(listing) && listing[1] in multiset(listing);
  }
}
