# Voxen client components, modelled in Dafny

Voxen is a chat application in the style of Discord. It has servers with text and voice channels, direct messages between friends, user profiles, and per-user colour themes. All of its data lives in a hosted gateway, reached through the SDK's `db` collections (`servers`, `serverMembers`, `channels`, `messages`, `direct_messages`, `friends`, `userProfiles`) and its blob storage.

This project models the decision logic of the eleven components that make up the signed-in screen:

- the layout that ties them together;
- the channel and direct-message chat areas;
- the friends sidebar, the member list and the channel sidebar;
- the profile, server-settings and create-server dialogs;
- the theme customiser and the user panel.

It proves what each of them promises about the records they read and write and what they display.

## How the model is built

Shared modules:

- `Base` holds `Option` and the list operations the components use: `filter`, an update applied by id, and a query `limit`.
- `Text` holds the JavaScript string operations: `trim`, ASCII case folding, `includes`, `split('@')[0]`, and the `||` fallbacks over missing or empty strings.
- `Gateway` holds the records and a `Store` class whose `db` field is the whole database, one sequence per collection in creation order, plus the uploaded blob paths.
  - A `list` query is a filter over a sequence.
  - `create` appends a record, `update` patches the records with the given id, and `delete` removes them.
- `Uploads` holds the file checks and the sub-ranges of the progress bar.

Every component is one module:

- Its React state is a class whose fields the handlers update. Each handler is a method that states its whole new state.
- What the component computes (filters, groupings, labels, colours, the records it writes) is given by functions. Lemmas relate those functions to each other and across components.

How the gateway's environment is modelled:

- **Failures.** Any gateway call may throw. A handler takes `okCalls`, the number of calls that succeed before one throws. Its contract says exactly which records the calls that succeeded left behind, including the partial ones: an uploaded blob with no message, or a server with no membership.
- **Generated values.** Identifiers built from `Date.now()`, URLs returned by uploads, data URLs from `FileReader`, and the user returned by `auth.me()` are parameters.
- **Progress bar.** A handler that drives the upload bar returns the sequence of every value the bar takes. The percentages the gateway reports are a parameter.

The component classes follow the code as written, including the three defects listed under Findings. Each corrected definition stands beside the class, with the intended property proved about it.

## Model

| member | source | states |
|---|---|---|
| VoxenLayout.ScreenRules | src/components/VoxenLayout.tsx:207-246 | the DM chat is shown exactly when the DM view is on and a friend is selected; the member list exactly when the DM view is off; the friends sidebar exactly when the member list is hidden |
| VoxenLayout.ScreenOf | src/components/VoxenLayout.tsx:207-246 | the DM chat only ever appears beside the friends list and never with the member list, and it is the selected friend's |
| VoxenLayout.AfterSelectDMs | src/components/VoxenLayout.tsx:171-178 | whatever was selected, the DM view with no server, channel or friend, so the friends list and the placeholder chat show without a member list |
| VoxenLayout.AfterSelectServer | src/components/VoxenLayout.tsx:180-187 | the server view of the chosen server with no friend selected, showing the channel list, chat and member list, and the channel selection kept |
| VoxenLayout.AfterSelectDM | src/components/VoxenLayout.tsx:189-192 | only the selected friend changes; within the DM view a non-empty friend id opens that friend's chat |
| VoxenLayout.AfterSelectChannel | src/components/VoxenLayout.tsx:218 | only the channel changes, and the screen's slots stay as they were |
| VoxenLayout.AfterChannelsListed | src/components/VoxenLayout.tsx:151-153 | a selected channel or an empty listing leaves the selection alone; otherwise a channel of the listing, its first, is selected |
| VoxenLayout.SelectDMsScreen | src/components/VoxenLayout.tsx:171-178 | opening the DM view clears the server, channel and DM selection and shows the friends sidebar with no chat and no member list |
| VoxenLayout.SelectDMScreen | src/components/VoxenLayout.tsx:189-192 | picking a friend in the DM view opens that conversation and leaves the server and channel selection alone |
| VoxenLayout.SelectServerScreen | src/components/VoxenLayout.tsx:180-187 | selecting a server leaves the DM view: channel sidebar, channel chat and member list, DM fields cleared, the server selected |
| VoxenLayout.DMOnlyInDMViewKept | src/components/VoxenLayout.tsx:171-192 | every selection handler and the channel reload keep "a DM is selected only inside the DM view" |
| VoxenLayout.StaleChannelAfterSwitch | src/components/VoxenLayout.tsx:180-187 | as written, after a switch to another server and the reload of its channels, the previous server's channel stays selected and is not in the new listing |
| VoxenLayout.AfterSelectServerCorrected | src/components/VoxenLayout.tsx:180-187 | the corrected switch selects the server with the DM view off and both DM fields cleared; the selected channel survives only when the same server is selected again; the channel screen with its member list is shown |
| VoxenLayout.CorrectedSwitchSelectsListedChannel | src/components/VoxenLayout.tsx:143-157 | with the switch clearing the channel, the selected channel after the reload is always listed, and is the first listed one after a switch to a different server |
| VoxenLayout.ChannelsOf | src/components/VoxenLayout.tsx:145-148 | a channel is listed exactly when it is stored with the server's id |
| VoxenLayout.MembershipsOf | src/components/VoxenLayout.tsx:120-122 | exactly the user's memberships |
| VoxenLayout.ServerIds | src/components/VoxenLayout.tsx:125 | one id per membership, and an id occurs exactly when some membership has it |
| VoxenLayout.JoinedServers | src/components/VoxenLayout.tsx:125-128 | a server is listed exactly when it is stored and the user has a membership in it |
| VoxenLayout.DefaultServer | src/components/VoxenLayout.tsx:48-59 | the first-login server: 'My First Server', 'Welcome to Voxen!', owned by the user, with the default theme |
| VoxenLayout.DefaultProfile | src/components/VoxenLayout.tsx:102-107 | the first-login profile: the e-mail's local part (or 'User') as display name, status 'online', nothing else set |
| VoxenLayout.BootstrapMembership | src/components/VoxenLayout.tsx:61-67 | after the owner membership is written, it is the user's only membership |
| VoxenLayout.BootstrapIsListed | src/components/VoxenLayout.tsx:117-137 | after the bootstrap, the next server load lists exactly the new server |
| VoxenLayout.BootstrapChannels | src/components/VoxenLayout.tsx:69-84 | the new server's channels are 'general' then 'General Voice' |
| VoxenLayout.Layout.constructor | src/components/VoxenLayout.tsx:17-24 | nothing selected, empty lists, no profile, DM view off |
| VoxenLayout.Layout.SelectDMs | src/components/VoxenLayout.tsx:171-178 | DM view on, server, channel and DM selection cleared, lists kept |
| VoxenLayout.Layout.SelectServer | src/components/VoxenLayout.tsx:180-187 | DM view off, DM fields cleared, the server selected, the channel selection untouched |
| VoxenLayout.Layout.SelectDM | src/components/VoxenLayout.tsx:189-192 | only the DM id and name change |
| VoxenLayout.Layout.SelectChannel | src/components/VoxenLayout.tsx:214-220 | only the selected channel changes |
| VoxenLayout.Layout.LoadChannels | src/components/VoxenLayout.tsx:143-157 | the position-ordered listing replaces the channels; the first is selected only when none is; a failed query changes nothing |
| VoxenLayout.Layout.CreateDefaultServer | src/components/VoxenLayout.tsx:46-91 | the four creates in order, each kept when a later one fails; the server is listed and selected only when all four succeed |
| VoxenLayout.Layout.LoadServers | src/components/VoxenLayout.tsx:117-141 | with memberships, the joined servers replace the list and the first is selected only when none is; without any, the default server is created; a throw part-way through that bootstrap leaves exactly the records written before it, and the list and selection as they were |
| VoxenLayout.Layout.LoadUserProfile | src/components/VoxenLayout.tsx:93-115 | the user's first profile, or a new default one written and shown when there is none; the profile is then the user's only one |
| VoxenLayout.FirstLoginSelectsGeneral | src/components/VoxenLayout.tsx:143-169 | for a store holding no channels of the new server, whatever position-sorted listing of the seeded store's channels of that server comes back, the channel reload after the bootstrap selects the text channel 'general' |
| MainChatArea.ChannelMessages | src/components/MainChatArea.tsx:34-36 | a message is listed exactly when it is stored in the channel |
| MainChatArea.MessagePage | src/components/MainChatArea.tsx:30-43 | at most 100 messages, a prefix of the channel's messages, all of them while the channel holds 100 or fewer; its length is the smaller of the channel's message count and 100 |
| MainChatArea.OtherChannelsUnchanged | src/components/MainChatArea.tsx:49-56 | a message stored in one channel leaves every other channel's list unchanged |
| MainChatArea.ReloadShowsSent | src/components/MainChatArea.tsx:45-57 | below a full page, the local append equals what a reload shows |
| MainChatArea.ReloadHidesNewMessages | src/components/MainChatArea.tsx:34-38 | as written, once a channel holds 100 messages a reload never shows a new one |
| MainChatArea.LatestPage | src/components/MainChatArea.tsx:34-38 | the corrected page: the newest messages of the channel, as many as the smaller of its message count and 100, in order (a suffix of the channel's messages) |
| MainChatArea.LatestPageShowsSent | src/components/MainChatArea.tsx:45-57 | with the corrected page, a reload after a send always ends with the sent message |
| MainChatArea.FileKindOf | src/components/MainChatArea.tsx:106-109 | 'image' exactly for an image/ type, 'video' exactly for a video/ type that is not an image, 'file' otherwise |
| MainChatArea.AttachmentPath | src/components/MainChatArea.tsx:97-99 | 'uploads/', then the channel id, '/', and the file name, each at its fixed position |
| MainChatArea.AttachmentPathDetermines | src/components/MainChatArea.tsx:97-99 | for channel ids without '/', two attachments share a path only when both the channel and the file name are the same |
| MainChatArea.TextMessage | src/components/MainChatArea.tsx:49-54 | a text message carries no file fields |
| MainChatArea.FileMessage | src/components/MainChatArea.tsx:111-119 | an attachment message says 'Uploaded <name>' and carries the URL, the size and the classified type |
| MainChatArea.ChatArea.constructor | src/components/MainChatArea.tsx:18-21 | no messages, empty input, not uploading, progress 0 |
| MainChatArea.ChatArea.LoadMessages | src/components/MainChatArea.tsx:30-43 | with a channel, the page replaces the whole list; without one or on failure nothing changes |
| MainChatArea.ChatArea.SendMessage | src/components/MainChatArea.tsx:45-66 | sends exactly for a non-blank input with a channel when the create succeeds; then the trimmed message is stored and appended and the input cleared; otherwise nothing changes |
| MainChatArea.ChatArea.HandleFileUpload | src/components/MainChatArea.tsx:78-140 | refuses files over 600 MiB before anything; otherwise upload then create, the message appended only when both succeed, a blob left behind by a failed create, uploading and progress reset at the end |
| DMChatArea.Thread | src/components/DMChatArea.tsx:44-52 | a message is in the thread exactly when it went from one participant to the other, in either direction |
| DMChatArea.Between | src/components/DMChatArea.tsx:44-52 | a message is between two users exactly when its sender and recipient are those two users, in either order |
| DMChatArea.IsOwnMessage | src/components/DMChatArea.tsx:174 | no message counts as the user's own while the current user is unknown |
| DMChatArea.ThreadSides | src/components/DMChatArea.tsx:44-52 | in a thread with another user, an own message went to the friend and every other one came from the friend to the user |
| DMChatArea.ShowAvatar | src/components/DMChatArea.tsx:175 | the first message always has an avatar header; a message from the same sender as the one before has none |
| DMChatArea.SharedFilePath | src/components/DMChatArea.tsx:100 | 'dm-files/' followed by the file name alone |
| DMChatArea.SharedFilePathsCollide | src/components/DMChatArea.tsx:100 | two shared files get the same path exactly when their names are equal, whatever conversations they belong to |
| DMChatArea.ThreadSymmetric | src/components/DMChatArea.tsx:44-52 | both participants load the same thread |
| DMChatArea.ThreadAfterStore | src/components/DMChatArea.tsx:44-52 | a stored message between the two is appended to the thread; any other leaves it unchanged |
| DMChatArea.HeaderOwnsRun | src/components/DMChatArea.tsx:173-200 | every message sits in a run under one avatar header whose sender is its own, with no header in between |
| DMChatArea.SenderName | src/components/DMChatArea.tsx:77 | the display name when it is non-empty, the e-mail otherwise |
| DMChatArea.HeaderName | src/components/DMChatArea.tsx:192-195 | own messages are headed by the user's name, others by the friend's name |
| DMChatArea.TextDM | src/components/DMChatArea.tsx:67-73 | a text message from the user to the friend with no file |
| DMChatArea.FileDM | src/components/DMChatArea.tsx:102-111 | a shared file says 'Shared a file: <name>' and carries the URL, name and size |
| DMChatArea.Decorated | src/components/DMChatArea.tsx:75-79 | the local entry is the stored record plus the sender's name and avatar, and nothing else differs |
| DMChatArea.Conversation.constructor | src/components/DMChatArea.tsx:28-31 | empty thread and input, loading, no user |
| DMChatArea.Conversation.LoadMessages | src/components/DMChatArea.tsx:39-61 | the user is learnt first, then the thread replaces the list; loading ends on every path |
| DMChatArea.Conversation.SendMessage | src/components/DMChatArea.tsx:63-86 | sends exactly for a non-blank input with a known user when the create succeeds; then the trimmed message is stored, appended decorated and the input cleared; otherwise nothing changes |
| DMChatArea.Conversation.HandleFileUpload | src/components/DMChatArea.tsx:95-123 | no size or type check; upload then create, the message appended only when both succeed, a blob left behind by a failed create |
| DMChatArea.ReloadAfterSend | src/components/DMChatArea.tsx:63-86 | after a send, a reload ends with the stored message, which differs from the local entry only in name and avatar |
| VoxenLayout.AppliedTheme | src/components/VoxenLayout.tsx:27-44 | the palette applied to the page: the first profile's stored theme with each missing or empty colour replaced by its default, so no colour is empty; none without a profile or stored theme |
| VoxenLayout.SavedThemeIsApplied | src/components/VoxenLayout.tsx:27-44 | the colours the customiser saves are exactly the ones the layout applies on its next load |
| VoxenLayout.AppliedThemeMatchesCustomizer | src/components/VoxenLayout.tsx:27-44 | the layout applies the same palette the customiser shows for the same stored profiles |
| DMsSidebar.AcceptedOf | src/components/DMsSidebar.tsx:34-49 | a record is a friend exactly when the user sent it and it is accepted |
| DMsSidebar.PendingFor | src/components/DMsSidebar.tsx:51-66 | a record is a pending request exactly when it is addressed to the user and still pending |
| DMsSidebar.AcceptLeavesPending | src/components/DMsSidebar.tsx:92-100 | an accepted request is no longer in the accepter's pending list |
| DMsSidebar.AcceptJoinsRequesterFriends | src/components/DMsSidebar.tsx:92-100 | an accepted request joins the friends list of the user who sent it |
| DMsSidebar.AcceptSkipsAccepterFriends | src/components/DMsSidebar.tsx:34-49 | accepting leaves the accepter's own friends list unchanged, because the query only covers requests they sent |
| DMsSidebar.RejectRemovesEverywhere | src/components/DMsSidebar.tsx:102-109 | a rejected request is gone from every user's pending and friends lists |
| DMsSidebar.FilteredFriends | src/components/DMsSidebar.tsx:111-113 | a friend is shown exactly when it has a name that contains the query, ignoring case, in list order |
| DMsSidebar.ContainsEmpty | src/components/DMsSidebar.tsx:111-113 | the empty query occurs in every name |
| DMsSidebar.EmptyQueryShowsNamed | src/components/DMsSidebar.tsx:111-113 | an empty search shows every named friend |
| DMsSidebar.MatchesQuery | src/components/DMsSidebar.tsx:111-113 | a friend without a name never matches; a named friend matches the empty query and their own name |
| DMsSidebar.SearchIgnoresCase | src/components/DMsSidebar.tsx:111-113 | queries that differ only in letter case show the same friends |
| DMsSidebar.NameFindsFriend | src/components/DMsSidebar.tsx:111-113 | searching for a friend's full name finds that friend |
| DMsSidebar.ShownName | src/components/DMsSidebar.tsx:226 | the friend's name when it is non-empty, otherwise 'Unknown User', never empty |
| DMsSidebar.ClickHighlightsRow | src/components/DMsSidebar.tsx:223-229 | clicking a row selects its friend, which highlights that row and exactly the rows of the same friend |
| DMsSidebar.IsHighlighted | src/components/DMsSidebar.tsx:228 | a row is highlighted exactly when the selected conversation is its friend's |
| DMsSidebar.FriendsPanel.constructor | src/components/DMsSidebar.tsx:28-32 | empty lists and inputs, not adding |
| DMsSidebar.FriendsPanel.LoadFriends | src/components/DMsSidebar.tsx:34-49 | after the auth call and the query, the accepted friends replace the list; on failure nothing changes |
| DMsSidebar.FriendsPanel.LoadPendingRequests | src/components/DMsSidebar.tsx:51-66 | after the auth call and the query, the pending requests replace the list; on failure nothing changes |
| DMsSidebar.FriendsPanel.SendFriendRequest | src/components/DMsSidebar.tsx:68-90 | a blank address does nothing; otherwise one pending request from the user is stored and the input cleared when the calls succeed, and the busy flag ends false |
| DMsSidebar.FriendsPanel.AcceptFriendRequest | src/components/DMsSidebar.tsx:92-100 | the status becomes 'accepted' and both lists are reloaded; a failed update changes nothing |
| DMsSidebar.FriendsPanel.RejectFriendRequest | src/components/DMsSidebar.tsx:102-109 | the record is deleted and the pending list reloaded; a failed delete changes nothing |
| MemberList.MembersOf | src/components/MemberList.tsx:16-27 | a member is listed exactly when it belongs to the server |
| MemberList.RoleOf | src/components/MemberList.tsx:59 | the member's role when it is non-empty, otherwise 'member' |
| MemberList.RoleLabel | src/components/MemberList.tsx:67-70 | each of owner, admin and moderator has its own heading, and every other role is headed 'MEMBERS' |
| MemberList.WithRole | src/components/MemberList.tsx:58-63 | the members of one group are exactly the members with that role key |
| MemberList.WithRoleSnoc | src/components/MemberList.tsx:58-63 | appending a member extends exactly its own role's group |
| MemberList.GroupingStep | src/components/MemberList.tsx:59-62 | one reduce step (create the group if missing, push the member) keeps the map a grouping of the members seen so far |
| MemberList.GroupMembers | src/components/MemberList.tsx:58-63 | the reduce yields one entry per occurring role, each that role's members in list order; roles are treated as plain keys, so a role naming an inherited Object property, on which the source throws, is grouped like any other (see Left out) |
| MemberList.SectionsFor | src/components/MemberList.tsx:77-121 | each rendered group is non-empty, has its role's heading and its size as the count, and is that role's group |
| MemberList.Sections | src/components/MemberList.tsx:65-121 | at most four groups are rendered |
| MemberList.RolesOf | src/components/MemberList.tsx:77-121 | one role per rendered group |
| MemberList.SectionsForOrder | src/components/MemberList.tsx:77-79 | the groups are rendered in the order of the roles given, skipping the empty ones |
| MemberList.RolesOfConcat | src/components/MemberList.tsx:77-79 | the roles of two concatenated group lists are the concatenated roles |
| MemberList.DisplayOrder | src/components/MemberList.tsx:65-79 | the groups appear in the order owner, admin, moderator, member, and exactly the non-empty ones appear |
| MemberList.SectionsAreGroups | src/components/MemberList.tsx:77-88 | each displayed group is exactly the members of its role, in list order, with its size |
| MemberList.SectionsForCover | src/components/MemberList.tsx:77-88 | a member whose role is among the roles given is in some rendered group |
| MemberList.DisplayedMembers | src/components/MemberList.tsx:58-88 | a member is displayed exactly when its role key is one of the four known roles |
| MemberList.RoleColor | src/components/MemberList.tsx:48-55 | each staff role has its own colour; every other role, and a missing one, has the grey default |
| MemberList.IconFor | src/components/MemberList.tsx:39-46 | an icon exactly for the three staff roles: crown, shield, shield-check, in the role's colour |
| MemberList.Subtitle | src/components/MemberList.tsx:110-114 | 'Server Owner', 'Administrator', 'Moderator', otherwise 'Online' |
| MemberList.MissingRoleLooksLikeMember | src/components/MemberList.tsx:39-114 | a member without a role is grouped, coloured and labelled like an explicit 'member' |
| MemberList.MemberPanel.constructor | src/components/MemberList.tsx:14 | no members |
| MemberList.MemberPanel.LoadMembers | src/components/MemberList.tsx:16-27 | with a server, its members replace the list; without one or on failure nothing changes |
| MemberList.MemberPanel.Render | src/components/MemberList.tsx:57-121 | when the grouping does not throw: the rendered groups are in role order, each is its role's members with their count, and a member is shown exactly when its role is one of the four; a list holding a role named after an inherited Object property makes the source throw instead (see Left out) |
| ChannelSidebar.ChannelsOfKind | src/components/ChannelSidebar.tsx:33-34 | exactly the listed channels of the given kind ('text' for the text section, 'voice' for the voice section), never more than the listing |
| ChannelSidebar.OtherChannels | src/components/ChannelSidebar.tsx:33-34 | exactly the channels of neither kind, which no section shows |
| ChannelSidebar.Partition | src/components/ChannelSidebar.tsx:33-34 | no channel is in both sections, a channel of another kind is in neither, and text, voice and other counts add up to the whole list |
| ChannelSidebar.SectionsKeepOrder | src/components/ChannelSidebar.tsx:33-34 | for every kind, the section of a concatenated listing is the concatenation of the sections, so each section keeps the listing's order |
| ChannelSidebar.ClickHighlightsRow | src/components/ChannelSidebar.tsx:61-68 | clicking a row selects it in the layout, which highlights it and exactly the rows with its id |
| ChannelSidebar.IsHighlighted | src/components/ChannelSidebar.tsx:66 | a row is highlighted exactly when a channel with its id is selected, so none is while no channel is selected |
| ChannelSidebar.Render | src/components/ChannelSidebar.tsx:25-40 | the placeholder exactly without a server; otherwise its name and the two sections |
| ChannelSidebar.Sections.constructor | src/components/ChannelSidebar.tsx:22-23 | both sections start open |
| ChannelSidebar.Sections.SetTextOpen | src/components/ChannelSidebar.tsx:49 | the text section takes the new state; the voice section is untouched |
| ChannelSidebar.Sections.SetVoiceOpen | src/components/ChannelSidebar.tsx:78 | the voice section takes the new state; the text section is untouched |
| ThemeCustomizer.PresetTable | src/components/ThemeCustomizer.tsx:46-95 | eight presets with pairwise different names, the first being 'Voxen Default' with the default colours |
| ThemeCustomizer.Serialize | src/components/ThemeCustomizer.tsx:113-117 | the saved theme holds all three colours |
| ThemeCustomizer.Fill | src/components/ThemeCustomizer.tsx:31-36 | each stored colour that is non-empty is used, each missing or empty one becomes its default, so no colour is empty |
| ThemeCustomizer.RoundTrip | src/components/ThemeCustomizer.tsx:113-117 | a palette of non-empty colours reads back unchanged after it is serialised |
| ThemeCustomizer.EmptyThemeIsDefault | src/components/ThemeCustomizer.tsx:31-36 | a stored theme with no usable colour reads as the default palette |
| ThemeCustomizer.ThemeProfile | src/components/ThemeCustomizer.tsx:130-135 | the profile created on save belongs to the user, is named after the e-mail's local part and carries the theme |
| ThemeCustomizer.SaveThenLoad | src/components/ThemeCustomizer.tsx:109-136 | saving non-empty colours and loading them again restores them, whether the save updated or created the profile |
| ThemeCustomizer.SavedProfiles | src/components/ThemeCustomizer.tsx:109-136 | a save adds a profile exactly when the user had none, and every existing profile keeps its id and its owner |
| ThemeCustomizer.LoadedPalette | src/components/ThemeCustomizer.tsx:24-40 | without a profile, or when the first profile holds no theme, the colours on screen stay; otherwise the first profile's stored theme with defaults filled in, so all three colours are non-empty |
| ThemeCustomizer.SaveKeepsOtherUsers | src/components/ThemeCustomizer.tsx:119-136 | every profile another user has after a save was theirs before, and every profile they had before is still theirs; each is unchanged or, when it shares the saved profile's id, re-themed |
| ThemeCustomizer.ThemedProfilesCameFromBefore | src/components/ThemeCustomizer.tsx:126-129 | after a theme update by id, each of a user's profiles is one of theirs from before, unchanged or re-themed |
| ThemeCustomizer.ProfilesBeforeSurviveTheming | src/components/ThemeCustomizer.tsx:126-129 | after a theme update by id, each profile a user had before is still theirs, unchanged or re-themed |
| ThemeCustomizer.Customizer.constructor | src/components/ThemeCustomizer.tsx:18-21 | the default colours, not saving |
| ThemeCustomizer.Customizer.ApplyPreset | src/components/ThemeCustomizer.tsx:97-101 | exactly the preset's three colours are taken over |
| ThemeCustomizer.Customizer.SetPrimary | src/components/ThemeCustomizer.tsx:216-226 | only the primary colour changes |
| ThemeCustomizer.Customizer.SetAccent | src/components/ThemeCustomizer.tsx:238-248 | only the accent colour changes |
| ThemeCustomizer.Customizer.SetBackground | src/components/ThemeCustomizer.tsx:260-270 | only the background colour changes |
| ThemeCustomizer.Customizer.ResetToDefault | src/components/ThemeCustomizer.tsx:103-107 | the default colours, equal to the first preset |
| ThemeCustomizer.Customizer.LoadUserTheme | src/components/ThemeCustomizer.tsx:24-40 | the first profile's stored theme, filled in with defaults; unchanged without a profile, a theme, or on failure |
| ThemeCustomizer.Customizer.SaveTheme | src/components/ThemeCustomizer.tsx:109-160 | the first profile's theme is updated, or a profile holding it created, only when the query and the write succeed; the colours on screen stay and saving ends false |
| UserPanel.StatusColor | src/components/UserPanel.tsx:20-27 | green, yellow and red exactly for online, away and busy; gray for every other status |
| UserPanel.StatusOf | src/components/UserPanel.tsx:40-48 | no status while the profile is not loaded, the profile's status once it is |
| UserPanel.DisplayNameOf | src/components/UserPanel.tsx:37-45 | no name while the profile is not loaded, the profile's display name once it is |
| UserPanel.DotColor | src/components/UserPanel.tsx:40 | a missing or empty status is coloured as 'online' |
| UserPanel.StatusText | src/components/UserPanel.tsx:47-49 | the stored status, or 'Online' when it is missing or empty; never empty |
| UserPanel.PanelName | src/components/UserPanel.tsx:44-46 | the display name, else the e-mail's local part, else 'User'; never empty |
| UserPanel.Initial | src/components/UserPanel.tsx:36-38 | the upper-cased first letter of the display name, else of the e-mail, else 'U' |
| UserPanel.InitialOfShownName | src/components/UserPanel.tsx:36-46 | the avatar letter is the upper-cased first letter of the name beside it whenever that name comes from the profile or a non-empty local part |
| UserPanel.NoProfileDefaults | src/components/UserPanel.tsx:36-49 | before the profile loads the panel shows the e-mail's local part, a green dot and 'Online' |
| UserProfileDialog.FormFor | src/components/UserProfileDialog.tsx:42-52 | a stored profile fills name, bio and status with '', '' and 'online' for missing values; without one only the name changes, to the e-mail's local part or ''; without a user nothing changes |
| UserProfileDialog.KeptAvatar | src/components/UserProfileDialog.tsx:150 | the stored avatar URL when it is non-empty, otherwise null |
| UserProfileDialog.KeptBackground | src/components/UserProfileDialog.tsx:151 | the stored background URL when it is non-empty, otherwise null |
| UserProfileDialog.AvatarPath | src/components/UserProfileDialog.tsx:158 | avatars are stored under 'avatars/'; the body is Uploads.KeyedPath, which puts the user's id, '_' and the file name after the folder |
| UserProfileDialog.BackgroundPath | src/components/UserProfileDialog.tsx:172 | backgrounds are stored under 'profile-backgrounds/'; the body is Uploads.KeyedPath, which puts the user's id, '_' and the file name after the folder |
| Uploads.KeyedPath | src/components/UserProfileDialog.tsx:158 | the storage path is the folder, the key, '_' and the file name, each at its fixed position |
| UserProfileDialog.UploadPaths | src/components/UserProfileDialog.tsx:154-179 | one upload per chosen file, the avatar's first and the background's last |
| UserProfileDialog.WrittenProfiles | src/components/UserProfileDialog.tsx:184-202 | an existing profile is updated in place with the trimmed name, the bio or null, the status and both URLs, every other profile unchanged; otherwise one profile holding them is appended for the user |
| UserProfileDialog.WriteProfile | src/components/UserProfileDialog.tsx:184-202 | the stored profiles become exactly the written profiles and nothing else in the store changes |
| UserProfileDialog.UploadAndWrite | src/components/UserProfileDialog.tsx:149-204 | the uploads that succeed are stored in order, the profile is written only when every call succeeds, and the bar values are those of the upload run |
| UserProfileDialog.WriteAfterUploads | src/components/UserProfileDialog.tsx:181-204 | after all uploads the bar shows 90; the profile is written, and the bar shows 100, only when the write succeeds |
| UserProfileDialog.AfterSave | src/components/UserProfileDialog.tsx:146-204 | only the blobs and the profiles change; at most two blobs are added after the stored ones; the profiles stay as they were unless every upload succeeded |
| UserProfileDialog.SavedProfileIsShown | src/components/UserProfileDialog.tsx:184-202 | after a save the user panel shows the trimmed name, the chosen status and that status's colour |
| UserProfileDialog.UneditedSaveRewritesProfile | src/components/UserProfileDialog.tsx:42-202 | opening the dialog on a profile already in saved form and saving without edits writes that profile's own values back |
| UserProfileDialog.RemovedAvatarComesBack | src/components/UserProfileDialog.tsx:120-165 | after the remove button, a save without a new file writes the stored avatar URL back |
| UserProfileDialog.StatusOptionColors | src/components/UserProfileDialog.tsx:227-234 | the four status options get green, yellow, red and gray, a different colour each |
| UserProfileDialog.ProfileEditor.constructor | src/components/UserProfileDialog.tsx:29-37 | empty name and bio, status 'online', no files or previews, not uploading, bar at 0 |
| UserProfileDialog.ProfileEditor.Sync | src/components/UserProfileDialog.tsx:42-52 | the form becomes FormFor, the previews take the stored URLs or null when a profile is given, and picked files stay |
| UserProfileDialog.ProfileEditor.HandleAvatarUpload | src/components/UserProfileDialog.tsx:54-85 | no file does nothing; a file over 10 MiB or not an image is rejected and changes nothing; an accepted one becomes the avatar file and its preview |
| UserProfileDialog.ProfileEditor.HandleBackgroundUpload | src/components/UserProfileDialog.tsx:87-118 | no file does nothing; a file over 100 MiB or neither image nor video is rejected and changes nothing; an accepted one becomes the background file and its preview |
| UserProfileDialog.ProfileEditor.RemoveAvatar | src/components/UserProfileDialog.tsx:120-126 | the avatar file and preview are cleared and nothing else changes |
| UserProfileDialog.ProfileEditor.RemoveBackground | src/components/UserProfileDialog.tsx:128-134 | the background file and preview are cleared and nothing else changes |
| UserProfileDialog.ProfileEditor.SaveProfile | src/components/UserProfileDialog.tsx:136-225 | a blank name changes nothing; otherwise the uploads and the write happen as far as the calls succeed, the save succeeds exactly when all do, the bar follows the save trace and ends at 0, and the form is kept |
| Uploads.Check | src/components/UserProfileDialog.tsx:58-76 | too large exactly when over the ceiling; accepted exactly when within it and of an allowed type; wrong type otherwise |
| Uploads.IconCheck | src/components/UserProfileDialog.tsx:58-76 | an image or server icon is accepted exactly when it is at most 10 MiB and its type starts with 'image/' |
| Uploads.BackgroundCheck | src/components/UserProfileDialog.tsx:91-109 | a background is accepted exactly when it is at most 100 MiB and an image or a video |
| Uploads.IsImage | src/components/UserProfileDialog.tsx:69 | the type starts with 'image/', and such a file is never also a video |
| Uploads.IsVideo | src/components/UserProfileDialog.tsx:102 | the type starts with 'video/' |
| Uploads.CeilingsAreInclusive | src/components/UserProfileDialog.tsx:59-60 | a file exactly at a ceiling is accepted and one byte more is too large |
| Uploads.FirstUploadProgress | src/components/UserProfileDialog.tsx:161 | the first upload's percentages map onto 20..50 |
| Uploads.SecondUploadProgress | src/components/UserProfileDialog.tsx:175 | the second upload's percentages map onto 50..90 |
| Uploads.FirstPhase | src/components/UserProfileDialog.tsx:161 | one bar value per reported percentage, all within 20..50 |
| Uploads.SecondPhase | src/components/UserProfileDialog.tsx:175 | one bar value per reported percentage, all within 50..90 |
| Uploads.UploadCount | src/components/UserProfileDialog.tsx:154-179 | at most two uploads, none exactly when no file is chosen |
| Uploads.FirstSegment | src/components/UserProfileDialog.tsx:154-163 | a chosen first file shows 20 and then its phase, all within 20..50 |
| Uploads.SecondSegment | src/components/UserProfileDialog.tsx:168-177 | a chosen second file's values lie within 50..90 |
| Uploads.Opening | src/components/UserProfileDialog.tsx:146-163 | the bar starts at 0 and, with a first file, goes to 20 and follows its phase |
| Uploads.Middle | src/components/UserProfileDialog.tsx:164-179 | nothing after a failed first upload; otherwise values within 50..90 |
| Uploads.Closing | src/components/UserProfileDialog.tsx:181-204 | 90 and 100 when the write succeeds, only 90 when it fails, nothing when an upload failed |
| Uploads.RunShape | src/components/UserProfileDialog.tsx:146-204 | a run starts at 0, goes through 20 and the first phase when there is a first file, and ends 90, 100 after a successful write |
| Uploads.SaveRun | src/components/UserProfileDialog.tsx:146-204 | every save run starts at 0 and ends at 100 once the record is written |
| Uploads.RunInBar | src/components/UserProfileDialog.tsx:146-204 | the bar stays within 0..100 and reaches 100 exactly when the record is written |
| Uploads.TwoUploadTrace | src/components/UserProfileDialog.tsx:146-224 | every save trace starts and ends at 0 and holds the run before the reset |
| Uploads.SegmentsRise | src/components/UserProfileDialog.tsx:154-179 | with rising percentages each upload segment rises |
| Uploads.RunRises | src/components/UserProfileDialog.tsx:146-204 | with rising percentages the bar never moves back before the final reset |
| Uploads.FinalUrl | src/components/UserProfileDialog.tsx:150-179 | a newly chosen file's uploaded URL, otherwise the kept URL |
| Uploads.IntendedUrl | src/components/UserProfileDialog.tsx:120-179 | a new file's URL, no image after a removal, the stored URL otherwise |
| Uploads.IntendedUrlMatchesPreview | src/components/UserProfileDialog.tsx:42-179 | with the intended URL, the next opening shows an image exactly when the dialog showed one at save time, whether the preview was the stored image, was removed, or is a new pick: a removal sticks and a kept image stays |
| Uploads.Chosen | src/components/UserProfileDialog.tsx:154-179 | the chosen paths in upload order, one per chosen file |
| Uploads.UploadInOrder | src/components/UserProfileDialog.tsx:153-179 | the chosen files are uploaded in order up to the first failure, the stored blobs grow by exactly those, and the bar follows opening and middle |
| Uploads.AttachmentCheck | src/components/MainChatArea.tsx:82-92 | an attachment is never refused for its type and is accepted exactly when it is at most 600 MiB |
| Uploads.CreateIconProgress | src/components/CreateServerDialog.tsx:101 | the icon upload's percentages map onto 25..75 |
| Uploads.CreateIconPhase | src/components/CreateServerDialog.tsx:101 | one bar value per reported percentage, all within 25..75 |
| Uploads.PhasesRise | src/components/UserProfileDialog.tsx:161-175 | rising percentages give rising bar values in every phase |
| ServerSettingsDialog.FormFor | src/components/ServerSettingsDialog.tsx:40-47 | the stored name, and the stored description or '' when there is none |
| ServerSettingsDialog.ControlsFor | src/components/ServerSettingsDialog.tsx:209-401 | nothing is rendered without a server; the text fields are enabled only for the owner when not saving; image buttons and footer exist only for the owner; Save is enabled exactly for a non-blank name when not saving |
| ServerSettingsDialog.IsOwner | src/components/ServerSettingsDialog.tsx:211 | the user owns the server exactly when the server's ownerId is the user's id |
| ServerSettingsDialog.OnlyOwnerCanSave | src/components/ServerSettingsDialog.tsx:211-401 | Save is shown and enabled exactly for the owner with a non-blank name and no save running; anyone else gets locked fields and no buttons |
| ServerSettingsDialog.IconPath | src/components/ServerSettingsDialog.tsx:153 | icons are stored under 'server-icons/'; the body is Uploads.KeyedPath, which puts the server's id, '_' and the file name after the folder |
| ServerSettingsDialog.BackgroundPath | src/components/ServerSettingsDialog.tsx:167 | backgrounds are stored under 'server-backgrounds/'; the body is Uploads.KeyedPath, which puts the server's id, '_' and the file name after the folder |
| ServerSettingsDialog.UploadPaths | src/components/ServerSettingsDialog.tsx:149-174 | one upload per chosen file, the icon's first and the background's last |
| ServerSettingsDialog.UpdatedServers | src/components/ServerSettingsDialog.tsx:145-184 | the edited server gets the trimmed name, the description or null, and each image's new URL or its stored one; id, owner and theme stay, and every other server is unchanged |
| ServerSettingsDialog.UneditedSaveKeepsServers | src/components/ServerSettingsDialog.tsx:40-184 | opening the dialog and saving without edits leaves every server as it was when the stored values are already trimmed |
| ServerSettingsDialog.UploadAndUpdate | src/components/ServerSettingsDialog.tsx:144-186 | the uploads that succeed are stored in order, the server is updated only when every call succeeds, and the bar values are those of the upload run |
| ServerSettingsDialog.UpdateAfterUploads | src/components/ServerSettingsDialog.tsx:176-186 | after all uploads the bar shows 90; the server is updated, and the bar shows 100, only when the update succeeds |
| ServerSettingsDialog.AfterSave | src/components/ServerSettingsDialog.tsx:141-186 | only the blobs and the servers change; at most two blobs are added after the stored ones; the servers stay as they were unless every upload succeeded |
| ServerSettingsDialog.RemovedIconComesBack | src/components/ServerSettingsDialog.tsx:115-184 | after the remove button, a save without a new file writes the stored icon URL back |
| ServerSettingsDialog.SettingsEditor.constructor | src/components/ServerSettingsDialog.tsx:28-35 | empty form, no files or previews, not uploading, bar at 0 |
| ServerSettingsDialog.SettingsEditor.Sync | src/components/ServerSettingsDialog.tsx:40-47 | with a server the form becomes FormFor and the previews take the stored URLs or null; without one nothing changes; picked files stay |
| ServerSettingsDialog.SettingsEditor.HandleIconUpload | src/components/ServerSettingsDialog.tsx:49-80 | no file does nothing; a file over 10 MiB or not an image is rejected and changes nothing; an accepted one becomes the icon file and its preview |
| ServerSettingsDialog.SettingsEditor.HandleBackgroundUpload | src/components/ServerSettingsDialog.tsx:82-113 | no file does nothing; a file over 100 MiB or neither image nor video is rejected and changes nothing; an accepted one becomes the background file and its preview |
| ServerSettingsDialog.SettingsEditor.RemoveIcon | src/components/ServerSettingsDialog.tsx:115-121 | the icon file and preview are cleared and nothing else changes |
| ServerSettingsDialog.SettingsEditor.RemoveBackground | src/components/ServerSettingsDialog.tsx:123-129 | the background file and preview are cleared and nothing else changes |
| ServerSettingsDialog.SettingsEditor.SaveSettings | src/components/ServerSettingsDialog.tsx:131-207 | a blank name changes nothing; otherwise the uploads and the update happen as far as the calls succeed, the save succeeds exactly when all do, the bar follows the save trace and ends at 0, and the form is kept |
| CreateServerDialog.IconCalls | src/components/CreateServerDialog.tsx:94-105 | one upload call when an icon was chosen, none otherwise |
| CreateServerDialog.NewServerFields | src/components/CreateServerDialog.tsx:111-122 | the new server has the given id, owner and icon URL and no background; its name is the trimmed name, empty exactly when the typed name is blank, with no space at either end; its description is null exactly when the typed one is blank |
| CreateServerDialog.NewServerTheme | src/components/CreateServerDialog.tsx:117-121 | the new server's theme reads back as the default palette |
| CreateServerDialog.IconPath | src/components/CreateServerDialog.tsx:96-98 | icons are stored under 'server-icons/'; the body is Uploads.KeyedPath, which puts the clock stamp, '_' and the file name after the folder |
| CreateServerDialog.SameAsFirstServer | src/components/CreateServerDialog.tsx:111-122 | a server created as 'My First Server' with 'Welcome to Voxen!' and no icon is the record the layout seeds for a new user |
| CreateServerDialog.CreatorOwnsServer | src/components/CreateServerDialog.tsx:116 | on both creation paths the creator, and no other user, is the owner the settings dialog unlocks its controls for |
| CreateServerDialog.IconSegment | src/components/CreateServerDialog.tsx:94-105 | with an icon the bar shows 25 and then the upload's values, all within 25..75; without one nothing |
| CreateServerDialog.CreateClosing | src/components/CreateServerDialog.tsx:107-149 | 75 once the icon step is through, then 100 exactly when all four records are created |
| CreateServerDialog.CreateRunInBar | src/components/CreateServerDialog.tsx:87-149 | the bar stays within 0..100 and reaches 100 exactly when every record is written |
| CreateServerDialog.CreateRun | src/components/CreateServerDialog.tsx:87-149 | every creation run starts at 0 and ends at 100 once all four records are written |
| CreateServerDialog.CreateTrace | src/components/CreateServerDialog.tsx:87-173 | every creation trace starts and ends at 0 |
| CreateServerDialog.CreateTraceInBar | src/components/CreateServerDialog.tsx:87-173 | every creation's trace starts and ends at 0 and stays within 0..100 |
| CreateServerDialog.OpeningRises | src/components/CreateServerDialog.tsx:87-107 | with rising percentages the bar rises up to 75 |
| CreateServerDialog.CreateRunRises | src/components/CreateServerDialog.tsx:87-149 | with rising percentages the bar never moves back before the final reset |
| CreateServerDialog.CreatedRecords | src/components/CreateServerDialog.tsx:111-147 | a creation that succeeds appends exactly the server, the owner membership and the 'general' and 'General Voice' channels |
| CreateServerDialog.AfterIcon | src/components/CreateServerDialog.tsx:93-105 | only the blobs change, by at most the icon; without an icon or with a failed upload nothing changes |
| CreateServerDialog.AfterCreate | src/components/CreateServerDialog.tsx:87-149 | with no successful call nothing changes; at most one server is added after the stored ones; profiles, messages and friends are untouched |
| CreateServerDialog.DefaultSections | src/components/CreateServerDialog.tsx:133-147 | the two default channels fall one into the text section and one into the voice section |
| CreateServerDialog.CreatedServerIsUsable | src/components/CreateServerDialog.tsx:111-147 | after a successful creation the server is listed for its creator, with 'general' as its only text channel, 'General Voice' as its only voice channel and the creator as owner |
| CreateServerDialog.OrphanServerIsHidden | src/components/CreateServerDialog.tsx:111-130 | when the membership create fails the server record stays stored but the creator's server list does not show it |
| CreateServerDialog.UploadIcon | src/components/CreateServerDialog.tsx:91-105 | the icon is uploaded when chosen; the step gets through exactly when that call succeeds, and the URL recorded is the uploaded one or none |
| CreateServerDialog.CreateRecords | src/components/CreateServerDialog.tsx:109-147 | the four records are created in order up to the first failure; the creation succeeds exactly when all four are stored |
| CreateServerDialog.UploadAndCreate | src/components/CreateServerDialog.tsx:90-149 | the icon upload and the four creates happen as far as the calls succeed, the creation succeeds exactly when all do, and the bar follows the creation run |
| CreateServerDialog.ServerCreator.constructor | src/components/CreateServerDialog.tsx:25-30 | empty form, no icon or preview, not uploading, bar at 0 |
| CreateServerDialog.ServerCreator.HandleIconUpload | src/components/CreateServerDialog.tsx:34-67 | no file does nothing; a file over 10 MiB or not an image is rejected and changes nothing; an accepted one becomes the icon file and its preview |
| CreateServerDialog.ServerCreator.RemoveIcon | src/components/CreateServerDialog.tsx:69-75 | the icon file and preview are cleared and nothing else changes |
| CreateServerDialog.ServerCreator.Finish | src/components/CreateServerDialog.tsx:156-173 | a successful creation clears the name, description, icon and preview; a failed one keeps them; either way uploading ends and the bar returns to 0 |
| CreateServerDialog.ServerCreator.CreateNamed | src/components/CreateServerDialog.tsx:87-173 | for a non-blank name: the store holds what the calls that succeeded wrote, the trace is the creation trace, and the form is cleared exactly when the creation succeeded |
| CreateServerDialog.ServerCreator.CreateServer | src/components/CreateServerDialog.tsx:77-174 | a blank name changes nothing; otherwise the creation succeeds exactly when every call does, the store and trace are as above, uploading ends with the bar at 0, and the form is cleared only on success |
| Base.Filter | src/components/ChannelSidebar.tsx:33-34 | `filter` keeps exactly the elements that pass, never more than it was given |
| Base.FilterConcat | src/components/ChannelSidebar.tsx:33-34 | filtering keeps relative order: the filter of a concatenation is the concatenation of the filters |
| Base.FilterDisjoint | src/components/ChannelSidebar.tsx:33-34 | two filters that never both hold select at most all elements between them, and exactly all when one of them always holds |
| Base.FilterKeepsAll | src/components/ChannelSidebar.tsx:33-34 | a filter that everything passes returns its input |
| Base.FilterKeepsNone | src/components/ChannelSidebar.tsx:33-34 | a filter that nothing passes returns nothing |
| Base.MapWhere | src/components/DMsSidebar.tsx:94 | an update by id patches exactly the selected records, keeps every other one, and keeps the length |
| Base.FirstN | src/components/MainChatArea.tsx:34-38 | a query limit returns a prefix of the ordered result of length min(n, size) |
| Text.TrimStart | src/components/MainChatArea.tsx:53 | a suffix of the input that does not start with whitespace; only whitespace was dropped |
| Text.TrimEnd | src/components/MainChatArea.tsx:53 | a prefix of the input that does not end with whitespace; only whitespace was dropped |
| Text.Trim | src/components/MainChatArea.tsx:46-53 | never longer than the input; empty exactly when the input is all whitespace; otherwise neither end is whitespace |
| Text.TrimParts | src/components/MainChatArea.tsx:53 | the trimmed text is the input with only leading and trailing whitespace removed |
| Text.TrimIsInfix | src/components/MainChatArea.tsx:53 | the trimmed text is a contiguous piece of the input |
| Text.TrimIdempotent | src/components/ServerSettingsDialog.tsx:180 | trimming a trimmed text changes nothing |
| Text.NullIfBlank | src/components/ServerSettingsDialog.tsx:181 | null exactly for a blank text, otherwise the non-empty trimmed text |
| Text.BlankIsEmptyTrim | src/components/MainChatArea.tsx:46 | a text is blank exactly when `trim()` leaves nothing, the guard of every submit handler |
| Text.UpperChar | src/components/UserPanel.tsx:37 | upper-casing gives no lower-case ASCII letter and keeps the letter's identity under folding |
| Text.ToLower | src/components/DMsSidebar.tsx:111-113 | same length, every ASCII capital folded and nothing else changed |
| Text.ContainsAt | src/components/DMsSidebar.tsx:112 | an occurrence at any position makes `includes` true |
| Text.ContainsWitness | src/components/DMsSidebar.tsx:112 | when `includes` holds there is a position where the text occurs |
| Text.Contains | src/components/DMsSidebar.tsx:112 | `includes` can hold only when the query is no longer than the text, and holds whenever the text starts with the query |
| Text.BeforeAt | src/components/UserPanel.tsx:45 | `split('@')[0]` is a prefix without '@', the whole text or followed by '@' |
| Text.Or | src/components/UserPanel.tsx:45 | JavaScript `or` over optional strings: the first when it is a non-empty string, otherwise the second; the result is non-empty exactly when one of them is |
| Text.OrNull | src/components/UserProfileDialog.tsx:47-48 | falling back to null keeps a non-empty string and turns a missing or empty one into null |
| Text.OrElse | src/components/UserProfileDialog.tsx:44-46 | falling back to a default keeps a non-empty string, otherwise the fallback; non-empty whenever the fallback is |
| Text.Truthy | src/components/DMsSidebar.tsx:241 | JavaScript truthiness of an optional string: false for exactly the missing value and the empty string |
| Text.EmailName | src/components/ThemeCustomizer.tsx:133 | the e-mail's local part when it is non-empty, otherwise 'User'; never empty |
| Text.EmailNameOfAddress | src/components/ThemeCustomizer.tsx:133 | for an address local@domain whose local part is non-empty and has no '@', the name is that local part |
| Text.LocalPartBeforeAt | src/components/UserProfileDialog.tsx:50 | for local@domain with no '@' in local, `split('@')[0]` is local |
| Gateway.WithFriendStatus | src/components/DMsSidebar.tsx:94 | the friend records with the id get the new status; all others and the order stay |
| Gateway.WithoutFriend | src/components/DMsSidebar.tsx:104 | exactly the friend records without the id remain |
| Gateway.WithServerFields | src/components/ServerSettingsDialog.tsx:179-184 | the servers with the id get the four patched fields; all others and the order stay |
| Gateway.WithProfileFields | src/components/UserProfileDialog.tsx:185-191 | the profiles with the id get the five patched fields; all others and the order stay |
| Gateway.WithProfileTheme | src/components/ThemeCustomizer.tsx:126-128 | the profiles with the id get the new theme; all others and the order stay |
| Gateway.ProfilesOf | src/components/ThemeCustomizer.tsx:26-29 | exactly the stored profiles of the user |
| Gateway.FirstProfileIsOnlyProfile | src/components/ThemeCustomizer.tsx:130-136 | a profile created for a user who had none is then that user's only profile |
| Gateway.OtherUsersProfilesUnchanged | src/components/ThemeCustomizer.tsx:130-136 | a profile created for one user does not appear in another user's query |
| Gateway.ThemeUpdateReachesFirstProfile | src/components/ThemeCustomizer.tsx:120-128 | updating the theme of the user's first profile by its id leaves that profile first in the user's query, with the new theme |
| Gateway.FirstProfileThemed | src/components/ThemeCustomizer.tsx:120-128 | the same, for any id that is the first profile's |
| Gateway.SeededUpTo | src/components/VoxenLayout.tsx:49-83 | none, some or all of the server, membership and two channels, in that order; nothing when no call succeeds, all four when four do; blobs, profiles and messages untouched |
| Gateway.OwnerMembership | src/components/VoxenLayout.tsx:62-67 | the membership ties the given server and user with the role 'owner' |
| Gateway.GeneralChannel | src/components/VoxenLayout.tsx:70-76 | the text channel 'general' of the server, at position 0 |
| Gateway.GeneralVoiceChannel | src/components/VoxenLayout.tsx:78-84 | the voice channel 'General Voice' of the server, at position 1 |
| Gateway.Seeded | src/components/VoxenLayout.tsx:46-84 | one server, one membership and two channels of that server are appended after the stored records, and nothing else changes |
| Gateway.SeedServer | src/components/VoxenLayout.tsx:46-88 | the server, owner membership, 'general' and 'General Voice' are created in order up to the first failure; the seeding succeeds exactly when all four are written |
| Gateway.Store.constructor | src/components/VoxenLayout.tsx:29-33 | an empty store |
| Gateway.Store.Upload | src/components/MainChatArea.tsx:97 | the uploaded path is added to the stored blobs and nothing else changes |
| Gateway.Store.CreateServer | src/components/CreateServerDialog.tsx:111 | the server record is appended and nothing else changes |
| Gateway.Store.CreateMember | src/components/CreateServerDialog.tsx:125 | the membership is appended and nothing else changes |
| Gateway.Store.CreateChannel | src/components/CreateServerDialog.tsx:133 | the channel is appended and nothing else changes |
| Gateway.Store.CreateMessage | src/components/MainChatArea.tsx:49 | the message is appended and nothing else changes |
| Gateway.Store.CreateDirectMessage | src/components/DMChatArea.tsx:73 | the direct message is appended and nothing else changes |
| Gateway.Store.CreateFriend | src/components/DMsSidebar.tsx:76 | the friend record is appended and nothing else changes |
| Gateway.Store.UpdateFriendStatus | src/components/DMsSidebar.tsx:94 | only the friend records are patched, by id |
| Gateway.Store.DeleteFriend | src/components/DMsSidebar.tsx:104 | only the friend records change, losing those with the id |
| Gateway.Store.UpdateServer | src/components/ServerSettingsDialog.tsx:179 | only the server records are patched, by id |
| Gateway.Store.CreateProfile | src/components/UserProfileDialog.tsx:193 | the profile is appended and nothing else changes |
| Gateway.Store.UpdateProfile | src/components/UserProfileDialog.tsx:185 | only the profile records are patched, by id |
| Gateway.Store.UpdateProfileTheme | src/components/ThemeCustomizer.tsx:126 | only the profiles' themes are patched, by id |

## Left out

- Rendering: JSX layout, CSS classes other than the status and role colours, icons, toasts, `alert`, `console.error`, scrolling, tooltips and the file-size and time formatters. They only present values the model computes.
- Concurrency: the handlers are async, and React may interleave them or batch state updates. Each handler is modelled as running to completion on its own, with its awaited calls in source order.
- `FileReader`: the preview is set in a later callback. The model sets it at once to the data URL, which is a parameter.
- Progress bar: the component state keeps only the value it ends with, which is always 0. The full sequence of values is the returned trace.
- MainChatArea.ChatArea.HandleFileUpload: the values the bar takes during the upload are not traced. That bar is the raw percentage with no sub-ranges, and only the final reset to 0 is stated.
- JSON: the serialised `themeColors` string is a record of three optional colours. A value that `JSON.parse` rejects is not modelled. Both loaders catch that error and change nothing, which is the same as a failed query.
- Case folding: `toLowerCase` and `toUpperCase` are modelled for ASCII letters only. JavaScript folds all of Unicode.
- Channel order: the listing of `channels.list` ordered by position is a parameter, required to be the server's channels sorted by position. The gateway's sort is not re-implemented.
- Reloads after a write (`loadFriends`, `onServerUpdated`, `onProfileUpdate`, `onServerCreated`) run the modelled query on the new store and are assumed to succeed.
- DMsSidebar.FriendsPanel.SendFriendRequest: the typed address is only checked for blankness. The source stores a request to a made-up user id, so the target id is a parameter and the address is not used.
- MemberList.GroupMembers, MemberList.MemberPanel.Render: the source groups into a plain `{}` (MemberList.tsx:58-63), so a role naming an inherited Object property (`constructor`, `toString`, `valueOf`, `hasOwnProperty`, `__proto__` and the other `Object.prototype` members) finds a truthy non-array value, `push` throws a TypeError and the list does not render. The model's map has no inherited keys and groups such a role like any other, so for such lists it shows groups where the source shows nothing.
- MemberList: every row shows the signed-in user's e-mail name and initial (MemberList.tsx:96-106), not the member's. Row text is not modelled; the grouping, colours, icons and subtitles are.
- CreateServerDialog: the enabled state of its buttons (CreateServerDialog.tsx:210-283) is not modelled. It follows the same rule as the settings dialog's Save button, which ServerSettingsDialog.ControlsFor states.
- ServerSettingsDialog.SettingsEditor.SaveSettings: ownership is enforced only by hiding the controls (ServerSettingsDialog.ControlsFor). The save itself does not check it, and neither does the model.
- UserPanel: the flags that open the profile and theme dialogs, and the logout button, are not modelled. They only open other components or leave the session.
- The video preview test (`includes('.mp4')`) in both dialogs only picks a display element and is not modelled.
- VoiceControls, ServerSidebar, AuthGuard, App and VoxenLogo are not part of this model.

## Findings

| source | as written | input that shows it | evidently intended | confidence | as-written member | corrected member |
|---|---|---|---|---|---|---|
| src/components/VoxenLayout.tsx:180-187 | selecting another server keeps the selected channel, and the channel reload selects the first channel only when none is selected | channel c of server A selected, then server B selected; after B's channels load, c stays selected though it is not among them | a server switch clears the channel so the reload selects the new server's first channel | high, not executed | VoxenLayout.StaleChannelAfterSwitch | VoxenLayout.CorrectedSwitchSelectsListedChannel |
| src/components/MainChatArea.tsx:34-38 | messages are listed oldest first with a limit of 100, so the page is the channel's oldest 100 | a channel with 100 stored messages; a message sent now is appended locally but never appears after a reload | the page shows the newest 100 messages in time order | medium, not executed | MainChatArea.ReloadHidesNewMessages | MainChatArea.LatestPageShowsSent |
| src/components/ServerSettingsDialog.tsx:115-184 | the remove button clears the icon's file and preview, but the save writes `server.iconUrl` whenever no new file is chosen | a server with a stored icon: remove it, then save; the stored icon URL is written back and reappears | removing the preview removes the stored image; the profile dialog's avatar and background behave the same way (UserProfileDialog.tsx:120-165) | high, not executed | ServerSettingsDialog.RemovedIconComesBack | Uploads.IntendedUrlMatchesPreview |
