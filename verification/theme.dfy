/** The theme customiser: three colour fields edited through presets or
    pickers, saved into the user's profile as a serialised theme and filled
    back in, field by field, from what is stored. */
module ThemeCustomizer {
  import opened Base
  import opened Text
  import opened Gateway

  /** The three colours the customiser edits. */
  datatype Palette = Palette(primary: string, accent: string, background: string)

  /** The Voxen default colours. */
  const DefaultPalette := Palette("#6366F1", "#8B5CF6", "#0F0F23")

  datatype Preset = Preset(name: string, colors: Palette)

  /** The preset table, in display order. */
  const Presets: seq<Preset> := [
    Preset("Voxen Default", Palette("#6366F1", "#8B5CF6", "#0F0F23")),
    Preset("Ocean Blue", Palette("#0EA5E9", "#06B6D4", "#0C1426")),
    Preset("Forest Green", Palette("#10B981", "#34D399", "#0A1F1A")),
    Preset("Sunset Orange", Palette("#F97316", "#FB923C", "#1F1611")),
    Preset("Royal Purple", Palette("#9333EA", "#A855F7", "#1A0F2E")),
    Preset("Rose Pink", Palette("#E11D48", "#F43F5E", "#2D0A14")),
    Preset("Midnight Dark", Palette("#6B7280", "#9CA3AF", "#000000")),
    Preset("Arctic White", Palette("#1F2937", "#374151", "#F9FAFB"))
  ]

  /** The table has eight presets with pairwise different names, and the first
      one is the default palette. */
  lemma PresetTable()
    ensures |Presets| == 8
    ensures forall i, j :: 0 <= i < j < |Presets| ==> Presets[i].name != Presets[j].name
    ensures Presets[0].name == "Voxen Default" && Presets[0].colors == DefaultPalette
  {
  }

  /** The `themeColors` record written on save: every colour present. */
  function Serialize(p: Palette): (t: StoredTheme)
    ensures t.primary.Some? && t.accent.Some? && t.background.Some?
  {
    StoredTheme(Some(p.primary), Some(p.accent), Some(p.background))
  }

  /** Reading a stored theme back: each missing or empty colour is replaced by
      its default, so the result never holds an empty colour. */
  function Fill(t: StoredTheme): (p: Palette)
    ensures p.primary != [] && p.accent != [] && p.background != []
    ensures Truthy(t.primary) ==> p.primary == t.primary.value
    ensures Truthy(t.accent) ==> p.accent == t.accent.value
    ensures Truthy(t.background) ==> p.background == t.background.value
  {
    Palette(
      OrElse(t.primary, DefaultPalette.primary),
      OrElse(t.accent, DefaultPalette.accent),
      OrElse(t.background, DefaultPalette.background))
  }

  /** A palette whose colours are all non-empty survives a save and a load. */
  lemma RoundTrip(p: Palette)
    requires p.primary != [] && p.accent != [] && p.background != []
    ensures Fill(Serialize(p)) == p
  {
  }

  /** A stored theme with nothing usable in it loads as the default palette. */
  lemma EmptyThemeIsDefault(t: StoredTheme)
    requires !Truthy(t.primary) && !Truthy(t.accent) && !Truthy(t.background)
    ensures Fill(t) == DefaultPalette
  {
  }

  /** The profile `saveTheme` creates when the user has none: named after the
      e-mail's local part, carrying only the theme. */
  function ThemeProfile(id: string, user: User, theme: StoredTheme): (p: UserProfile)
    ensures p.userId == user.id && p.themeColors == Some(theme)
    ensures p.displayName == Some(EmailName(user.email))
  {
    UserProfile(id, user.id, Some(EmailName(user.email)), None, None, None, None, Some(theme))
  }

  /** The profiles after a successful save of `colors`: the user's first profile
      gets the theme, or a new profile holding it is appended. */
  function SavedProfiles(ps: seq<UserProfile>, user: User, colors: Palette, profileId: string): (r: seq<UserProfile>)
    ensures |r| == |ps| + (if ProfilesOf(ps, user.id) == [] then 1 else 0)
    ensures forall k :: 0 <= k < |ps| ==> r[k].id == ps[k].id && r[k].userId == ps[k].userId
  {
    var mine := FirstN(ProfilesOf(ps, user.id), 1);
    if mine != [] then WithProfileTheme(ps, mine[0].id, Serialize(colors))
    else ps + [ThemeProfile(profileId, user, Serialize(colors))]
  }

  /** What `loadUserTheme` shows given the stored profiles and the colours on screen. */
  function LoadedPalette(ps: seq<UserProfile>, userId: string, current: Palette): (p: Palette)
    ensures ProfilesOf(ps, userId) == [] || ProfilesOf(ps, userId)[0].themeColors.None? ==> p == current
    ensures ProfilesOf(ps, userId) != [] && ProfilesOf(ps, userId)[0].themeColors.Some? ==>
      p == Fill(ProfilesOf(ps, userId)[0].themeColors.value)
    ensures ProfilesOf(ps, userId) != [] && ProfilesOf(ps, userId)[0].themeColors.Some? ==>
      p.primary != [] && p.accent != [] && p.background != []
  {
    var mine := FirstN(ProfilesOf(ps, userId), 1);
    if mine != [] && mine[0].themeColors.Some? then Fill(mine[0].themeColors.value) else current
  }

  /** Saving a palette of non-empty colours and loading it again restores it,
      whether the save updated an existing profile or created one. */
  lemma SaveThenLoad(ps: seq<UserProfile>, user: User, colors: Palette, profileId: string, current: Palette)
    requires colors.primary != [] && colors.accent != [] && colors.background != []
    ensures LoadedPalette(SavedProfiles(ps, user, colors, profileId), user.id, current) == colors
  {
    if ProfilesOf(ps, user.id) != [] {
      ThemeUpdateReachesFirstProfile(ps, user.id, Serialize(colors));
    } else {
      FirstProfileIsOnlyProfile(ps, ThemeProfile(profileId, user, Serialize(colors)));
    }
    RoundTrip(colors);
  }

  /** A save touches no other user's profiles: every profile another user has
      afterwards was theirs before, and every profile they had before is still
      there, at most with the new theme when it shares the saved profile's id. */
  lemma SaveKeepsOtherUsers(ps: seq<UserProfile>, user: User, colors: Palette, profileId: string, other: string)
    requires other != user.id
    ensures forall p :: p in ProfilesOf(SavedProfiles(ps, user, colors, profileId), other) ==>
      exists q :: q in ProfilesOf(ps, other) && (p == q || p == q.(themeColors := Some(Serialize(colors))))
    ensures forall q :: q in ProfilesOf(ps, other) ==>
      exists p :: p in ProfilesOf(SavedProfiles(ps, user, colors, profileId), other) && (p == q || p == q.(themeColors := Some(Serialize(colors))))
  {
    if ProfilesOf(ps, user.id) == [] {
      OtherUsersProfilesUnchanged(ps, ThemeProfile(profileId, user, Serialize(colors)), other);
      forall q | q in ProfilesOf(ps, other)
        ensures exists p :: p in ProfilesOf(SavedProfiles(ps, user, colors, profileId), other) && p == q
      {
        assert q in ProfilesOf(SavedProfiles(ps, user, colors, profileId), other);
      }
    } else {
      var id := FirstN(ProfilesOf(ps, user.id), 1)[0].id;
      assert SavedProfiles(ps, user, colors, profileId) == WithProfileTheme(ps, id, Serialize(colors));
      ThemedProfilesCameFromBefore(ps, id, Serialize(colors), other);
      ProfilesBeforeSurviveTheming(ps, id, Serialize(colors), other);
    }
  }

  /** Each profile of `other` after a theme update is one of theirs from before,
      possibly with the new theme. */
  lemma ThemedProfilesCameFromBefore(ps: seq<UserProfile>, id: string, theme: StoredTheme, other: string)
    ensures forall p :: p in ProfilesOf(WithProfileTheme(ps, id, theme), other) ==>
      exists q :: q in ProfilesOf(ps, other) && (p == q || p == q.(themeColors := Some(theme)))
  {
    var after := WithProfileTheme(ps, id, theme);
    forall p | p in ProfilesOf(after, other)
      ensures exists q :: q in ProfilesOf(ps, other) && (p == q || p == q.(themeColors := Some(theme)))
    {
      var k :| 0 <= k < |after| && after[k] == p;
      assert ps[k] in ProfilesOf(ps, other);
    }
  }

  /** Each profile `other` had before a theme update is still theirs afterwards,
      possibly with the new theme. */
  lemma ProfilesBeforeSurviveTheming(ps: seq<UserProfile>, id: string, theme: StoredTheme, other: string)
    ensures forall q :: q in ProfilesOf(ps, other) ==>
      exists p :: p in ProfilesOf(WithProfileTheme(ps, id, theme), other) && (p == q || p == q.(themeColors := Some(theme)))
  {
    var after := WithProfileTheme(ps, id, theme);
    forall q | q in ProfilesOf(ps, other)
      ensures exists p :: p in ProfilesOf(after, other) && (p == q || p == q.(themeColors := Some(theme)))
    {
      var k :| 0 <= k < |ps| && ps[k] == q;
      assert after[k] in ProfilesOf(after, other);
    }
  }

  /** The customiser dialog's state: the colours on screen and the saving flag. */
  class Customizer {
    const user: User
    var primary: string
    var accent: string
    var background: string
    var saving: bool

    /** The colours currently on screen. */
    function Colors(): Palette
      reads this
    {
      Palette(primary, accent, background)
    }

    constructor (user: User)
      ensures this.user == user
      ensures Colors() == DefaultPalette && !saving
    {
      this.user := user;
      primary, accent, background := DefaultPalette.primary, DefaultPalette.accent, DefaultPalette.background;
      saving := false;
    }

    /** Clicking a preset: exactly its three colours are taken over. */
    method ApplyPreset(preset: Preset)
      modifies this
      ensures Colors() == preset.colors
      ensures saving == old(saving)
    {
      primary, accent, background := preset.colors.primary, preset.colors.accent, preset.colors.background;
    }

    /** The primary colour's picker and text field: only that colour changes. */
    method SetPrimary(c: string)
      modifies this
      ensures Colors() == old(Colors()).(primary := c) && saving == old(saving)
    {
      primary := c;
    }

    /** The accent colour's picker and text field: only that colour changes. */
    method SetAccent(c: string)
      modifies this
      ensures Colors() == old(Colors()).(accent := c) && saving == old(saving)
    {
      accent := c;
    }

    /** The background colour's picker and text field: only that colour changes. */
    method SetBackground(c: string)
      modifies this
      ensures Colors() == old(Colors()).(background := c) && saving == old(saving)
    {
      background := c;
    }

    /** "Reset to Default": the default palette, which is also the first preset. */
    method ResetToDefault()
      modifies this
      ensures Colors() == DefaultPalette && Colors() == Presets[0].colors
      ensures saving == old(saving)
    {
      primary, accent, background := DefaultPalette.primary, DefaultPalette.accent, DefaultPalette.background;
    }

    /** `loadUserTheme`: the first profile's stored theme, default-filled; the
        colours stay as they are when there is no profile, no stored theme or
        the query fails (`okCalls == 0`). */
    method LoadUserTheme(store: Store, okCalls: nat)
      modifies this
      ensures okCalls >= 1 ==> Colors() == LoadedPalette(store.db.profiles, user.id, old(Colors()))
      ensures okCalls == 0 ==> Colors() == old(Colors())
      ensures saving == old(saving)
    {
      if okCalls == 0 { return; }
      var profiles := FirstN(ProfilesOf(store.db.profiles, user.id), 1);
      if profiles != [] && profiles[0].themeColors.Some? {
        var filled := Fill(profiles[0].themeColors.value);
        primary, accent, background := filled.primary, filled.accent, filled.background;
      }
    }

    /** `saveTheme`: one query for the user's first profile, then one update of
        its `themeColors` or one create. `okCalls` calls succeed before one
        throws; `saved` says whether the write happened. The colours on screen
        are not changed and `saving` is false again afterwards. */
    method SaveTheme(store: Store, okCalls: nat, profileId: string) returns (saved: bool)
      modifies this, store
      ensures saved <==> okCalls >= 2
      ensures saved ==> store.db == old(store.db).(profiles := SavedProfiles(old(store.db.profiles), user, old(Colors()), profileId))
      ensures !saved ==> store.db == old(store.db)
      ensures Colors() == old(Colors()) && !saving
    {
      saving := true;
      saved := false;
      var themeColors := Serialize(Colors());
      if okCalls == 0 { saving := false; return; }
      var profiles := FirstN(ProfilesOf(store.db.profiles, user.id), 1);
      if okCalls == 1 { saving := false; return; }
      if profiles != [] {
        store.UpdateProfileTheme(profiles[0].id, themeColors);
      } else {
        store.CreateProfile(ThemeProfile(profileId, user, themeColors));
      }
      saved := true;
      saving := false;
    }
  }
}
