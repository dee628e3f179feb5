/** The channel sidebar of the selected server: its channels split into a text
    section and a voice section, each collapsible, with the selected channel
    highlighted. */
module ChannelSidebar {
  import opened Base
  import opened Gateway
  import VoxenLayout

  /** `channels.filter(c => c.type === kind)`: the text section with "text",
      the voice section with "voice", each in listing order. */
  function ChannelsOfKind(channels: seq<Channel>, kind: string): (r: seq<Channel>)
    ensures |r| <= |channels|
    ensures forall c :: c in r <==> c in channels && c.kind == kind
  {
    Filter(channels, (c: Channel) => c.kind == kind)
  }

  /** Channels of neither kind. */
  function OtherChannels(channels: seq<Channel>): (r: seq<Channel>)
    ensures forall c :: c in r <==> c in channels && c.kind != "text" && c.kind != "voice"
  {
    Filter(channels, (c: Channel) => c.kind != "text" && c.kind != "voice")
  }

  /** The two sections split the list: no channel is in both, a channel of any
      other kind is in neither, and every channel is counted exactly once among
      text, voice and the rest. */
  lemma {:induction false} Partition(channels: seq<Channel>)
    ensures forall c :: !(c in ChannelsOfKind(channels, "text") && c in ChannelsOfKind(channels, "voice"))
    ensures forall c ::
      (c in channels && c !in ChannelsOfKind(channels, "text") && c !in ChannelsOfKind(channels, "voice")) <==> c in OtherChannels(channels)
    ensures |ChannelsOfKind(channels, "text")| + |ChannelsOfKind(channels, "voice")| + |OtherChannels(channels)| == |channels|
  {
    if channels != [] {
      Partition(channels[1..]);
    }
  }

  /** Each section keeps the relative order of the listing: the section of a
      concatenation is the concatenation of the sections. */
  lemma SectionsKeepOrder(a: seq<Channel>, b: seq<Channel>, kind: string)
    ensures ChannelsOfKind(a + b, kind) == ChannelsOfKind(a, kind) + ChannelsOfKind(b, kind)
  {
    FilterConcat(a, b, (c: Channel) => c.kind == kind);
  }

  /** `selectedChannel?.id === channel.id`: no row is highlighted while no
      channel is selected. */
  predicate IsHighlighted(c: Channel, selected: Option<Channel>)
    ensures selected.None? ==> !IsHighlighted(c, selected)
    ensures selected == Some(c) ==> IsHighlighted(c, selected)
    ensures IsHighlighted(c, selected) <==> selected.Some? && selected.value.id == c.id
  {
    selected.Some? && selected.value.id == c.id
  }

  /** Clicking a row selects that channel in the layout, which highlights it and
      exactly the rows sharing its id. */
  lemma ClickHighlightsRow(n: VoxenLayout.Nav, c: Channel, d: Channel)
    ensures var m := VoxenLayout.AfterSelectChannel(n, c);
      IsHighlighted(c, m.channel) && (IsHighlighted(d, m.channel) <==> d.id == c.id)
  {
  }

  /** What the sidebar renders. */
  datatype View =
    | Placeholder
    | Listing(serverName: string, text: seq<Channel>, voice: seq<Channel>)

  /** Without a server only the placeholder is shown; with one, its name and
      the two sections. */
  function Render(server: Option<Server>, channels: seq<Channel>): (v: View)
    ensures v.Placeholder? <==> server.None?
    ensures v.Listing? ==> v.serverName == server.value.name
    ensures v.Listing? ==> forall c :: c in v.text <==> c in channels && c.kind == "text"
    ensures v.Listing? ==> forall c :: c in v.voice <==> c in channels && c.kind == "voice"
  {
    if server.None? then Placeholder
    else Listing(server.value.name, ChannelsOfKind(channels, "text"), ChannelsOfKind(channels, "voice"))
  }

  /** The two open/closed flags of the collapsible sections. */
  class Sections {
    var textOpen: bool
    var voiceOpen: bool

    /** Both sections start open. */
    constructor ()
      ensures textOpen && voiceOpen
    {
      textOpen, voiceOpen := true, true;
    }

    /** The text section's `onOpenChange`: the voice section is untouched. */
    method SetTextOpen(open: bool)
      modifies this
      ensures textOpen == open && voiceOpen == old(voiceOpen)
    {
      textOpen := open;
    }

    /** The voice section's `onOpenChange`: the text section is untouched. */
    method SetVoiceOpen(open: bool)
      modifies this
      ensures voiceOpen == open && textOpen == old(textOpen)
    {
      voiceOpen := open;
    }
  }
}
