/** The fixed channel set, the sink names the engine gives it, and the engine's own
    per-channel state. */
module Channels {
  import opened Util
  import opened Types

  /** The four channels, in the order createChannels visits them. */
  const ChannelIds: seq<string> := ["game", "chat", "media", "aux"]

  /** Every sink the engine creates has a name with this prefix. */
  const SinkPrefix: string := "wavemux_"

  /** The silent sink that receives every stream not routed to a channel. */
  const UnassignedSinkName: string := "wavemux_unassigned"

  /** CHANNEL_NAMES.value(id); an unknown id gives the empty string. */
  function DisplayName(id: string): string
  {
    if id == "game" then "Game"
    else if id == "chat" then "Chat"
    else if id == "media" then "Media"
    else if id == "aux" then "AUX"
    else ""
  }

  function SinkNameFor(id: string): string
  {
    SinkPrefix + id
  }

  /** The sink description createChannels passes to module-null-sink. */
  function SinkDescription(id: string): string
  {
    "WaveMux " + DisplayName(id)
  }

  /** The two mixes every channel feeds: the personal mix (headphones) and the
      stream mix (broadcast). */
  datatype Mix = PersonalMix | StreamMix

  function OtherMix(mix: Mix): Mix
  {
    if mix == PersonalMix then StreamMix else PersonalMix
  }

  /** AudioManager::ChannelState. */
  datatype ChannelState = ChannelState(
    id: string,
    displayName: string,
    sinkName: string,
    sinkIndex: nat,
    moduleId: nat,
    volume: int,
    muted: bool,
    personalVolume: int,
    streamVolume: int,
    personalMuted: bool,
    streamMuted: bool)

  /** A ChannelState with its default member initialisers. */
  function DefaultChannelState(): (st: ChannelState)
    ensures st.id == "" && st.displayName == "" && st.sinkName == ""
    ensures st.sinkIndex == 0 && st.moduleId == 0
    ensures st.volume == 100 && !st.muted
    ensures st.personalVolume == 100 && st.streamVolume == 0
    ensures !st.personalMuted && !st.streamMuted
  {
    ChannelState("", "", "", 0, 0, 100, false, 100, 0, false, false)
  }

  /** The state createChannels stores for a channel whose sink the server reports at
      index `index`. */
  function FreshChannelState(id: string, index: nat): (st: ChannelState)
    requires index > 0
    ensures st.id == id && st.displayName == DisplayName(id) && st.sinkName == SinkNameFor(id)
    ensures st.sinkIndex == index && st.moduleId == 0
    ensures st.volume == 100 && !st.muted
    ensures st.personalVolume == 100 && st.streamVolume == 0
    ensures !st.personalMuted && !st.streamMuted
  {
    DefaultChannelState().(id := id, displayName := DisplayName(id),
                           sinkName := SinkNameFor(id), sinkIndex := index)
  }

  /** What every stored channel satisfies: a known id under its own key, the sink named
      after it, a sink the server reported, no module id (the engine never records
      one) and every level within 0-100. */
  ghost predicate ChannelOk(key: string, st: ChannelState)
  {
    && key in ChannelIds
    && st.id == key
    && st.displayName == DisplayName(key)
    && st.sinkName == SinkNameFor(key)
    && st.sinkIndex > 0
    && st.moduleId == 0
    && 0 <= st.volume <= 100
    && 0 <= st.personalVolume <= 100
    && 0 <= st.streamVolume <= 100
  }

  lemma FreshChannelOk(id: string, index: nat)
    requires id in ChannelIds && index > 0
    ensures ChannelOk(id, FreshChannelState(id, index))
  {
  }

  /** The mix level of a channel: personalVolume or streamVolume. */
  function Level(st: ChannelState, mix: Mix): int
  {
    if mix == PersonalMix then st.personalVolume else st.streamVolume
  }

  /** Every stored channel is a known channel under its own key. */
  ghost predicate ChannelTableOk(channels: map<string, ChannelState>)
  {
    forall id :: id in channels ==> ChannelOk(id, channels[id])
  }

  /** Every assigned stream is assigned to a stored channel. */
  ghost predicate AssignedToKnown(assignments: map<nat, string>, channels: map<string, ChannelState>)
  {
    forall s :: s in assignments ==> assignments[s] in channels
  }

  /** The state after storing a new mix level: only that mix's level changes. */
  function WithLevel(st: ChannelState, mix: Mix, v: int): (r: ChannelState)
    ensures Level(r, mix) == v
    ensures Level(r, OtherMix(mix)) == Level(st, OtherMix(mix))
    ensures r.id == st.id && r.sinkName == st.sinkName && r.volume == st.volume && r.muted == st.muted
  {
    if mix == PersonalMix then st.(personalVolume := v) else st.(streamVolume := v)
  }

  /** listChannels' conversion: the per-mix mute flags are not copied, so a listed
      channel always reports them false. */
  function ToChannel(st: ChannelState): (c: Channel)
    ensures c.id == st.id && c.displayName == st.displayName && c.sinkName == st.sinkName
    ensures c.volume == st.volume && c.muted == st.muted
    ensures c.personalVolume == st.personalVolume && c.streamVolume == st.streamVolume
    ensures !c.personalMuted && !c.streamMuted
  {
    Channel(st.id, st.displayName, st.sinkName, st.volume, st.muted,
            st.personalVolume, st.streamVolume, false, false)
  }

  /** Distinct channel ids give distinct sink names. */
  lemma SinkNamesDistinct(a: string, b: string)
    requires a != b
    ensures SinkNameFor(a) != SinkNameFor(b)
  {
    assert SinkNameFor(a)[|SinkPrefix|..] == a;
    assert SinkNameFor(b)[|SinkPrefix|..] == b;
  }

  /** No channel sink is the unassigned sink, so a stream sent there is on no channel. */
  lemma UnassignedIsNoChannel(id: string)
    requires id in ChannelIds
    ensures SinkNameFor(id) != UnassignedSinkName
  {
    assert SinkNameFor(id)[|SinkPrefix|..] == id;
    assert UnassignedSinkName[|SinkPrefix|..] == "unassigned";
  }

  /** Every channel has a display name, so every channel sink gets a description. */
  lemma KnownChannelsAreNamed(id: string)
    requires id in ChannelIds
    ensures DisplayName(id) != ""
    ensures StartsWith(SinkNameFor(id), SinkPrefix)
  {
  }
}
