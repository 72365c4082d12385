/** The shared records of the daemon and its clients, with their default member
    initialisers. */
module Types {

  datatype Channel = Channel(
    id: string,
    displayName: string,
    sinkName: string,
    volume: int,
    muted: bool,
    personalVolume: int,   // 0-100, mix level for the personal output
    streamVolume: int,     // 0-100, mix level for the stream output
    personalMuted: bool,
    streamMuted: bool)

  /** A value-initialised Channel. Unlike the engine's own channel state, the record
      starts at volume 0. */
  function DefaultChannel(): (c: Channel)
    ensures c.id == "" && c.displayName == "" && c.sinkName == ""
    ensures c.volume == 0 && !c.muted
    ensures c.personalVolume == 100 && c.streamVolume == 0
    ensures !c.personalMuted && !c.streamMuted
  {
    Channel("", "", "", 0, false, 100, 0, false, false)
  }

  /** An audio stream (a sink-input of the server); an empty assignedChannel means
      the stream is not assigned to any channel. */
  datatype Stream = Stream(
    id: nat,
    appName: string,
    mediaName: string,
    processName: string,
    assignedChannel: string)

  function DefaultStream(): (s: Stream)
    ensures s.id == 0
    ensures s.appName == "" && s.mediaName == "" && s.processName == ""
    ensures !IsAssigned(s)
  {
    Stream(0, "", "", "", "")
  }

  predicate IsAssigned(s: Stream)
  {
    s.assignedChannel != ""
  }

  /** matchPattern is a regular expression matched against application and process name. */
  datatype RoutingRule = RoutingRule(matchPattern: string, targetChannel: string)

  function DefaultRoutingRule(): (r: RoutingRule)
    ensures r.matchPattern == "" && r.targetChannel == ""
  {
    RoutingRule("", "")
  }

  datatype Profile = Profile(name: string, channels: seq<Channel>, rules: seq<RoutingRule>)

  datatype Device = Device(id: string, name: string, description: string)

  datatype Config = Config(
    setupComplete: bool,
    outputDevice: string,
    streamOutputDevice: string,
    streamEnabled: bool,
    activeProfile: string,
    profiles: seq<Profile>,
    routingRules: seq<RoutingRule>)

  function DefaultConfig(): (c: Config)
    ensures !c.setupComplete && !c.streamEnabled
    ensures c.outputDevice == "" && c.streamOutputDevice == "" && c.activeProfile == ""
    ensures c.profiles == [] && c.routingRules == []
  {
    Config(false, "", "", false, "", [], [])
  }
}
