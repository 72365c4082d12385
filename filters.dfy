/** Which streams and sinks the engine leaves alone or hides: the loopback and system
    stream tests, the listStreams denylist, and the device filter of listOutputDevices.
    The records are the structured form of the server's listings. */
module Filters {
  import opened Util
  import opened Types
  import opened Backend
  import opened Channels

  /** A stream with neither an application nor a process name is a system stream. */
  predicate Nameless(appName: string, processName: string)
  {
    appName == "" && processName == ""
  }

  /** The test of the delayed new-stream callback and of
      applyRoutingRulesToExistingStreams: a loopback by application, process or media
      name, or a nameless stream. */
  predicate IgnoredOnArrival(appName: string, mediaName: string, processName: string)
  {
    || ContainsIgnoreCase(appName, "Loopback")
    || ContainsIgnoreCase(processName, "loopback")
    || ContainsIgnoreCase(mediaName, "Loopback")
    || Nameless(appName, processName)
  }

  /** The test of syncExistingStreams: the same, except that the media name is not
      looked at. */
  predicate IgnoredOnSync(appName: string, processName: string)
  {
    || ContainsIgnoreCase(appName, "Loopback")
    || ContainsIgnoreCase(processName, "loopback")
    || Nameless(appName, processName)
  }

  /** Arrival ignores every stream sync ignores, and more. */
  lemma SyncFilterIsWeaker(appName: string, mediaName: string, processName: string)
    ensures IgnoredOnSync(appName, processName) ==> IgnoredOnArrival(appName, mediaName, processName)
    ensures IgnoredOnArrival(appName, mediaName, processName) && !IgnoredOnSync(appName, processName)
            ==> ContainsIgnoreCase(mediaName, "Loopback")
  {
  }

  /** The applications and processes listStreams never shows. */
  const Denylist: seq<string> := [
    "Loopback", "loopback", "speech-dispatcher", "speech_dispatcher", "spd-say",
    "PipeWire", "pipewire", "pw-loopback", "module-loopback",
    "PulseAudio Volume Control", "pavucontrol"]

  predicate Denied(appName: string, processName: string)
  {
    exists i :: 0 <= i < |Denylist| &&
      (ContainsIgnoreCase(appName, Denylist[i]) || ContainsIgnoreCase(processName, Denylist[i]))
  }

  /** listStreams' own-loopback test: a media name mentioning a loopback, a
      stream-restore id naming module-loopback (case-sensitively), or an owning module
      that is one of the personal mix's loopback modules. */
  predicate OwnLoopback(b: SinkInputBlock, personalModules: map<string, nat>)
  {
    || ContainsIgnoreCase(b.mediaName, "Loopback")
    || Contains(b.restoreId, "module-loopback")
    || (b.moduleId.Some? && b.moduleId.value in personalModules.Values)
  }

  predicate Visible(b: SinkInputBlock, personalModules: map<string, nat>)
  {
    && b.id > 0
    && !OwnLoopback(b, personalModules)
    && !Denied(b.appName, b.processName)
    && !Nameless(b.appName, b.processName)
  }

  /** The Stream listStreams reports for a block: its assignment when it has one,
      otherwise the empty (unassigned) channel. */
  function AsStream(b: SinkInputBlock, assignments: map<nat, string>): (s: Stream)
    ensures s.id == b.id && s.appName == b.appName && s.mediaName == b.mediaName
    ensures s.processName == b.processName
    ensures b.id in assignments ==> s.assignedChannel == assignments[b.id]
    ensures b.id !in assignments ==> !IsAssigned(s)
  {
    Stream(b.id, b.appName, b.mediaName, b.processName,
           if b.id in assignments then assignments[b.id] else "")
  }

  /** The streams listStreams reports, in listing order. */
  function VisibleStreams(blocks: seq<SinkInputBlock>, personalModules: map<string, nat>,
                          assignments: map<nat, string>): (r: seq<Stream>)
    ensures |r| <= |blocks|
    ensures forall s :: s in r ==> s.id > 0 && !Nameless(s.appName, s.processName)
    ensures forall s :: s in r ==> !Denied(s.appName, s.processName)
    ensures forall s :: s in r && IsAssigned(s) ==> s.id in assignments && s.assignedChannel == assignments[s.id]
  {
    if blocks == [] then []
    else
      var init := VisibleStreams(blocks[..|blocks| - 1], personalModules, assignments);
      var b := blocks[|blocks| - 1];
      if Visible(b, personalModules) then init + [AsStream(b, assignments)] else init
  }

  /** A stream is listed exactly when some block of the listing is visible and
      describes it. */
  lemma {:induction false} ListedIffVisible(blocks: seq<SinkInputBlock>, personalModules: map<string, nat>,
                                            assignments: map<nat, string>)
    ensures forall b :: b in blocks && Visible(b, personalModules)
              ==> AsStream(b, assignments) in VisibleStreams(blocks, personalModules, assignments)
    ensures forall s :: s in VisibleStreams(blocks, personalModules, assignments)
              ==> exists b :: b in blocks && Visible(b, personalModules) && s == AsStream(b, assignments)
  {
    if blocks != [] {
      var init := blocks[..|blocks| - 1];
      ListedIffVisible(init, personalModules, assignments);
      assert blocks == init + [blocks[|blocks| - 1]];
    }
  }

  /** A sink listOutputDevices offers: a named sink that is not one of the engine's. */
  predicate Offered(b: SinkBlock)
  {
    b.name != "" && !StartsWith(b.name, SinkPrefix)
  }

  /** The device for a sink: its description doubles as the display name. */
  function AsDevice(b: SinkBlock): Device
  {
    Device(b.name, b.description, b.description)
  }

  /** The devices listOutputDevices reports, in listing order. */
  function OutputDevices(sinks: seq<SinkBlock>): (r: seq<Device>)
    ensures |r| <= |sinks|
    ensures forall d :: d in r ==> d.id != "" && !StartsWith(d.id, SinkPrefix) && d.name == d.description
  {
    if sinks == [] then []
    else
      var init := OutputDevices(sinks[..|sinks| - 1]);
      var b := sinks[|sinks| - 1];
      if Offered(b) then init + [AsDevice(b)] else init
  }

  /** A device is offered exactly when some sink of the listing is offered and gives it. */
  lemma {:induction false} OfferedIffListed(sinks: seq<SinkBlock>)
    ensures forall b :: b in sinks && Offered(b) ==> AsDevice(b) in OutputDevices(sinks)
    ensures forall d :: d in OutputDevices(sinks) ==> exists b :: b in sinks && Offered(b) && d == AsDevice(b)
  {
    if sinks != [] {
      var init := sinks[..|sinks| - 1];
      OfferedIffListed(init);
      assert sinks == init + [sinks[|sinks| - 1]];
    }
  }

  /** Neither a channel sink nor the unassigned sink is ever offered as an output. */
  lemma OwnSinksNeverOffered(sinks: seq<SinkBlock>, id: string)
    ensures forall d :: d in OutputDevices(sinks) ==> d.id != SinkNameFor(id) && d.id != UnassignedSinkName
  {
    forall d | d in OutputDevices(sinks)
      ensures d.id != SinkNameFor(id) && d.id != UnassignedSinkName
    {
      assert StartsWith(SinkNameFor(id), SinkPrefix);
      assert StartsWith(UnassignedSinkName, SinkPrefix);
    }
  }

  // ----- The listing loops -----

  /** The denylist loop of listStreams: stops at the first entry either name contains. */
  method IsDenied(appName: string, processName: string) returns (denied: bool)
    ensures denied == Denied(appName, processName)
  {
    denied := false;
    var i := 0;
    while i < |Denylist|
      invariant i <= |Denylist|
      invariant forall j :: 0 <= j < i ==>
                  !(ContainsIgnoreCase(appName, Denylist[j]) || ContainsIgnoreCase(processName, Denylist[j]))
    {
      if ContainsIgnoreCase(appName, Denylist[i]) || ContainsIgnoreCase(processName, Denylist[i]) {
        return true;
      }
      i := i + 1;
    }
  }

  /** The block loop of listStreams: each block, once complete, is kept when visible. */
  method ListVisible(blocks: seq<SinkInputBlock>, personalModules: map<string, nat>,
                     assignments: map<nat, string>) returns (r: seq<Stream>)
    ensures r == VisibleStreams(blocks, personalModules, assignments)
  {
    r := [];
    for i := 0 to |blocks|
      invariant r == VisibleStreams(blocks[..i], personalModules, assignments)
    {
      assert blocks[..i + 1][..i] == blocks[..i];
      var b := blocks[i];
      if b.id > 0 && !OwnLoopback(b, personalModules) {
        var denied := IsDenied(b.appName, b.processName);
        if !denied && !Nameless(b.appName, b.processName) {
          r := r + [AsStream(b, assignments)];
        }
      }
    }
    assert blocks[..|blocks|] == blocks;
  }

  /** The sink loop of listOutputDevices. */
  method ListOffered(sinks: seq<SinkBlock>) returns (r: seq<Device>)
    ensures r == OutputDevices(sinks)
  {
    r := [];
    for i := 0 to |sinks|
      invariant r == OutputDevices(sinks[..i])
    {
      assert sinks[..i + 1][..i] == sinks[..i];
      if sinks[i].name != "" && !StartsWith(sinks[i].name, SinkPrefix) {
        r := r + [AsDevice(sinks[i])];
      }
    }
    assert sinks[..|sinks|] == sinks;
  }
}
