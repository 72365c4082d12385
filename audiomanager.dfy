/** The audio engine: the four channel sinks, the stream router with its rules and
    assignments, and the loopback edges that carry every channel into the personal and
    the stream mix. Every command that changes the audio graph is recorded, in order,
    in the ghost trace of the server object; queries of the server's state return
    arbitrary well-formed records. */
module Engine {
  import opened Util
  import opened Types
  import opened Backend
  import opened Channels
  import opened Rules
  import opened Filters
  import opened Mixing

  class AudioManager {
    /** Case-insensitive regular-expression matching of a pattern against a name. */
    const matches: (string, string) -> bool

    var channels: map<string, ChannelState>
    var streamAssignments: map<nat, string>      // stream id -> channel id
    var routingRules: seq<RoutingRule>
    var loopbackModules: map<string, nat>        // channel id -> module id (personal mix)
    var loopbackSinkInputs: map<string, nat>     // channel id -> sink-input id (personal mix)
    var streamLoopbackModules: map<string, nat>  // channel id -> module id (stream mix)
    var streamLoopbackSinkInputs: map<string, nat>
    var unassignedSinkModule: nat
    var monitorRunning: bool                     // the `pactl subscribe` process exists
    var personalMixModule: nat
    var streamMixModule: nat
    var masterVolume: int
    var outputDevice: string
    var streamOutputDevice: string
    var streamEnabled: bool
    var initialized: bool
    /** Streams whose "new" event started the 100 ms settle timer, oldest first. */
    var pendingSettles: seq<nat>
    /** The sound server the engine drives. */
    const server: AudioServer

    function EdgeModules(mix: Mix): map<string, nat>
      reads this`loopbackModules, this`streamLoopbackModules
    {
      if mix == PersonalMix then loopbackModules else streamLoopbackModules
    }

    function EdgeInputs(mix: Mix): map<string, nat>
      reads this`loopbackSinkInputs, this`streamLoopbackSinkInputs
    {
      if mix == PersonalMix then loopbackSinkInputs else streamLoopbackSinkInputs
    }

    function MixDevice(mix: Mix): string
      reads this`outputDevice, this`streamOutputDevice
    {
      if mix == PersonalMix then outputDevice else streamOutputDevice
    }

    /** Whether a mix may have edges created: it has a device, and the stream mix must
        also be enabled. */
    predicate MixActive(mix: Mix)
      reads this`outputDevice, this`streamOutputDevice, this`streamEnabled
    {
      MixDevice(mix) != "" && (mix == StreamMix ==> streamEnabled)
    }

    /** The sink-input volume of a channel's edge into a mix: its level under the
        master volume. */
    function EdgeTarget(mix: Mix, id: string): int
      requires id in channels
      reads this`channels, this`masterVolume
    {
      Effective(Level(channels[id], mix), masterVolume)
    }

    function CurrentWiring(mix: Mix): Wiring
      reads this`channels, this`outputDevice, this`streamOutputDevice, this`masterVolume
      reads this`loopbackModules, this`streamLoopbackModules
      reads this`loopbackSinkInputs, this`streamLoopbackSinkInputs
    {
      Wiring(channels, MixDevice(mix), EdgeModules(mix), EdgeInputs(mix), mix, masterVolume)
    }

    /** Each mix tracks a sink-input only for a channel with a loopback module, a module
        only for a known channel, and sink-input ids are never 0. */
    ghost predicate EdgesNested(mix: Mix)
      reads this`channels, this`loopbackModules, this`streamLoopbackModules
      reads this`loopbackSinkInputs, this`streamLoopbackSinkInputs
    {
      TablesNested(EdgeModules(mix), EdgeInputs(mix), channels)
    }

    /** A disabled stream mix has no edges. */
    ghost predicate StreamGate()
      reads this`streamEnabled, this`streamLoopbackModules, this`streamLoopbackSinkInputs
    {
      !streamEnabled ==> streamLoopbackModules == map[] && streamLoopbackSinkInputs == map[]
    }

    /** Every stored channel is a known channel under its own key (see ChannelOk). */
    ghost predicate ChannelsOk()
      reads this`channels
    {
      ChannelTableOk(channels)
    }

    /** Streams are assigned only to known channels. */
    ghost predicate AssignmentsOk()
      reads this`channels, this`streamAssignments
    {
      AssignedToKnown(streamAssignments, channels)
    }

    /** A master volume within 0-100 and no mix sink modules (the engine never loads
        one). */
    ghost predicate SettingsOk()
      reads this`masterVolume, this`personalMixModule, this`streamMixModule
    {
      && 0 <= masterVolume <= 100
      && personalMixModule == 0 && streamMixModule == 0
    }

    /** Between public calls the stream monitor runs exactly while the engine is
        initialized; initialize starts it just before setting the flag. */
    ghost predicate MonitorOk()
      reads this`monitorRunning, this`initialized
    {
      monitorRunning == initialized
    }

    ghost predicate Valid()
      reads this
    {
      && ChannelsOk() && AssignmentsOk() && SettingsOk() && PatternsUnique(routingRules)
      && EdgesNested(PersonalMix) && EdgesNested(StreamMix) && StreamGate()
    }

    /** Since the old state, only `mix`'s edge tables (and the server) have changed. */
    twostate predicate OnlyEdgesChanged(mix: Mix)
      reads this
    {
      && old(channels) == channels && old(streamAssignments) == streamAssignments
      && old(routingRules) == routingRules && old(masterVolume) == masterVolume
      && old(personalMixModule) == personalMixModule && old(streamMixModule) == streamMixModule
      && old(streamEnabled) == streamEnabled
      && EdgeModules(OtherMix(mix)) == old(EdgeModules(OtherMix(mix)))
      && EdgeInputs(OtherMix(mix)) == old(EdgeInputs(OtherMix(mix)))
    }

    /** Changing only one active mix's edge tables, in a way that keeps them nested in
        the channel table, keeps the engine in its invariant. */
    twostate lemma EdgesKeepValid(mix: Mix)
      requires old(Valid()) && OnlyEdgesChanged(mix) && (mix == StreamMix ==> streamEnabled)
      requires EdgesNested(mix)
      ensures Valid()
    {
      assert old(EdgesNested(OtherMix(mix)));
      assert EdgesNested(OtherMix(mix));
    }

    /** An engine with no channels, assignments or edges and no mix sink modules is
        in its invariant when its master volume is within range and its rule patterns
        are unique. */
    lemma ClearedValid()
      requires 0 <= masterVolume <= 100 && PatternsUnique(routingRules)
      requires channels == map[] && streamAssignments == map[]
      requires loopbackModules == map[] && loopbackSinkInputs == map[]
      requires streamLoopbackModules == map[] && streamLoopbackSinkInputs == map[]
      requires personalMixModule == 0 && streamMixModule == 0
      ensures Valid()
    {
    }

    /** A fresh engine: no channels, no rules, master volume 100, no devices, the
        stream mix disabled, not initialized. */
    constructor(matches: (string, string) -> bool)
      ensures Valid() && MonitorOk()
      ensures this.matches == matches
      ensures channels == map[] && streamAssignments == map[] && routingRules == []
      ensures loopbackModules == map[] && loopbackSinkInputs == map[]
      ensures streamLoopbackModules == map[] && streamLoopbackSinkInputs == map[]
      ensures unassignedSinkModule == 0 && personalMixModule == 0 && streamMixModule == 0
      ensures masterVolume == 100
      ensures outputDevice == "" && streamOutputDevice == ""
      ensures !streamEnabled && !initialized && !monitorRunning
      ensures pendingSettles == [] && server.trace == []
    {
      this.matches := matches;
      channels := map[];
      streamAssignments := map[];
      routingRules := [];
      loopbackModules := map[];
      loopbackSinkInputs := map[];
      streamLoopbackModules := map[];
      streamLoopbackSinkInputs := map[];
      unassignedSinkModule := 0;
      monitorRunning := false;
      personalMixModule := 0;
      streamMixModule := 0;
      masterVolume := 100;
      outputDevice := "";
      streamOutputDevice := "";
      streamEnabled := false;
      initialized := false;
      pendingSettles := [];
      server := new AudioServer();
    }

    // ----- The server -----

    /** Runs one audio-graph command; whether the server accepts it is not known. */
    method RunCommand(c: Command) returns (ok: bool)
      modifies server
      ensures server.trace == old(server.trace) + [c]
    {
      ok := server.Run(c);
    }

    /** Runs a load-module command; on success the server prints the new module's id,
        which reads as 0 when it does not parse. */
    method RunLoad(c: Command) returns (ok: bool, moduleId: nat)
      modifies server
      ensures server.trace == old(server.trace) + [c]
    {
      ok := server.Run(c);
      moduleId := *;
    }

    /** The index, volume and mute of a sink; None when the listing fails or has no such
        sink (index 0). The module id is never filled in. */
    method QuerySinkInfo(name: string) returns (r: Option<SinkInfo>)
      ensures r.Some? ==> r.value.index > 0 && r.value.name == name && r.value.moduleId == 0
    {
      var index: int := *;
      if index <= 0 {
        r := None;
      } else {
        var volume: int := *;
        var muted: bool := *;
        r := Some(SinkInfo(index, 0, name, volume, muted));
      }
    }

    /** The properties of sink-input `id`; None when the listing fails or lacks it. */
    method QueryStreamInfo(id: nat) returns (r: Option<StreamInfo>)
      ensures r.Some? ==> r.value.id == id
    {
      var found: bool := *;
      if found {
        var info: StreamInfo := *;
        r := Some(info.(id := id));
      } else {
        r := None;
      }
    }

    /** The sink-input owned by a loopback module, or 0 when there is none. */
    method FindLoopbackSinkInput(moduleId: nat) returns (input: nat)
    {
      input := *;
    }

    method QueryDefaultSink() returns (name: string)
    {
      name := *;
    }

    /** The module whose line names the sink, when the listing succeeds. */
    method QueryModuleOf(sinkName: string) returns (ok: bool, moduleId: nat)
    {
      ok := *;
      moduleId := *;
    }

    method QuerySinkInputEntries() returns (ok: bool, entries: seq<SinkInputEntry>)
    {
      ok := *;
      entries := *;
    }

    method QuerySinkInputBlocks() returns (ok: bool, blocks: seq<SinkInputBlock>)
    {
      ok := *;
      blocks := *;
    }

    method QuerySinkBlocks() returns (ok: bool, sinks: seq<SinkBlock>)
    {
      ok := *;
      sinks := *;
    }

    // ----- Sinks -----

    /** A null sink with stereo channel map; spaces in the description become dashes. */
    method CreateVirtualSink(name: string, description: string) returns (ok: bool)
      modifies server
      ensures server.trace == old(server.trace) + [LoadNullSink(name, ReplaceSpaces(description))]
    {
      ok := RunCommand(LoadNullSink(name, ReplaceSpaces(description)));
    }

    /** Unloads a module: removeVirtualSink and removeLoopback issue the same command. */
    method RemoveModule(moduleId: nat) returns (ok: bool)
      modifies server
      ensures server.trace == old(server.trace) + [Unload(moduleId)]
    {
      ok := RunCommand(Unload(moduleId));
    }

    /** Sets a sink's volume, clamped to 0-100. */
    method SetSinkVolume(sinkName: string, volume: int) returns (ok: bool)
      modifies server
      ensures server.trace == old(server.trace) + [SinkVolume(sinkName, ClampPercent(volume))]
    {
      ok := RunCommand(SinkVolume(sinkName, ClampPercent(volume)));
    }

    method SetSinkMute(sinkName: string, muted: bool) returns (ok: bool)
      modifies server
      ensures server.trace == old(server.trace) + [SinkMute(sinkName, muted)]
    {
      ok := RunCommand(SinkMute(sinkName, muted));
    }

    // ----- Loopback edges -----

    /** Replaces one mix's two edge tables; the other mix's stay as they are. */
    method SetEdgeTables(mix: Mix, modules: map<string, nat>, inputs: map<string, nat>)
      modifies this`loopbackModules, this`loopbackSinkInputs
      modifies this`streamLoopbackModules, this`streamLoopbackSinkInputs
      ensures EdgeModules(mix) == modules && EdgeInputs(mix) == inputs
      ensures EdgeModules(OtherMix(mix)) == old(EdgeModules(OtherMix(mix)))
      ensures EdgeInputs(OtherMix(mix)) == old(EdgeInputs(OtherMix(mix)))
      ensures CurrentWiring(mix) == old(CurrentWiring(mix)).(modules := modules, inputs := inputs)
    {
      if mix == PersonalMix {
        loopbackModules, loopbackSinkInputs := modules, inputs;
      } else {
        streamLoopbackModules, streamLoopbackSinkInputs := modules, inputs;
      }
    }

    /** removeAllLoopbacks / removeAllStreamLoopbacks: unloads every module of the mix,
        whatever the server answers, and then forgets both tables. */
    method RemoveAllMixEdges(mix: Mix) returns (ghost order: seq<string>)
      modifies server, this`loopbackModules, this`loopbackSinkInputs
      modifies this`streamLoopbackModules, this`streamLoopbackSinkInputs
      ensures Enumerates(order, old(EdgeModules(mix)).Keys)
      ensures server.trace == old(server.trace) + Sweep(UnloadPass, old(CurrentWiring(mix)), order)
      ensures EdgeModules(mix) == map[] && EdgeInputs(mix) == map[]
      ensures EdgeModules(OtherMix(mix)) == old(EdgeModules(OtherMix(mix)))
      ensures EdgeInputs(OtherMix(mix)) == old(EdgeInputs(OtherMix(mix)))
    {
      order := UnloadLoop(CurrentWiring(mix));
      SetEdgeTables(mix, map[], map[]);
    }

    /** The unload loop of removeAllLoopbacks / removeAllStreamLoopbacks. */
    method UnloadLoop(w: Wiring) returns (order: seq<string>)
      modifies server
      ensures Enumerates(order, w.modules.Keys)
      ensures server.trace == old(server.trace) + Sweep(UnloadPass, w, order)
    {
      order := KeysOf(w.modules.Keys);
      for i := 0 to |order|
        invariant server.trace == old(server.trace) + Sweep(UnloadPass, w, order[..i])
      {
        ghost var t := server.trace;
        var _ := RemoveModule(w.modules[order[i]]);
        assert order[..i + 1][..i] == order[..i];
        assert server.trace == old(server.trace) + (Sweep(UnloadPass, w, order[..i]) + PassCmds(UnloadPass, w, order[i]));
      }
      assert order[..|order|] == order;
    }

    /** removeChannelLoopback / removeStreamChannelLoopback: the edge is forgotten only
        when the server unloads its module. */
    method RemoveMixEdge(mix: Mix, id: string) returns (ok: bool)
      modifies server, this`loopbackModules, this`loopbackSinkInputs
      modifies this`streamLoopbackModules, this`streamLoopbackSinkInputs
      ensures id !in old(EdgeModules(mix)) ==> !ok && server.trace == old(server.trace)
      ensures id in old(EdgeModules(mix)) ==> server.trace == old(server.trace) + [Unload(old(EdgeModules(mix))[id])]
      ensures ok ==> EdgeModules(mix) == old(EdgeModules(mix)) - {id} && EdgeInputs(mix) == old(EdgeInputs(mix)) - {id}
      ensures !ok ==> EdgeModules(mix) == old(EdgeModules(mix)) && EdgeInputs(mix) == old(EdgeInputs(mix))
      ensures EdgeModules(OtherMix(mix)) == old(EdgeModules(OtherMix(mix)))
      ensures EdgeInputs(OtherMix(mix)) == old(EdgeInputs(OtherMix(mix)))
    {
      ok := false;
      if id in EdgeModules(mix) {
        ok := RemoveModule(EdgeModules(mix)[id]);
        if ok {
          SetEdgeTables(mix, EdgeModules(mix) - {id}, EdgeInputs(mix) - {id});
        } else {
          SetEdgeTables(mix, EdgeModules(mix), EdgeInputs(mix));
        }
      } else {
        SetEdgeTables(mix, EdgeModules(mix), EdgeInputs(mix));
      }
    }

    /** addChannelLoopback / addStreamChannelLoopback: for a known channel of an active
        mix, drops any old edge, loads a loopback from the channel's monitor into the
        mix's device and, when its sink-input is found, takes that sink-input through
        0%, mute, the effective volume and unmute. */
    method AddMixEdge(mix: Mix, id: string) returns (ok: bool, ghost removal: seq<Command>, ghost input: nat)
      requires EdgesNested(mix)
      modifies server, this`loopbackModules, this`loopbackSinkInputs
      modifies this`streamLoopbackModules, this`streamLoopbackSinkInputs
      ensures EdgesNested(mix)
      ensures EdgeModules(OtherMix(mix)) == old(EdgeModules(OtherMix(mix)))
      ensures EdgeInputs(OtherMix(mix)) == old(EdgeInputs(OtherMix(mix)))
      ensures !(id in channels && MixActive(mix)) ==>
        !ok && server.trace == old(server.trace) && EdgeModules(mix) == old(EdgeModules(mix)) && EdgeInputs(mix) == old(EdgeInputs(mix))
      ensures id in channels && MixActive(mix) ==>
        && removal == (if id in old(EdgeModules(mix)) then [Unload(old(EdgeModules(mix))[id])] else [])
        && server.trace == old(server.trace) + removal
                    + AddEdgeCmds(MonitorOf(channels[id].sinkName), MixDevice(mix), input,
                                  Effective(Level(channels[id], mix), masterVolume))
      ensures input > 0 ==> ok && id in EdgeInputs(mix) && EdgeInputs(mix)[id] == input
      ensures ok ==> id in EdgeModules(mix)
      ensures input == 0 ==> id !in EdgeInputs(mix) || (id in old(EdgeInputs(mix)) && EdgeInputs(mix)[id] == old(EdgeInputs(mix))[id])
      ensures AgreeExcept(EdgeModules(mix), old(EdgeModules(mix)), id)
      ensures AgreeExcept(EdgeInputs(mix), old(EdgeInputs(mix)), id)
    {
      if id !in channels || !MixActive(mix) {
        return false, [], 0;
      }
      ok, removal, input := AddActiveEdge(mix, id);
    }

    /** AddMixEdge for a known channel of an active mix. */
    method AddActiveEdge(mix: Mix, id: string) returns (ok: bool, ghost removal: seq<Command>, ghost input: nat)
      requires EdgesNested(mix) && id in channels && MixActive(mix)
      modifies server, this`loopbackModules, this`loopbackSinkInputs
      modifies this`streamLoopbackModules, this`streamLoopbackSinkInputs
      ensures EdgesNested(mix) && id in channels && MixActive(mix)
      ensures EdgeModules(OtherMix(mix)) == old(EdgeModules(OtherMix(mix)))
      ensures EdgeInputs(OtherMix(mix)) == old(EdgeInputs(OtherMix(mix)))
      ensures removal == (if id in old(EdgeModules(mix)) then [Unload(old(EdgeModules(mix))[id])] else [])
      ensures server.trace == old(server.trace) + removal
                              + AddEdgeCmds(MonitorOf(channels[id].sinkName), MixDevice(mix), input,
                                            Effective(Level(channels[id], mix), masterVolume))
      ensures input > 0 ==> ok && id in EdgeInputs(mix) && EdgeInputs(mix)[id] == input
      ensures ok ==> id in EdgeModules(mix)
      ensures input == 0 ==> id !in EdgeInputs(mix) || (id in old(EdgeInputs(mix)) && EdgeInputs(mix)[id] == old(EdgeInputs(mix))[id])
      ensures AgreeExcept(EdgeModules(mix), old(EdgeModules(mix)), id)
      ensures AgreeExcept(EdgeInputs(mix), old(EdgeInputs(mix)), id)
    {
      removal := [];
      ghost var modules0, inputs0, trace0 := EdgeModules(mix), EdgeInputs(mix), server.trace;
      if id in EdgeModules(mix) {
        removal := [Unload(EdgeModules(mix)[id])];
      }
      var _ := RemoveMixEdge(mix, id);
      ghost var modules1, inputs1, trace1 := EdgeModules(mix), EdgeInputs(mix), server.trace;
      assert trace1 == trace0 + removal;
      assert AgreeExcept(modules1, modules0, id) && AgreeExcept(inputs1, inputs0, id);
      assert id in inputs1 ==> id in inputs0 && inputs1[id] == inputs0[id];
      ok, input := LoadMixEdge(mix, id);
      assert AgreeExcept(EdgeModules(mix), modules0, id) by {
        AgreeExceptTrans(EdgeModules(mix), modules1, modules0, id);
      }
      assert AgreeExcept(EdgeInputs(mix), inputs0, id) by {
        assert AgreeExcept(EdgeInputs(mix), inputs1, id);
        AgreeExceptTrans(EdgeInputs(mix), inputs1, inputs0, id);
      }
    }

    /** The loading half of addChannelLoopback, after any old edge was dropped. */
    method LoadMixEdge(mix: Mix, id: string) returns (ok: bool, ghost input: nat)
      requires id in channels && EdgesNested(mix)
      modifies server, this`loopbackModules, this`loopbackSinkInputs
      modifies this`streamLoopbackModules, this`streamLoopbackSinkInputs
      ensures EdgesNested(mix)
      ensures EdgeModules(OtherMix(mix)) == old(EdgeModules(OtherMix(mix)))
      ensures EdgeInputs(OtherMix(mix)) == old(EdgeInputs(OtherMix(mix)))
      ensures server.trace == old(server.trace) + AddEdgeCmds(MonitorOf(channels[id].sinkName), MixDevice(mix), input,
                                                Effective(Level(channels[id], mix), masterVolume))
      ensures input > 0 ==> ok && id in EdgeInputs(mix) && EdgeInputs(mix)[id] == input
      ensures ok ==> id in EdgeModules(mix)
      ensures input == 0 ==> EdgeInputs(mix) == old(EdgeInputs(mix))
      ensures input > 0 ==> EdgeInputs(mix) == old(EdgeInputs(mix))[id := input]
      ensures AgreeExcept(EdgeModules(mix), old(EdgeModules(mix)), id)
    {
      input := 0;
      var modules, inputs := EdgeModules(mix), EdgeInputs(mix);
      var st := channels[id];
      var loaded, moduleId := RunLoad(LoadLoopback(MonitorOf(st.sinkName), MixDevice(mix), LoopbackLatencyMsec));
      if !loaded {
        return false, input;
      }
      modules := modules[id := moduleId];
      var x := FindLoopbackSinkInput(moduleId);
      if x > 0 {
        input := x;
        inputs := inputs[id := x];
        SilenceInput(x);
        ArmInput(x, Effective(Level(st, mix), masterVolume));
      }
      // The tables are written once here; nothing between the load and this point
      // reads them.
      SetEdgeTables(mix, modules, inputs);
      assert TablesNested(modules, inputs, channels);
      return true, input;
    }

    /** The first half of the anti-pop sequence: a new loopback's sink-input is set to
        0% and muted before anything else is done with it. */
    method SilenceInput(x: nat)
      modifies server
      ensures server.trace == old(server.trace) + [InputVolume(x, 0), InputMute(x, true)]
    {
      var _ := RunCommand(InputVolume(x, 0));
      var _ := RunCommand(InputMute(x, true));
    }

    /** The second half: the target volume is set while muted, then the sink-input is
        unmuted. */
    method ArmInput(x: nat, target: int)
      modifies server
      ensures server.trace == old(server.trace) + [InputVolume(x, target), InputMute(x, false)]
    {
      var _ := RunCommand(InputVolume(x, target));
      var _ := RunCommand(InputMute(x, false));
    }

    /** The volume loop of applyMasterToLoopbacks and of a rebuild: every tracked
        sink-input of a known channel is set to level * master / 100. */
    method SettleLoop(w: Wiring) returns (order: seq<string>)
      modifies server
      ensures Enumerates(order, w.inputs.Keys)
      ensures server.trace == old(server.trace) + Sweep(SettlePass, w, order)
    {
      order := KeysOf(w.inputs.Keys);
      for i := 0 to |order|
        invariant server.trace == old(server.trace) + Sweep(SettlePass, w, order[..i])
      {
        var k := order[i];
        ghost var t := server.trace;
        if k in w.channels {
          var _ := RunCommand(InputVolume(w.inputs[k], TargetOf(w, k)));
        }
        assert server.trace == t + PassCmds(SettlePass, w, k);
        assert server.trace == old(server.trace) + Sweep(SettlePass, w, order[..i + 1]) by {
          assert order[..i + 1][..i] == order[..i] && order[..i + 1][i] == k;
          AppendAssoc(old(server.trace), Sweep(SettlePass, w, order[..i]), PassCmds(SettlePass, w, k));
        }
      }
      assert order[..|order|] == order;
    }

    /** The unmute loop of a rebuild, over the same iteration order as its volume loop. */
    method UnmuteLoop(w: Wiring, order: seq<string>)
      requires forall k :: k in order ==> k in w.inputs
      modifies server
      ensures server.trace == old(server.trace) + Sweep(UnmutePass, w, order)
    {
      for i := 0 to |order|
        invariant server.trace == old(server.trace) + Sweep(UnmutePass, w, order[..i])
      {
        ghost var t := server.trace;
        var _ := RunCommand(InputMute(w.inputs[order[i]], false));
        assert server.trace == t + PassCmds(UnmutePass, w, order[i]);
        assert server.trace == old(server.trace) + Sweep(UnmutePass, w, order[..i + 1]) by {
          assert order[..i + 1][..i] == order[..i] && order[..i + 1][i] == order[i];
          AppendAssoc(old(server.trace), Sweep(UnmutePass, w, order[..i]), PassCmds(UnmutePass, w, order[i]));
        }
      }
      assert order[..|order|] == order;
    }

    /** The creation loop of a rebuild, on empty tables: one loopback per channel; a
        module is tracked when the load succeeds, a sink-input when it is found, and a
        found sink-input is set to 0% and muted. Returns the tables it filled in. */
    method CreateLoop(mix: Mix, device: string, order: seq<string>)
      returns (modules: map<string, nat>, inputs: map<string, nat>)
      requires Distinct(order) && forall k :: k in order ==> k in channels
      modifies server
      ensures TablesNested(modules, inputs, channels)
      ensures server.trace == old(server.trace) + Sweep(CreatePass, Wiring(channels, device, modules, inputs, mix, masterVolume), order)
    {
      modules, inputs := map[], map[];
      for i := 0 to |order|
        invariant TablesNested(modules, inputs, channels)
        invariant forall k :: k in modules ==> k in order[..i]
        invariant server.trace == old(server.trace) + Sweep(CreatePass, Wiring(channels, device, modules, inputs, mix, masterVolume), order[..i])
      {
        var k := order[i];
        ghost var before := Wiring(channels, device, modules, inputs, mix, masterVolume);
        assert k !in order[..i] by {
          assert forall a :: 0 <= a < i ==> order[a] != k;
        }
        modules, inputs := CreateEdge(mix, device, k, modules, inputs);
        ghost var after := Wiring(channels, device, modules, inputs, mix, masterVolume);
        assert server.trace == old(server.trace) + Sweep(CreatePass, after, order[..i + 1]) by {
          CreateStep(before, after, order, i);
          AppendAssoc(old(server.trace), Sweep(CreatePass, before, order[..i]), PassCmds(CreatePass, after, k));
        }
      }
      assert order[..|order|] == order;
    }

    /** One step of the creation loop: load the loopback for channel k and, when its
        sink-input is found, silence it; the tables come back with what was tracked. */
    method CreateEdge(mix: Mix, device: string, k: string, modules: map<string, nat>, inputs: map<string, nat>)
      returns (modules': map<string, nat>, inputs': map<string, nat>)
      requires k in channels && k !in modules && TablesNested(modules, inputs, channels)
      modifies server
      ensures TablesNested(modules', inputs', channels)
      ensures modules' - {k} == modules && inputs' - {k} == inputs
      ensures forall j :: j in modules' ==> j == k || j in modules
      ensures server.trace == old(server.trace) + PassCmds(CreatePass, Wiring(channels, device, modules', inputs', mix, masterVolume), k)
    {
      modules', inputs' := modules, inputs;
      var loaded, moduleId := RunLoad(LoadLoopback(MonitorOf(channels[k].sinkName), device, LoopbackLatencyMsec));
      if loaded {
        modules' := modules[k := moduleId];
        var x := FindLoopbackSinkInput(moduleId);
        if x > 0 {
          inputs' := inputs[k := x];
          SilenceInput(x);
        }
      }
    }

    /** updateLoopbacks / updateStreamLoopbacks. With no device the mix is left as it
        is and the answer is false; a disabled stream mix is left as it is and the
        answer is true. Otherwise the commands are exactly RebuildCmds: device muted,
        old edges unloaded, new edges created at 0% and muted, effective volumes set,
        edges unmuted, device unmuted. */
    method RebuildMix(mix: Mix) returns (ok: bool, ghost unloadOrder: seq<string>,
                                         ghost createOrder: seq<string>, ghost liveOrder: seq<string>)
      requires Valid()
      modifies server, this`loopbackModules, this`loopbackSinkInputs
      modifies this`streamLoopbackModules, this`streamLoopbackSinkInputs
      ensures Valid()
      ensures EdgeModules(OtherMix(mix)) == old(EdgeModules(OtherMix(mix)))
      ensures EdgeInputs(OtherMix(mix)) == old(EdgeInputs(OtherMix(mix)))
      ensures ok <==> MixDevice(mix) != ""
      ensures !old(MixActive(mix)) ==>
        server.trace == old(server.trace) && EdgeModules(mix) == old(EdgeModules(mix)) && EdgeInputs(mix) == old(EdgeInputs(mix))
      ensures old(MixActive(mix)) ==>
        && Enumerates(unloadOrder, old(EdgeModules(mix)).Keys)
        && Enumerates(createOrder, channels.Keys)
        && Enumerates(liveOrder, EdgeInputs(mix).Keys)
        && server.trace == old(server.trace) + RebuildCmds(old(CurrentWiring(mix)), CurrentWiring(mix),
                                             unloadOrder, createOrder, liveOrder)
      ensures old(MixActive(mix)) && InjectiveInputs(CurrentWiring(mix)) ==>
        EdgesLiveAtTargets(CurrentWiring(mix), server.trace[|old(server.trace)|..])
    {
      unloadOrder, createOrder, liveOrder := [], [], [];
      if MixDevice(mix) == "" {
        return false, unloadOrder, createOrder, liveOrder;
      }
      if !MixActive(mix) {
        return true, unloadOrder, createOrder, liveOrder;
      }
      ghost var t0, before := server.trace, CurrentWiring(mix);
      unloadOrder, createOrder, liveOrder := RebuildActive(mix);
      ok := true;
      ghost var after := CurrentWiring(mix);
      if InjectiveInputs(after) {
        assert forall k :: k in after.channels ==> after.channels[k].sinkName == SinkNameFor(k) by {
          assert ChannelsOk();
        }
        assert TablesNested(after.modules, after.inputs, after.channels) by {
          assert EdgesNested(mix);
        }
        RebuildLeavesAllLive(before, after, unloadOrder, createOrder, liveOrder);
        SuffixAfter(t0, RebuildCmds(before, after, unloadOrder, createOrder, liveOrder));
      }
    }

    /** The rebuild of an active mix: the commands of RebuildLoops, then the new tables. */
    method RebuildActive(mix: Mix) returns (ghost unloadOrder: seq<string>,
                                            ghost createOrder: seq<string>, ghost liveOrder: seq<string>)
      requires Valid() && MixActive(mix)
      modifies server, this`loopbackModules, this`loopbackSinkInputs
      modifies this`streamLoopbackModules, this`streamLoopbackSinkInputs
      ensures Valid()
      ensures EdgeModules(OtherMix(mix)) == old(EdgeModules(OtherMix(mix)))
      ensures EdgeInputs(OtherMix(mix)) == old(EdgeInputs(OtherMix(mix)))
      ensures Enumerates(unloadOrder, old(EdgeModules(mix)).Keys)
      ensures Enumerates(createOrder, channels.Keys)
      ensures Enumerates(liveOrder, EdgeInputs(mix).Keys)
      ensures server.trace == old(server.trace) + RebuildCmds(old(CurrentWiring(mix)), CurrentWiring(mix),
                                                             unloadOrder, createOrder, liveOrder)
    {
      var modules, inputs;
      ghost var before := CurrentWiring(mix);
      modules, inputs, unloadOrder, createOrder, liveOrder := RebuildLoops(mix, CurrentWiring(mix));
      SetEdgeTables(mix, modules, inputs);
      EdgesKeepValid(mix);
      assert CurrentWiring(mix) == before.(modules := modules, inputs := inputs);
    }

    /** The commands of a rebuild, from the wiring `before`; returns the new tables. */
    method RebuildLoops(mix: Mix, before: Wiring)
      returns (modules: map<string, nat>, inputs: map<string, nat>, ghost unloadOrder: seq<string>,
               ghost createOrder: seq<string>, ghost liveOrder: seq<string>)
      requires before.mix == mix && before.channels == channels && before.master == masterVolume
      modifies server
      ensures TablesNested(modules, inputs, channels)
      ensures Enumerates(unloadOrder, before.modules.Keys)
      ensures Enumerates(createOrder, channels.Keys)
      ensures Enumerates(liveOrder, inputs.Keys)
      ensures server.trace == old(server.trace) + RebuildCmds(before, before.(modules := modules, inputs := inputs),
                                               unloadOrder, createOrder, liveOrder)
    {
      var device := before.device;
      ghost var t0 := server.trace;
      var _ := RunCommand(SinkMute(device, true));
      var unload := UnloadLoop(before);
      unloadOrder := unload;
      ghost var x1 := [SinkMute(device, true)];
      ghost var x2 := x1 + Sweep(UnloadPass, before, unloadOrder);
      AppendAssoc(t0, x1, Sweep(UnloadPass, before, unloadOrder));
      assert server.trace == t0 + x2;
      var order := KeysOf(channels.Keys);
      createOrder := order;
      modules, inputs := CreateLoop(mix, device, order);
      var after := Wiring(channels, device, modules, inputs, mix, masterVolume);
      ghost var x3 := x2 + Sweep(CreatePass, after, createOrder);
      AppendAssoc(t0, x2, Sweep(CreatePass, after, createOrder));
      assert server.trace == t0 + x3;
      var live := SettleLoop(after);
      liveOrder := live;
      ghost var x4 := x3 + Sweep(SettlePass, after, liveOrder);
      AppendAssoc(t0, x3, Sweep(SettlePass, after, liveOrder));
      assert server.trace == t0 + x4;
      UnmuteLoop(after, live);
      ghost var x5 := x4 + Sweep(UnmutePass, after, liveOrder);
      AppendAssoc(t0, x4, Sweep(UnmutePass, after, liveOrder));
      assert server.trace == t0 + x5;
      var _ := RunCommand(SinkMute(device, false));
      AppendAssoc(t0, x5, [SinkMute(device, false)]);
      assert after == before.(modules := modules, inputs := inputs);
    }

    // ----- Channels -----

    /** Replaces the stored state of a known channel; the key set, and with it every
        table that refers to it, stays as it was. */
    method StoreChannel(id: string, st: ChannelState)
      requires Valid() && id in channels && ChannelOk(id, st)
      modifies this`channels
      ensures Valid()
      ensures channels == old(channels)[id := st]
      ensures forall mix :: EdgeModules(mix) == old(EdgeModules(mix)) && EdgeInputs(mix) == old(EdgeInputs(mix))
      ensures forall mix :: MixActive(mix) == old(MixActive(mix)) && MixDevice(mix) == old(MixDevice(mix))
    {
      channels := channels[id := st];
      assert channels.Keys == old(channels).Keys;
    }

    /** listChannels: one Channel per stored channel, in hash order. */
    method ListChannels() returns (r: seq<Channel>, ghost order: seq<string>)
      requires Valid()
      ensures Enumerates(order, channels.Keys)
      ensures |r| == |order|
      ensures forall i :: 0 <= i < |r| ==> r[i] == ToChannel(channels[order[i]])
      ensures forall c :: c in r ==>
                c.id in ChannelIds && c.sinkName == SinkNameFor(c.id)
                && 0 <= c.personalVolume <= 100 && 0 <= c.streamVolume <= 100
    {
      var keys := KeysOf(channels.Keys);
      order := keys;
      r := ChannelRecords(channels, keys);
    }

    /** setChannelVolume: the clamped volume is sent to the channel's sink and stored
        only when the server accepts it; an unknown channel is refused. */
    method SetChannelVolume(id: string, volume: int) returns (ok: bool)
      requires Valid()
      modifies this`channels, server
      ensures Valid()
      ensures id !in old(channels) ==> !ok && server.trace == old(server.trace)
      ensures id in old(channels) ==> server.trace == old(server.trace) + [SinkVolume(SinkNameFor(id), ClampPercent(volume))]
      ensures ok ==> id in old(channels) && channels == old(channels)[id := old(channels)[id].(volume := ClampPercent(volume))]
      ensures !ok ==> channels == old(channels)
    {
      if id !in channels {
        return false;
      }
      var v := ClampPercent(volume);
      ok := SetSinkVolume(channels[id].sinkName, v);
      if ok {
        StoreChannel(id, channels[id].(volume := v));
      }
    }

    /** setChannelMute: the same, for the sink's mute. */
    method SetChannelMute(id: string, muted: bool) returns (ok: bool)
      requires Valid()
      modifies this`channels, server
      ensures Valid()
      ensures id !in old(channels) ==> !ok && server.trace == old(server.trace)
      ensures id in old(channels) ==> server.trace == old(server.trace) + [SinkMute(SinkNameFor(id), muted)]
      ensures ok ==> id in old(channels) && channels == old(channels)[id := old(channels)[id].(muted := muted)]
      ensures !ok ==> channels == old(channels)
    {
      if id !in channels {
        return false;
      }
      ok := SetSinkMute(channels[id].sinkName, muted);
      if ok {
        StoreChannel(id, channels[id].(muted := muted));
      }
    }

    /** setMixVolume: sets the volume of the sink named after the mix id, clamped;
        nothing checks that such a sink exists. */
    method SetMixVolume(mixId: string, volume: int) returns (ok: bool)
      modifies server
      ensures server.trace == old(server.trace) + [SinkVolume(SinkPrefix + mixId, ClampPercent(volume))]
    {
      ok := SetSinkVolume(SinkPrefix + mixId, volume);
    }

    /** setMasterVolume / applyMasterToLoopbacks: stores the clamped master and sets
        every tracked sink-input of both mixes to its new effective volume, personal
        mix first. Always succeeds. */
    method SetMasterVolume(volume: int) returns (ok: bool, ghost personalOrder: seq<string>,
                                                 ghost streamOrder: seq<string>)
      requires Valid()
      modifies this`masterVolume, server
      ensures Valid() && ok
      ensures masterVolume == ClampPercent(volume)
      ensures Enumerates(personalOrder, loopbackSinkInputs.Keys)
      ensures Enumerates(streamOrder, streamLoopbackSinkInputs.Keys)
      ensures server.trace == old(server.trace) + (Sweep(SettlePass, CurrentWiring(PersonalMix), personalOrder)
                                     + Sweep(SettlePass, CurrentWiring(StreamMix), streamOrder))
    {
      masterVolume := ClampPercent(volume);
      ghost var t0 := server.trace;
      var o1 := SettleLoop(CurrentWiring(PersonalMix));
      var o2 := SettleLoop(CurrentWiring(StreamMix));
      personalOrder, streamOrder := o1, o2;
      AppendAssoc(t0, Sweep(SettlePass, CurrentWiring(PersonalMix), o1), Sweep(SettlePass, CurrentWiring(StreamMix), o2));
      ok := true;
    }

    /** setChannelPersonalVolume / setChannelStreamVolume: stores the clamped level of a
        known channel; when the mix is active and has no sink-input for the channel it
        adds the edge, and when it then has one it sets that sink-input to the new
        effective volume. A newly added edge whose sink-input was found ends live. */
    method SetChannelMixLevel(mix: Mix, id: string, volume: int)
      returns (ok: bool, ghost added: bool, ghost input: nat)
      requires Valid()
      modifies this`channels, server, this`loopbackModules, this`loopbackSinkInputs
      modifies this`streamLoopbackModules, this`streamLoopbackSinkInputs
      ensures Valid()
      ensures ok <==> id in old(channels)
      ensures !ok ==> channels == old(channels) && server.trace == old(server.trace)
      ensures ok ==> channels == old(channels)[id := WithLevel(old(channels)[id], mix, ClampPercent(volume))]
      ensures ok ==> EdgeTarget(mix, id) == Effective(ClampPercent(volume), masterVolume)
      ensures old(server.trace) <= server.trace
      ensures EdgeModules(OtherMix(mix)) == old(EdgeModules(OtherMix(mix)))
      ensures EdgeInputs(OtherMix(mix)) == old(EdgeInputs(OtherMix(mix)))
      ensures !(ok && MixActive(mix)) ==>
        server.trace == old(server.trace) && EdgeModules(mix) == old(EdgeModules(mix)) && EdgeInputs(mix) == old(EdgeInputs(mix))
      ensures ok && MixActive(mix) ==> EdgeDriven(id, MonitorOf(SinkNameFor(id)), MixDevice(mix), EdgeTarget(mix, id),
                         old(EdgeModules(mix)), old(EdgeInputs(mix)), EdgeModules(mix), EdgeInputs(mix),
                         old(server.trace), server.trace, added, input)
    {
      added, input := false, 0;
      if id !in channels {
        return false, added, input;
      }
      ok := true;
      added, input := StoreLevel(mix, id, ClampPercent(volume));
    }

    /** The body of SetChannelMixLevel for a known channel and a clamped level. */
    method StoreLevel(mix: Mix, id: string, v: int) returns (ghost added: bool, ghost input: nat)
      requires Valid() && id in channels && 0 <= v <= 100
      modifies this`channels, server, this`loopbackModules, this`loopbackSinkInputs
      modifies this`streamLoopbackModules, this`streamLoopbackSinkInputs
      ensures Valid()
      ensures channels == old(channels)[id := WithLevel(old(channels)[id], mix, v)]
      ensures EdgeTarget(mix, id) == Effective(v, masterVolume)
      ensures old(server.trace) <= server.trace
      ensures EdgeModules(OtherMix(mix)) == old(EdgeModules(OtherMix(mix)))
      ensures EdgeInputs(OtherMix(mix)) == old(EdgeInputs(OtherMix(mix)))
      ensures !MixActive(mix) ==>
        server.trace == old(server.trace) && EdgeModules(mix) == old(EdgeModules(mix)) && EdgeInputs(mix) == old(EdgeInputs(mix))
      ensures MixActive(mix) ==> EdgeDriven(id, MonitorOf(SinkNameFor(id)), MixDevice(mix), EdgeTarget(mix, id),
                         old(EdgeModules(mix)), old(EdgeInputs(mix)), EdgeModules(mix), EdgeInputs(mix),
                         old(server.trace), server.trace, added, input)
    {
      added, input := false, 0;
      ghost var modules, inputs, trace := EdgeModules(mix), EdgeInputs(mix), server.trace;
      StoreChannel(id, WithLevel(channels[id], mix, v));
      assert EdgeModules(mix) == modules && EdgeInputs(mix) == inputs && server.trace == trace;
      if MixActive(mix) {
        added, input := DriveActiveEdge(mix, id);
        assert EdgeDriven(id, MonitorOf(SinkNameFor(id)), MixDevice(mix), EdgeTarget(mix, id),
                          modules, inputs, EdgeModules(mix), EdgeInputs(mix), trace, server.trace, added, input);
      }
    }

    /** DriveEdge on an engine in its invariant. */
    method DriveActiveEdge(mix: Mix, id: string) returns (ghost added: bool, ghost input: nat)
      requires Valid() && MixActive(mix) && id in channels
      modifies server, this`loopbackModules, this`loopbackSinkInputs
      modifies this`streamLoopbackModules, this`streamLoopbackSinkInputs
      ensures Valid()
      ensures EdgeModules(OtherMix(mix)) == old(EdgeModules(OtherMix(mix)))
      ensures EdgeInputs(OtherMix(mix)) == old(EdgeInputs(OtherMix(mix)))
      ensures EdgeDriven(id, MonitorOf(SinkNameFor(id)), MixDevice(mix), EdgeTarget(mix, id),
                         old(EdgeModules(mix)), old(EdgeInputs(mix)), EdgeModules(mix), EdgeInputs(mix),
                         old(server.trace), server.trace, added, input)
    {
      assert EdgesNested(mix) && channels[id].sinkName == SinkNameFor(id) by {
        assert ChannelsOk();
      }
      added, input := DriveEdge(mix, id);
      EdgesKeepValid(mix);
    }

    /** The edge half of a level change on an active mix: add the channel's edge when
        the mix has no sink-input for it, then set that sink-input to the channel's
        effective volume. */
    method DriveEdge(mix: Mix, id: string) returns (ghost added: bool, ghost input: nat)
      requires EdgesNested(mix) && MixActive(mix) && id in channels && channels[id].sinkName == SinkNameFor(id)
      modifies server, this`loopbackModules, this`loopbackSinkInputs
      modifies this`streamLoopbackModules, this`streamLoopbackSinkInputs
      ensures EdgesNested(mix)
      ensures EdgeModules(OtherMix(mix)) == old(EdgeModules(OtherMix(mix)))
      ensures EdgeInputs(OtherMix(mix)) == old(EdgeInputs(OtherMix(mix)))
      ensures OnlyEdgesChanged(mix)
      ensures EdgeDriven(id, MonitorOf(SinkNameFor(id)), MixDevice(mix), EdgeTarget(mix, id),
                         old(EdgeModules(mix)), old(EdgeInputs(mix)), EdgeModules(mix), EdgeInputs(mix),
                         old(server.trace), server.trace, added, input)
    {
      if id in EdgeInputs(mix) {
        added, input := false, 0;
        ghost var t0 := server.trace;
        var _ := RunCommand(InputVolume(EdgeInputs(mix)[id], EdgeTarget(mix, id)));
        LastVolumeOfLast(t0, EdgeInputs(mix)[id], EdgeTarget(mix, id));
      } else {
        added := true;
        input := AddAndDrive(mix, id);
      }
    }

    /** A channel with no sink-input in an active mix: its edge is added and, when the
        new sink-input is found, driven to the effective volume once more; the edge ends
        live at that volume and only the channel's own table entries change. */
    method AddAndDrive(mix: Mix, id: string) returns (ghost input: nat)
      requires EdgesNested(mix) && MixActive(mix) && id in channels && channels[id].sinkName == SinkNameFor(id)
      requires id !in EdgeInputs(mix)
      modifies server, this`loopbackModules, this`loopbackSinkInputs
      modifies this`streamLoopbackModules, this`streamLoopbackSinkInputs
      ensures EdgesNested(mix)
      ensures EdgeModules(OtherMix(mix)) == old(EdgeModules(OtherMix(mix)))
      ensures EdgeInputs(OtherMix(mix)) == old(EdgeInputs(OtherMix(mix)))
      ensures AgreeExcept(EdgeModules(mix), old(EdgeModules(mix)), id)
      ensures AgreeExcept(EdgeInputs(mix), old(EdgeInputs(mix)), id)
      ensures id in EdgeInputs(mix) <==> input > 0
      ensures server.trace == old(server.trace) + StaleUnload(old(EdgeModules(mix)), id)
                              + AddEdgeCmds(MonitorOf(SinkNameFor(id)), MixDevice(mix), input, EdgeTarget(mix, id))
                              + (if input > 0 then [InputVolume(input, EdgeTarget(mix, id))] else [])
      ensures input > 0 ==>
        && EdgeInputs(mix)[id] == input
        && EdgeLive(server.trace[|old(server.trace)|..], Edge(MonitorOf(SinkNameFor(id)), MixDevice(mix), input, EdgeTarget(mix, id)))
        && LastVolume(server.trace, input) == Some(EdgeTarget(mix, id))
    {
      var target := EdgeTarget(mix, id);
      ghost var t0, m0 := server.trace, EdgeModules(mix);
      var _, removal, x := AddMixEdge(mix, id);
      input := x;
      assert removal == StaleUnload(m0, id);
      ghost var t1 := server.trace;
      if id in EdgeInputs(mix) {
        var e := Edge(MonitorOf(SinkNameFor(id)), MixDevice(mix), x, target);
        assert forall c :: c in removal ==> !About(c, e);
        ghost var added := removal + AddEdgeCmds(e.source, e.device, x, target);
        AddedEdgeLive(removal, e.source, e.device, x, target);
        AppendAssoc(t0, removal, AddEdgeCmds(e.source, e.device, x, target));
        var _ := RunCommand(InputVolume(EdgeInputs(mix)[id], target));
        VolumeKeepsLive(added, e, target);
        AppendAssoc(t0, added, [InputVolume(x, target)]);
        SuffixAfter(t0, added + [InputVolume(x, target)]);
        LastVolumeOfLast(t1, x, target);
      } else {
        assert t1 + [] == t1;
      }
    }

    // ----- Routing rules and stream assignments -----

    /** getStreamChannel: the channel a stream is assigned to, or the empty string for
        an unassigned stream. */
    function StreamChannel(streamId: nat): (c: string)
      requires Valid()
      reads this
      ensures c == "" <==> streamId !in streamAssignments
      ensures c != "" ==> c in channels && streamAssignments[streamId] == c
    {
      if streamId in streamAssignments then streamAssignments[streamId] else ""
    }

    /** Records that a stream now plays on a known channel. */
    method AssignStream(streamId: nat, channelId: string)
      requires Valid() && channelId in channels
      modifies this`streamAssignments
      ensures Valid()
      ensures streamAssignments == old(streamAssignments)[streamId := channelId]
    {
      streamAssignments := streamAssignments[streamId := channelId];
    }

    /** Forgets a stream's assignment, if it has one. */
    method ForgetStream(streamId: nat)
      requires Valid()
      modifies this`streamAssignments
      ensures Valid()
      ensures streamAssignments == old(streamAssignments) - {streamId}
    {
      streamAssignments := streamAssignments - {streamId};
    }

    /** addRoutingRule: drops every rule with the pattern and appends the new one, so
        patterns stay unique and the pattern's rule is tried last. The target is not
        checked against the channels. */
    method AddRoutingRule(pattern: string, channelId: string)
      requires Valid()
      modifies this`routingRules
      ensures Valid()
      ensures routingRules == WithRule(old(routingRules), pattern, channelId)
    {
      var kept := EraseMatching(routingRules, pattern);
      WithRuleKeepsUnique(routingRules, pattern, channelId);
      routingRules := kept + [RoutingRule(pattern, channelId)];
    }

    /** removeRoutingRule: drops the pattern's rule and keeps the others in order. */
    method RemoveRoutingRule(pattern: string)
      requires Valid()
      modifies this`routingRules
      ensures Valid()
      ensures routingRules == WithoutPattern(old(routingRules), pattern)
    {
      var kept := EraseMatching(routingRules, pattern);
      WithoutPatternKeepsUnique(routingRules, pattern);
      routingRules := kept;
    }

    /** moveStreamToChannel: an unknown channel is refused with no command sent. The
        stream is assigned only when the server moves it; the stream is then looked
        up again and, when it has a process or application name, a rule for that name
        is learned. */
    method MoveStreamToChannel(streamId: nat, channelId: string) returns (ok: bool, ghost learned: Option<StreamInfo>)
      requires Valid()
      modifies server, this`streamAssignments, this`routingRules
      ensures Valid()
      ensures channelId !in channels ==> !ok && server.trace == old(server.trace)
      ensures channelId in channels ==> server.trace == old(server.trace) + [MoveInput(streamId, SinkNameFor(channelId))]
      ensures ok ==> StreamChannel(streamId) == channelId
      ensures ok ==> streamAssignments == old(streamAssignments)[streamId := channelId]
      ensures ok ==> routingRules == AfterManualMove(old(routingRules), learned, channelId)
      ensures learned.Some? ==> learned.value.id == streamId
      ensures !ok ==> streamAssignments == old(streamAssignments) && routingRules == old(routingRules)
    {
      learned := None;
      if channelId !in channels {
        return false, learned;
      }
      ok := RunCommand(MoveInput(streamId, channels[channelId].sinkName));
      if ok {
        AssignStream(streamId, channelId);
        var info := QueryStreamInfo(streamId);
        learned := info;
        if info.Some? {
          var pattern := AutoRulePattern(info.value);
          if pattern != "" {
            AddRoutingRule(pattern, channelId);
          }
        }
      }
    }

    /** unassignStream: the stream is sent to the silent sink and loses its assignment
        only when the server moves it. */
    method UnassignStream(streamId: nat) returns (ok: bool)
      requires Valid()
      modifies server, this`streamAssignments
      ensures Valid()
      ensures server.trace == old(server.trace) + [MoveInput(streamId, UnassignedSinkName)]
      ensures ok ==> StreamChannel(streamId) == "" && streamAssignments == old(streamAssignments) - {streamId}
      ensures !ok ==> streamAssignments == old(streamAssignments)
    {
      ok := RunCommand(MoveInput(streamId, UnassignedSinkName));
      if ok {
        ForgetStream(streamId);
      }
    }

    /** applyRoutingRules: the first rule, in list order, that matches the application
        or process name decides, and the stream is moved as by moveStreamToChannel to
        that rule's target (copied before the move); with no match the stream is sent
        to the silent sink and its assignment, if any, is kept. */
    method ApplyRoutingRules(streamId: nat, appName: string, processName: string)
      returns (ghost matched: Option<nat>, ghost moved: bool, ghost learned: Option<StreamInfo>)
      requires Valid()
      modifies server, this`streamAssignments, this`routingRules
      ensures Valid()
      ensures matched == FirstMatch(old(routingRules), appName, processName, matches)
      ensures moved ==> RuleTarget(old(routingRules), appName, processName, matches) == Some(StreamChannel(streamId))
      ensures RuleRouted(streamId, matched, moved, learned, old(routingRules), routingRules,
                         old(streamAssignments), streamAssignments, channels, old(server.trace), server.trace)
    {
      moved, learned := false, None;
      var m := FindFirstMatch(routingRules, appName, processName, matches);
      matched := m;
      if m.Some? {
        var target := routingRules[m.value].targetChannel;
        var ok;
        ok, learned := MoveStreamToChannel(streamId, target);
        moved := ok;
      } else {
        var _ := RunCommand(MoveInput(streamId, UnassignedSinkName));
      }
    }

    /** The rule and silent-sink half of syncExistingStreams for one stream: a
        matching rule moves the stream as moveStreamToChannel does (its target copied
        before the move); with no match the stream is sent to the silent sink and, when
        the server moves it, loses its assignment. */
    method RouteOrSilence(streamId: nat, appName: string, processName: string)
      returns (ghost matched: Option<nat>, ghost moved: bool, ghost learned: Option<StreamInfo>)
      requires Valid()
      modifies server, this`streamAssignments, this`routingRules
      ensures Valid()
      ensures matched == FirstMatch(old(routingRules), appName, processName, matches)
      ensures SyncRouted(streamId, matched, moved, learned, old(routingRules), routingRules,
                         old(streamAssignments), streamAssignments, channels, old(server.trace), server.trace)
    {
      learned := None;
      var m := FindFirstMatch(routingRules, appName, processName, matches);
      matched := m;
      if m.Some? {
        var target := routingRules[m.value].targetChannel;
        var ok;
        ok, learned := MoveStreamToChannel(streamId, target);
        moved := ok;
      } else {
        var ok := RunCommand(MoveInput(streamId, UnassignedSinkName));
        moved := ok;
        if ok {
          ForgetStream(streamId);
        }
      }
    }

    /** One line of the short sink-input listing in syncExistingStreams. A stream on
        a channel sink is recorded as assigned to that channel. Any other stream is
        looked up; one that is gone, a loopback or nameless is left alone, and the
        rest are routed by RouteOrSilence. */
    method SyncEntry(table: map<nat, string>, e: SinkInputEntry)
      returns (ghost info: Option<StreamInfo>, ghost matched: Option<nat>, ghost moved: bool,
               ghost learned: Option<StreamInfo>)
      requires Valid() && forall i :: i in table ==> table[i] in channels
      modifies server, this`streamAssignments, this`routingRules
      ensures Valid()
      ensures OnlyMoves(old(server.trace), server.trace)
      ensures e.sinkIndex in table ==>
        && streamAssignments == old(streamAssignments)[e.id := table[e.sinkIndex]]
        && server.trace == old(server.trace) && routingRules == old(routingRules)
      ensures info.Some? ==> info.value.id == e.id
      ensures e.sinkIndex !in table && (info.None? || IgnoredOnSync(info.value.appName, info.value.processName)) ==>
        server.trace == old(server.trace) && streamAssignments == old(streamAssignments) && routingRules == old(routingRules)
      ensures e.sinkIndex !in table && info.Some? && !IgnoredOnSync(info.value.appName, info.value.processName) ==>
        && matched == FirstMatch(old(routingRules), info.value.appName, info.value.processName, matches)
        && SyncRouted(e.id, matched, moved, learned, old(routingRules), routingRules,
                      old(streamAssignments), streamAssignments, channels, old(server.trace), server.trace)
    {
      info, matched, moved, learned := None, None, false, None;
      if e.sinkIndex in table {
        AssignStream(e.id, table[e.sinkIndex]);
        return;
      }
      var found := QueryStreamInfo(e.id);
      info := found;
      if found.None? || IgnoredOnSync(found.value.appName, found.value.processName) {
        return;
      }
      matched, moved, learned := RouteOrSilence(e.id, found.value.appName, found.value.processName);
    }

    /** The first loop of syncExistingStreams: the index the server now reports for
        each channel's sink, mapped to the channel's id. `reported` holds the lookups
        that succeeded; when two sinks report one index the later channel wins. */
    method ChannelSinkIndexes() returns (table: map<nat, string>, ghost reported: map<string, nat>)
      requires ChannelsOk()
      ensures forall i :: i in table ==> i > 0 && table[i] in channels
      ensures forall i :: i in table ==> table[i] in reported && reported[table[i]] == i
      ensures forall k :: k in reported ==> k in channels && reported[k] in table
    {
      table, reported := map[], map[];
      var keys := KeysOf(channels.Keys);
      for j := 0 to |keys|
        invariant forall i :: i in table ==> i > 0 && table[i] in channels
        invariant forall i :: i in table ==> table[i] in reported && reported[table[i]] == i
        invariant forall k :: k in reported ==> k in keys[..j] && reported[k] in table
      {
        var st := channels[keys[j]];
        var info := QuerySinkInfo(st.sinkName);
        assert keys[j] !in keys[..j] by {
          assert forall a :: 0 <= a < j ==> keys[a] != keys[j];
        }
        if info.Some? {
          table := table[info.value.index := st.id];
          reported := reported[st.id := info.value.index];
        }
      }
    }

    /** syncExistingStreams: records the streams already on channel sinks and routes
        every other named stream by the rules or to the silent sink. It only ever
        moves streams. */
    method SyncExistingStreams()
      requires Valid()
      modifies server, this`streamAssignments, this`routingRules
      ensures Valid()
      ensures OnlyMoves(old(server.trace), server.trace)
    {
      var table; ghost var reported;
      table, reported := ChannelSinkIndexes();
      var ok, entries := QuerySinkInputEntries();
      if !ok {
        return;
      }
      for i := 0 to |entries|
        invariant Valid()
        invariant OnlyMoves(old(server.trace), server.trace)
      {
        ghost var t := server.trace;
        var _, _, _, _ := SyncEntry(table, entries[i]);
        OnlyMovesTrans(old(server.trace), t, server.trace);
      }
    }

    /** One stream of applyRoutingRulesToExistingStreams: unless it is a loopback or
        nameless, the first matching rule decides; a target that is a known channel is
        moved to and, when the server moves the stream, assigned. No rule is learned. */
    method RouteExistingStream(b: SinkInputBlock) returns (ghost matched: Option<nat>, ghost moved: bool)
      requires Valid()
      modifies server, this`streamAssignments
      ensures Valid()
      ensures IgnoredOnArrival(b.appName, b.mediaName, b.processName) ==> matched.None?
      ensures !IgnoredOnArrival(b.appName, b.mediaName, b.processName) ==>
                matched == FirstMatch(routingRules, b.appName, b.processName, matches)
      ensures matched.None? ==> !moved && server.trace == old(server.trace) && streamAssignments == old(streamAssignments)
      ensures matched.Some? ==>
        && Routed(routingRules[matched.value].targetChannel, b.id, channels, old(server.trace), server.trace)
        && (moved ==> streamAssignments == old(streamAssignments)[b.id := routingRules[matched.value].targetChannel])
        && (!moved ==> streamAssignments == old(streamAssignments))
      ensures RuleMoves(routingRules, old(streamAssignments), streamAssignments, old(server.trace), server.trace)
    {
      matched, moved := None, false;
      if IgnoredOnArrival(b.appName, b.mediaName, b.processName) {
        return;
      }
      var m := FindFirstMatch(routingRules, b.appName, b.processName, matches);
      matched := m;
      if m.Some? {
        var target := routingRules[m.value].targetChannel;
        if target in channels {
          var ok := RunCommand(MoveInput(b.id, channels[target].sinkName));
          moved := ok;
          if ok {
            AssignStream(b.id, target);
          }
        }
      }
    }

    /** applyRoutingRulesToExistingStreams: with rules and a sink-input listing, routes
        each listed stream by RouteExistingStream. It learns no rule, drops no
        assignment, and moves streams only to the sinks of rule targets. */
    method ApplyRoutingRulesToExistingStreams()
      requires Valid()
      modifies server, this`streamAssignments
      ensures Valid()
      ensures routingRules == [] ==> server.trace == old(server.trace) && streamAssignments == old(streamAssignments)
      ensures RuleMoves(routingRules, old(streamAssignments), streamAssignments, old(server.trace), server.trace)
    {
      if routingRules == [] {
        return;
      }
      var ok, blocks := QuerySinkInputBlocks();
      if !ok {
        return;
      }
      for i := 0 to |blocks|
        invariant Valid()
        invariant RuleMoves(routingRules, old(streamAssignments), streamAssignments, old(server.trace), server.trace)
      {
        if blocks[i].id > 0 {
          ghost var a, t := streamAssignments, server.trace;
          var _, _ := RouteExistingStream(blocks[i]);
          RuleMovesTrans(routingRules, old(streamAssignments), a, streamAssignments, old(server.trace), t, server.trace);
        }
      }
    }

    // ----- Stream events -----

    /** handleStreamEvent: "new" starts the settle timer for the stream, "remove"
        drops its assignment at once, and any other event changes no state. */
    method HandleStreamEvent(kind: string, id: nat)
      requires Valid()
      modifies this`pendingSettles, this`streamAssignments
      ensures Valid()
      ensures kind == "new" ==> pendingSettles == old(pendingSettles) + [id] && streamAssignments == old(streamAssignments)
      ensures kind == "remove" ==> streamAssignments == old(streamAssignments) - {id} && pendingSettles == old(pendingSettles)
      ensures kind != "new" && kind != "remove" ==>
                pendingSettles == old(pendingSettles) && streamAssignments == old(streamAssignments)
    {
      if kind == "new" {
        pendingSettles := pendingSettles + [id];
      } else if kind == "remove" {
        ForgetStream(id);
      }
    }

    /** The settle timer of the oldest "new" event fires. */
    method FireSettleTimer() returns (ghost info: Option<StreamInfo>, ghost routed: bool, ghost matched: Option<nat>,
                                      ghost moved: bool, ghost learned: Option<StreamInfo>)
      requires Valid() && pendingSettles != []
      modifies this`pendingSettles, server, this`streamAssignments, this`routingRules
      ensures Valid()
      ensures pendingSettles == old(pendingSettles)[1..]
      ensures Settled(old(pendingSettles)[0], info, routed, matched, moved, learned,
                      loopbackSinkInputs.Values + streamLoopbackSinkInputs.Values, matches,
                      old(routingRules), routingRules, old(streamAssignments), streamAssignments,
                      channels, old(server.trace), server.trace)
    {
      var id := pendingSettles[0];
      pendingSettles := pendingSettles[1..];
      info, routed, matched, moved, learned := NewStreamSettled(id);
    }

    /** The delayed callback of a "new" event: the stream is looked up again, and is
        routed by applyRoutingRules unless it is gone, a loopback or nameless, or one of
        the sink-inputs either mix tracks for its own loopbacks. */
    method NewStreamSettled(id: nat) returns (ghost info: Option<StreamInfo>, ghost routed: bool, ghost matched: Option<nat>,
                                              ghost moved: bool, ghost learned: Option<StreamInfo>)
      requires Valid()
      modifies server, this`streamAssignments, this`routingRules
      ensures Valid()
      ensures Settled(id, info, routed, matched, moved, learned,
                      loopbackSinkInputs.Values + streamLoopbackSinkInputs.Values, matches,
                      old(routingRules), routingRules, old(streamAssignments), streamAssignments,
                      channels, old(server.trace), server.trace)
    {
      routed, matched, moved, learned := false, None, false, None;
      var found := QueryStreamInfo(id);
      info := found;
      if found.None? {
        return;
      }
      var st := found.value;
      if IgnoredOnArrival(st.appName, st.mediaName, st.processName) {
        return;
      }
      var own := TracksSinkInput(loopbackSinkInputs, id);
      if own {
        return;
      }
      own := TracksSinkInput(streamLoopbackSinkInputs, id);
      if own {
        return;
      }
      routed := true;
      matched, moved, learned := ApplyRoutingRules(id, st.appName, st.processName);
    }

    // ----- Start-up and shut-down -----

    /** Replaces the channel table with one that keeps every known channel. */
    method StoreChannelTable(table: map<string, ChannelState>)
      requires Valid() && ChannelTableOk(table) && channels.Keys <= table.Keys
      modifies this`channels
      ensures Valid()
      ensures channels == table
    {
      channels := table;
    }

    /** The loop of createChannels, on a copy of the channel table: each channel's
        sink is looked up and created when missing (a failed creation ends the loop
        with false), its volume is reset to 100%, and when the sink can be looked up
        again a fresh state is stored under the channel's id. */
    method CreateChannelsLoop(chans: map<string, ChannelState>)
      returns (ok: bool, chans': map<string, ChannelState>, ghost existed: seq<bool>, ghost indexes: seq<nat>)
      requires ChannelTableOk(chans)
      modifies server
      ensures ChannelTableOk(chans') && Refreshed(chans, chans')
      ensures |indexes| <= |ChannelIds| && chans' == Refreshing(chans, indexes)
      ensures ok ==> |indexes| == |ChannelIds|
      ensures !ok ==> |indexes| == |existed| - 1
      ensures ok ==> |existed| == |ChannelIds| && server.trace == old(server.trace) + CreationCmds(ChannelIds, existed)
      ensures !ok ==>
        && 0 < |existed| <= |ChannelIds| && !existed[|existed| - 1]
        && server.trace == old(server.trace) + CreationCmds(ChannelIds[..|existed| - 1], existed[..|existed| - 1])
                                         + [LoadNullSink(SinkNameFor(ChannelIds[|existed| - 1]),
                                                         ReplaceSpaces(SinkDescription(ChannelIds[|existed| - 1])))]
    {
      ok, chans', existed, indexes := true, chans, [], [];
      var i := 0;
      while i < |ChannelIds|
        invariant 0 <= i <= |ChannelIds| && |existed| == i && |indexes| == i
        invariant chans' == Refreshing(chans, indexes)
        invariant server.trace == old(server.trace) + CreationCmds(ChannelIds[..i], existed)
      {
        var id := ChannelIds[i];
        ghost var t1 := server.trace;
        var done, present, index := SetupChannel(id);
        if !done {
          existed := existed + [present];
          assert existed[..i] == existed[..|existed| - 1];
          RefreshingOk(chans, indexes);
          return false, chans', existed, indexes;
        }
        CreationTraceStep(old(server.trace), t1, server.trace, i, existed, id, present);
        existed := existed + [present];
        assert (indexes + [index])[..i] == indexes;
        if index > 0 {
          chans' := chans'[id := FreshChannelState(id, index)];
        }
        indexes := indexes + [index];
        i := i + 1;
      }
      assert ChannelIds[..|ChannelIds|] == ChannelIds;
      RefreshingOk(chans, indexes);
    }

    /** One channel of createChannels: the sink is looked up and created when missing
        (a failed creation answers false), its volume is reset to 100%, and it is
        looked up again for its index (0 when the lookup fails). */
    method SetupChannel(id: string) returns (ok: bool, existed: bool, index: nat)
      modifies server
      ensures ok ==> server.trace == old(server.trace) + SinkSetupCmds(id, existed)
      ensures !ok ==> !existed && server.trace == old(server.trace) + [LoadNullSink(SinkNameFor(id), ReplaceSpaces(SinkDescription(id)))]
    {
      index := 0;
      var name := SinkNameFor(id);
      var present := QuerySinkInfo(name);
      existed := present.Some?;
      if !existed {
        ok := CreateVirtualSink(name, SinkDescription(id));
        if !ok {
          return;
        }
      }
      ok := true;
      var _ := SetSinkVolume(name, 100);
      var info := QuerySinkInfo(name);
      if info.Some? {
        index := info.value.index;
      }
    }

    /** createChannels: the loop's table is stored whether or not it ran to the end. */
    method CreateChannels() returns (ok: bool, ghost existed: seq<bool>, ghost indexes: seq<nat>)
      requires Valid()
      modifies server, this`channels
      ensures Valid()
      ensures Refreshed(old(channels), channels) && RefreshedBy(old(channels), channels, indexes)
      ensures ok ==> |indexes| == |ChannelIds|
      ensures ok ==> |existed| == |ChannelIds| && server.trace == old(server.trace) + CreationCmds(ChannelIds, existed)
      ensures old(server.trace) <= server.trace
    {
      var table;
      ok, table, existed, indexes := CreateChannelsLoop(channels);
      RefreshingMeaning(old(channels), indexes);
      StoreChannelTable(table);
    }

    /** The sink half of initialize: the silent sink is created (the only failure that
        stops before any channel is touched), its module id recorded when the module
        listing answers, muted, and then the channel sinks are set up. */
    method InitSinks() returns (ok: bool, ghost existed: seq<bool>)
      requires Valid()
      modifies server, this`unassignedSinkModule, this`channels
      ensures Valid()
      ensures Refreshed(old(channels), channels)
      ensures old(server.trace) + [CreateUnassignedCmd] <= server.trace
      ensures ok ==> |existed| == |ChannelIds| && server.trace == old(server.trace) + SinkCmds(existed)
    {
      existed := [];
      ok := CreateSilentSink();
      if !ok {
        return;
      }
      ghost var indexes;
      ok, existed, indexes := CreateChannels();
      if ok {
        AppendAssoc(old(server.trace), [CreateUnassignedCmd, SinkMute(UnassignedSinkName, true)], CreationCmds(ChannelIds, existed));
      }
    }

    /** Creates the silent sink, records its module id when the module listing
        answers, and mutes it; a failed creation stops before anything else. */
    method CreateSilentSink() returns (ok: bool)
      modifies server, this`unassignedSinkModule
      ensures ok ==> server.trace == old(server.trace) + [CreateUnassignedCmd, SinkMute(UnassignedSinkName, true)]
      ensures !ok ==> server.trace == old(server.trace) + [CreateUnassignedCmd]
    {
      ok := CreateVirtualSink(UnassignedSinkName, UnassignedDescription);
      if !ok {
        return;
      }
      var listed, moduleId := QueryModuleOf(UnassignedSinkName);
      if listed {
        unassignedSinkModule := moduleId;
      }
      var _ := SetSinkMute(UnassignedSinkName, true);
    }

    /** startStreamMonitor: when no monitor runs, existing streams are synchronised
        and then the monitor is started. */
    method StartStreamMonitor()
      requires Valid()
      modifies server, this`streamAssignments, this`routingRules, this`monitorRunning
      ensures Valid() && monitorRunning
      ensures old(monitorRunning) ==>
        server.trace == old(server.trace) && streamAssignments == old(streamAssignments) && routingRules == old(routingRules)
      ensures OnlyMoves(old(server.trace), server.trace)
    {
      if monitorRunning {
        return;
      }
      SyncExistingStreams();
      monitorRunning := true;
    }

    method StopStreamMonitor()
      modifies this`monitorRunning
      ensures !monitorRunning
    {
      if monitorRunning {
        monitorRunning := false;
      }
    }

    /** initialize: does nothing on an initialized engine. Otherwise the first command
        creates the silent sink; a failure there or in createChannels answers false
        with the engine still uninitialized and no monitor. On success the commands
        are exactly InitCmds followed by the moves of the stream sync, and the engine
        is initialized with its monitor running. */
    method Initialize() returns (ok: bool, ghost existed: seq<bool>, ghost original: string)
      requires Valid() && MonitorOk()
      modifies server, this`unassignedSinkModule, this`channels, this`streamAssignments
      modifies this`routingRules, this`monitorRunning, this`initialized
      ensures Valid() && MonitorOk()
      ensures ok <==> initialized
      ensures old(initialized) ==> ok && server.trace == old(server.trace) && channels == old(channels)
      ensures old(initialized) ==>
        && routingRules == old(routingRules) && streamAssignments == old(streamAssignments)
        && unassignedSinkModule == old(unassignedSinkModule)
      ensures !ok ==> routingRules == old(routingRules) && streamAssignments == old(streamAssignments)
      ensures !old(initialized) ==> old(server.trace) + [CreateUnassignedCmd] <= server.trace
      ensures Refreshed(old(channels), channels)
      ensures ok && !old(initialized) ==>
        |existed| == |ChannelIds| && OnlyMoves(old(server.trace) + InitCmds(existed, original), server.trace)
    {
      existed, original := [], "";
      if initialized {
        return true, existed, original;
      }
      var name := QueryDefaultSink();
      original := name;
      ok, existed := InitSinks();
      if !ok {
        return;
      }
      FinishInit(name);
      AppendAssoc(old(server.trace), SinkCmds(existed), RestoreCmds(original));
    }

    /** The rest of a successful initialize: the original default sink is set again
        when it is named and not one of the engine's own (createMixes and setupRouting
        do nothing), the stream monitor is started and the engine is initialized. */
    method FinishInit(original: string)
      requires Valid()
      modifies server, this`streamAssignments, this`routingRules, this`monitorRunning, this`initialized
      ensures Valid() && initialized && monitorRunning
      ensures OnlyMoves(old(server.trace) + RestoreCmds(original), server.trace)
    {
      if original != "" && !StartsWith(original, SinkPrefix) {
        var _ := RunCommand(DefaultSink(original));
      }
      StartStreamMonitor();
      initialized := true;
    }

    /** The first half of shutdown: the monitor is stopped and the loopbacks of both
        mixes are unloaded and forgotten. */
    method DropEdges() returns (ghost personalOrder: seq<string>, ghost streamOrder: seq<string>)
      modifies server, this`monitorRunning, this`loopbackModules, this`loopbackSinkInputs
      modifies this`streamLoopbackModules, this`streamLoopbackSinkInputs
      ensures !monitorRunning
      ensures loopbackModules == map[] && loopbackSinkInputs == map[]
      ensures streamLoopbackModules == map[] && streamLoopbackSinkInputs == map[]
      ensures Enumerates(personalOrder, old(loopbackModules).Keys)
      ensures Enumerates(streamOrder, old(streamLoopbackModules).Keys)
      ensures server.trace == old(server.trace)
                              + Sweep(UnloadPass, old(CurrentWiring(PersonalMix)), personalOrder)
                              + Sweep(UnloadPass, old(CurrentWiring(StreamMix)), streamOrder)
    {
      StopStreamMonitor();
      personalOrder := RemoveAllMixEdges(PersonalMix);
      streamOrder := RemoveAllMixEdges(StreamMix);
    }

    /** The second half of shutdown: the channel loop, the channels and assignments
        forgotten, and every loaded mix sink and the silent sink unloaded. */
    method DropSinks() returns (ghost channelOrder: seq<string>)
      requires 0 <= masterVolume <= 100 && PatternsUnique(routingRules)
      requires loopbackModules == map[] && loopbackSinkInputs == map[]
      requires streamLoopbackModules == map[] && streamLoopbackSinkInputs == map[]
      modifies server, this`channels, this`streamAssignments, this`personalMixModule
      modifies this`streamMixModule, this`unassignedSinkModule, this`initialized
      ensures Valid() && !initialized
      ensures channels == map[] && streamAssignments == map[]
      ensures personalMixModule == 0 && streamMixModule == 0 && unassignedSinkModule == 0
      ensures Enumerates(channelOrder, old(channels).Keys)
      ensures server.trace == old(server.trace) + ChannelUnloads(old(channels), channelOrder)
                              + LoadedUnloads(old(personalMixModule)) + LoadedUnloads(old(streamMixModule))
                              + LoadedUnloads(old(unassignedSinkModule))
    {
      channelOrder := UnloadChannelSinks(channels);
      channels := map[];
      streamAssignments := map[];
      personalMixModule := DropModule(personalMixModule);
      streamMixModule := DropModule(streamMixModule);
      unassignedSinkModule := DropModule(unassignedSinkModule);
      initialized := false;
      ClearedValid();
    }

    /** shutdown: does nothing on an uninitialized engine. Otherwise the monitor is
        stopped, both mixes' loopbacks are unloaded and forgotten, the channels and
        assignments are forgotten and the silent sink is unloaded when its module is
        known. The channel sinks themselves are never unloaded: no channel records a
        module. */
    method Shutdown() returns (ghost personalOrder: seq<string>, ghost streamOrder: seq<string>)
      requires Valid() && MonitorOk()
      modifies server, this`monitorRunning, this`loopbackModules, this`loopbackSinkInputs
      modifies this`streamLoopbackModules, this`streamLoopbackSinkInputs, this`channels
      modifies this`streamAssignments, this`personalMixModule, this`streamMixModule
      modifies this`unassignedSinkModule, this`initialized
      ensures Valid() && MonitorOk() && !initialized
      ensures !old(initialized) ==> server.trace == old(server.trace) && channels == old(channels)
      ensures !old(initialized) ==>
        && streamAssignments == old(streamAssignments) && unassignedSinkModule == old(unassignedSinkModule)
        && loopbackModules == old(loopbackModules) && loopbackSinkInputs == old(loopbackSinkInputs)
        && streamLoopbackModules == old(streamLoopbackModules) && streamLoopbackSinkInputs == old(streamLoopbackSinkInputs)
        && personalMixModule == old(personalMixModule) && streamMixModule == old(streamMixModule)
      ensures old(initialized) ==>
        && channels == map[] && streamAssignments == map[] && unassignedSinkModule == 0
        && loopbackModules == map[] && streamLoopbackModules == map[]
        && Enumerates(personalOrder, old(loopbackModules).Keys)
        && Enumerates(streamOrder, old(streamLoopbackModules).Keys)
        && server.trace == old(server.trace)
                           + Sweep(UnloadPass, old(CurrentWiring(PersonalMix)), personalOrder)
                           + Sweep(UnloadPass, old(CurrentWiring(StreamMix)), streamOrder)
                           + LoadedUnloads(old(unassignedSinkModule))
    {
      personalOrder, streamOrder := [], [];
      if initialized {
        personalOrder, streamOrder := ShutdownActive();
      }
    }

    /** shutdown on an initialized engine. */
    method ShutdownActive() returns (ghost personalOrder: seq<string>, ghost streamOrder: seq<string>)
      requires Valid()
      modifies server, this`monitorRunning, this`loopbackModules, this`loopbackSinkInputs
      modifies this`streamLoopbackModules, this`streamLoopbackSinkInputs, this`channels
      modifies this`streamAssignments, this`personalMixModule, this`streamMixModule
      modifies this`unassignedSinkModule, this`initialized
      ensures Valid() && !initialized && !monitorRunning
      ensures channels == map[] && streamAssignments == map[] && unassignedSinkModule == 0
      ensures loopbackModules == map[] && streamLoopbackModules == map[]
      ensures Enumerates(personalOrder, old(loopbackModules).Keys)
      ensures Enumerates(streamOrder, old(streamLoopbackModules).Keys)
      ensures server.trace == old(server.trace)
                              + Sweep(UnloadPass, old(CurrentWiring(PersonalMix)), personalOrder)
                              + Sweep(UnloadPass, old(CurrentWiring(StreamMix)), streamOrder)
                              + LoadedUnloads(old(unassignedSinkModule))
    {
      ghost var chans, unassigned := channels, unassignedSinkModule;
      assert 0 <= masterVolume <= 100 && PatternsUnique(routingRules);
      assert personalMixModule == 0 && streamMixModule == 0;
      personalOrder, streamOrder := DropEdges();
      ghost var t := server.trace;
      ghost var channelOrder := DropSinks();
      ChannelSinksStay(chans, channelOrder);
      assert LoadedUnloads(0) == [] && t + [] == t;
      assert server.trace == t + LoadedUnloads(unassigned);
    }

    /** Unloads a module that was loaded (id above 0); the field is then cleared. */
    method DropModule(moduleId: nat) returns (cleared: nat)
      modifies server
      ensures cleared == 0
      ensures server.trace == old(server.trace) + LoadedUnloads(moduleId)
    {
      if moduleId > 0 {
        var _ := RemoveModule(moduleId);
      }
      cleared := 0;
    }

    /** The channel loop of shutdown: a channel sink is unloaded when its state records
        a module. */
    method UnloadChannelSinks(chans: map<string, ChannelState>) returns (order: seq<string>)
      modifies server
      ensures Enumerates(order, chans.Keys)
      ensures server.trace == old(server.trace) + ChannelUnloads(chans, order)
    {
      order := KeysOf(chans.Keys);
      for i := 0 to |order|
        invariant server.trace == old(server.trace) + ChannelUnloads(chans, order[..i])
      {
        var st := chans[order[i]];
        ghost var t := server.trace;
        if st.moduleId > 0 {
          var _ := RemoveModule(st.moduleId);
        }
        assert order[..i + 1][..i] == order[..i];
        assert server.trace == old(server.trace) + (ChannelUnloads(chans, order[..i]) + LoadedUnloads(st.moduleId));
      }
      assert order[..|order|] == order;
    }

    // ----- Output devices -----

    /** setOutputDevice: stores the device and, on an initialized engine, rebuilds the
        personal mix (nothing is sent when the device is empty). Always succeeds. */
    method SetOutputDevice(device: string) returns (ok: bool, ghost unloadOrder: seq<string>,
                                                    ghost createOrder: seq<string>, ghost liveOrder: seq<string>)
      requires Valid()
      modifies this`outputDevice, server, this`loopbackModules, this`loopbackSinkInputs
      modifies this`streamLoopbackModules, this`streamLoopbackSinkInputs
      ensures Valid() && ok && outputDevice == device
      ensures EdgeModules(StreamMix) == old(EdgeModules(StreamMix)) && EdgeInputs(StreamMix) == old(EdgeInputs(StreamMix))
      ensures !initialized || device == "" ==>
        server.trace == old(server.trace) && loopbackModules == old(loopbackModules) && loopbackSinkInputs == old(loopbackSinkInputs)
      ensures initialized && device != "" ==>
        && Enumerates(unloadOrder, old(loopbackModules).Keys)
        && Enumerates(createOrder, channels.Keys)
        && Enumerates(liveOrder, loopbackSinkInputs.Keys)
        && server.trace == old(server.trace) + RebuildCmds(old(CurrentWiring(PersonalMix)).(device := device),
                                                 CurrentWiring(PersonalMix), unloadOrder, createOrder, liveOrder)
    {
      unloadOrder, createOrder, liveOrder := [], [], [];
      outputDevice := device;
      if initialized {
        var rebuilt;
        rebuilt, unloadOrder, createOrder, liveOrder := RebuildMix(PersonalMix);
      }
      ok := true;
    }

    /** setStreamOutputDevice: stores the device and, on an initialized engine with the
        stream mix enabled, rebuilds the stream mix. Always succeeds. */
    method SetStreamOutputDevice(device: string) returns (ok: bool, ghost unloadOrder: seq<string>,
                                                          ghost createOrder: seq<string>, ghost liveOrder: seq<string>)
      requires Valid()
      modifies this`streamOutputDevice, server, this`loopbackModules, this`loopbackSinkInputs
      modifies this`streamLoopbackModules, this`streamLoopbackSinkInputs
      ensures Valid() && ok && streamOutputDevice == device
      ensures EdgeModules(PersonalMix) == old(EdgeModules(PersonalMix)) && EdgeInputs(PersonalMix) == old(EdgeInputs(PersonalMix))
      ensures !(initialized && streamEnabled) || device == "" ==>
        && server.trace == old(server.trace)
        && streamLoopbackModules == old(streamLoopbackModules) && streamLoopbackSinkInputs == old(streamLoopbackSinkInputs)
      ensures initialized && streamEnabled && device != "" ==>
        && Enumerates(unloadOrder, old(streamLoopbackModules).Keys)
        && Enumerates(createOrder, channels.Keys)
        && Enumerates(liveOrder, streamLoopbackSinkInputs.Keys)
        && server.trace == old(server.trace) + RebuildCmds(old(CurrentWiring(StreamMix)).(device := device),
                                                 CurrentWiring(StreamMix), unloadOrder, createOrder, liveOrder)
    {
      unloadOrder, createOrder, liveOrder := [], [], [];
      ghost var before := CurrentWiring(StreamMix);
      streamOutputDevice := device;
      assert CurrentWiring(StreamMix) == before.(device := device);
      assert Valid() by { assert ChannelsOk() && SettingsOk() && StreamGate(); }
      if initialized && streamEnabled {
        var rebuilt;
        rebuilt, unloadOrder, createOrder, liveOrder := RebuildMix(StreamMix);
      }
      ok := true;
    }

    /** setStreamEnabled: no change when the flag already has the value. Enabling
        rebuilds the stream mix when it has a device (whether or not the engine is
        initialized); disabling unloads and forgets every stream-mix loopback. Always
        succeeds. */
    method SetStreamEnabled(enabled: bool) returns (ok: bool, ghost unloadOrder: seq<string>,
                                                    ghost createOrder: seq<string>, ghost liveOrder: seq<string>)
      requires Valid()
      modifies this`streamEnabled, server, this`loopbackModules, this`loopbackSinkInputs
      modifies this`streamLoopbackModules, this`streamLoopbackSinkInputs
      ensures Valid() && ok && streamEnabled == enabled
      ensures EdgeModules(PersonalMix) == old(EdgeModules(PersonalMix)) && EdgeInputs(PersonalMix) == old(EdgeInputs(PersonalMix))
      ensures enabled == old(streamEnabled) || (enabled && streamOutputDevice == "") ==>
        && server.trace == old(server.trace)
        && streamLoopbackModules == old(streamLoopbackModules) && streamLoopbackSinkInputs == old(streamLoopbackSinkInputs)
      ensures !enabled && old(streamEnabled) ==>
        && streamLoopbackModules == map[] && streamLoopbackSinkInputs == map[]
        && Enumerates(unloadOrder, old(streamLoopbackModules).Keys)
        && server.trace == old(server.trace) + Sweep(UnloadPass, old(CurrentWiring(StreamMix)), unloadOrder)
      ensures enabled && !old(streamEnabled) && streamOutputDevice != "" ==>
        && Enumerates(unloadOrder, old(streamLoopbackModules).Keys)
        && Enumerates(createOrder, channels.Keys)
        && Enumerates(liveOrder, streamLoopbackSinkInputs.Keys)
        && server.trace == old(server.trace) + RebuildCmds(old(CurrentWiring(StreamMix)), CurrentWiring(StreamMix),
                                                 unloadOrder, createOrder, liveOrder)
    {
      unloadOrder, createOrder, liveOrder := [], [], [];
      ok := true;
      if streamEnabled == enabled {
        return;
      }
      streamEnabled := enabled;
      if enabled {
        if streamOutputDevice != "" {
          var rebuilt;
          rebuilt, unloadOrder, createOrder, liveOrder := RebuildMix(StreamMix);
        }
      } else {
        unloadOrder := RemoveAllMixEdges(StreamMix);
      }
    }

    // ----- Listings -----

    /** listStreams: the visible streams of the full sink-input listing, in listing
        order, with their assignments; an empty list when the listing fails (the
        listing is then taken to be empty). */
    method ListStreams() returns (r: seq<Stream>, ghost blocks: seq<SinkInputBlock>)
      ensures r == VisibleStreams(blocks, loopbackModules, streamAssignments)
    {
      var ok, listed := QuerySinkInputBlocks();
      if !ok {
        return [], [];
      }
      blocks := listed;
      r := ListVisible(listed, loopbackModules, streamAssignments);
    }

    /** listOutputDevices: every named sink of the sink listing that is not one of
        the engine's own, in listing order; an empty list when the listing fails. */
    method ListOutputDevices() returns (r: seq<Device>, ghost sinks: seq<SinkBlock>)
      ensures r == OutputDevices(sinks)
    {
      var ok, listed := QuerySinkBlocks();
      if !ok {
        return [], [];
      }
      sinks := listed;
      r := ListOffered(listed);
    }
  }

  /** The commands of a move to channel `target`: none for an unknown channel, else
      one move of the stream to the channel's sink. */
  ghost predicate Routed(target: string, streamId: nat, channels: map<string, ChannelState>,
                         trace0: seq<Command>, trace1: seq<Command>)
  {
    && (target !in channels ==> trace1 == trace0)
    && (target in channels ==> trace1 == trace0 + [MoveInput(streamId, SinkNameFor(target))])
  }

  /** Every command between the two traces moves a stream. */
  ghost predicate OnlyMoves(trace0: seq<Command>, trace1: seq<Command>)
  {
    trace0 <= trace1 && forall i :: |trace0| <= i < |trace1| ==> trace1[i].MoveInput?
  }

  lemma OnlyMovesTrans(t0: seq<Command>, t1: seq<Command>, t2: seq<Command>)
    requires OnlyMoves(t0, t1) && OnlyMoves(t1, t2)
    ensures OnlyMoves(t0, t2)
  {
    forall i | |t0| <= i < |t2|
      ensures t2[i].MoveInput?
    {
      if i < |t1| {
        assert t2[i] == t1[i];
      }
    }
  }

  /** How syncExistingStreams routes a stream no channel sink holds: a matching rule
      moves it as moveStreamToChannel does; with no match it is sent to the silent
      sink and, when the server moves it, loses its assignment. */
  ghost predicate SyncRouted(streamId: nat, matched: Option<nat>, moved: bool, learned: Option<StreamInfo>,
                             rules0: seq<RoutingRule>, rules1: seq<RoutingRule>,
                             assign0: map<nat, string>, assign1: map<nat, string>,
                             channels: map<string, ChannelState>, trace0: seq<Command>, trace1: seq<Command>)
  {
    && (matched.None? ==>
          && trace1 == trace0 + [MoveInput(streamId, UnassignedSinkName)] && rules1 == rules0
          && assign1 == (if moved then assign0 - {streamId} else assign0))
    && (matched.Some? ==>
          MatchRouted(streamId, matched.value, moved, learned, rules0, rules1, assign0, assign1, channels, trace0, trace1))
  }

  /** How rule `i` routes a stream: it is moved as moveStreamToChannel does to the
      rule's target, and only a successful move assigns it and learns a rule. */
  ghost predicate MatchRouted(streamId: nat, i: nat, moved: bool, learned: Option<StreamInfo>,
                              rules0: seq<RoutingRule>, rules1: seq<RoutingRule>,
                              assign0: map<nat, string>, assign1: map<nat, string>,
                              channels: map<string, ChannelState>, trace0: seq<Command>, trace1: seq<Command>)
  {
    && i < |rules0|
    && Routed(rules0[i].targetChannel, streamId, channels, trace0, trace1)
    && (moved ==> && rules0[i].targetChannel in channels
                  && assign1 == assign0[streamId := rules0[i].targetChannel]
                  && rules1 == AfterManualMove(rules0, learned, rules0[i].targetChannel))
    && (!moved ==> assign1 == assign0 && rules1 == rules0)
  }

  /** How applyRoutingRules routes a stream: as syncExistingStreams does when a rule
      matches; with no match the stream is sent to the silent sink and keeps its
      assignment and the rules. */
  ghost predicate RuleRouted(streamId: nat, matched: Option<nat>, moved: bool, learned: Option<StreamInfo>,
                             rules0: seq<RoutingRule>, rules1: seq<RoutingRule>,
                             assign0: map<nat, string>, assign1: map<nat, string>,
                             channels: map<string, ChannelState>, trace0: seq<Command>, trace1: seq<Command>)
  {
    && (matched.None? ==>
          && !moved && trace1 == trace0 + [MoveInput(streamId, UnassignedSinkName)]
          && assign1 == assign0 && rules1 == rules0)
    && (matched.Some? ==>
          MatchRouted(streamId, matched.value, moved, learned, rules0, rules1, assign0, assign1, channels, trace0, trace1))
  }

  /** The delayed callback for stream `id`: `info` is the fresh lookup, and the stream
      is routed exactly when it still exists, is not ignored and is not one of the
      loopbacks' own sink-inputs (`own`); otherwise nothing changes. A routed stream
      goes by its first matching rule, as applyRoutingRules does. */
  ghost predicate Settled(id: nat, info: Option<StreamInfo>, routed: bool, matched: Option<nat>,
                          moved: bool, learned: Option<StreamInfo>, own: set<nat>,
                          matches: (string, string) -> bool,
                          rules0: seq<RoutingRule>, rules1: seq<RoutingRule>,
                          assign0: map<nat, string>, assign1: map<nat, string>,
                          channels: map<string, ChannelState>, trace0: seq<Command>, trace1: seq<Command>)
  {
    && (info.Some? ==> info.value.id == id)
    && (routed <==>
          info.Some? && !IgnoredOnArrival(info.value.appName, info.value.mediaName, info.value.processName) && id !in own)
    && (!routed ==> trace1 == trace0 && assign1 == assign0 && rules1 == rules0)
    && (routed ==>
          && matched == FirstMatch(rules0, info.value.appName, info.value.processName, matches)
          && RuleRouted(id, matched, moved, learned, rules0, rules1, assign0, assign1, channels, trace0, trace1))
  }

  /** The sinks of the channels the rules name. */
  ghost function TargetSinks(rules: seq<RoutingRule>): set<string>
  {
    set r | r in rules :: SinkNameFor(r.targetChannel)
  }

  /** What applyRoutingRulesToExistingStreams may do: move streams only to the sinks
      of rule targets, and keep every assignment, changing one only to a rule's
      target. */
  ghost predicate RuleMoves(rules: seq<RoutingRule>, assign0: map<nat, string>, assign1: map<nat, string>,
                            trace0: seq<Command>, trace1: seq<Command>)
  {
    && trace0 <= trace1
    && assign0.Keys <= assign1.Keys
    && (forall s :: s in assign1 && (s in assign0 ==> assign1[s] != assign0[s]) ==>
                      exists r :: r in rules && r.targetChannel == assign1[s])
    && (forall i :: |trace0| <= i < |trace1| ==> trace1[i].MoveInput? && trace1[i].sink in TargetSinks(rules))
  }

  lemma RuleMovesTrans(rules: seq<RoutingRule>, a0: map<nat, string>, a1: map<nat, string>, a2: map<nat, string>,
                       t0: seq<Command>, t1: seq<Command>, t2: seq<Command>)
    requires RuleMoves(rules, a0, a1, t0, t1) && RuleMoves(rules, a1, a2, t1, t2)
    ensures RuleMoves(rules, a0, a2, t0, t2)
  {
    forall i | |t0| <= i < |t2|
      ensures t2[i].MoveInput? && t2[i].sink in TargetSinks(rules)
    {
      if i < |t1| {
        assert t2[i] == t1[i];
      }
    }
  }

  /** The loops of the delayed new-stream callback over a mix's sink-input table:
      whether the stream is one of the mix's own loopback sink-inputs. */
  method TracksSinkInput(inputs: map<string, nat>, id: nat) returns (found: bool)
    ensures found <==> id in inputs.Values
  {
    var keys := KeysOf(inputs.Keys);
    var i := 0;
    while i < |keys|
      invariant i <= |keys|
      invariant forall j :: 0 <= j < i ==> inputs[keys[j]] != id
    {
      if inputs[keys[i]] == id {
        return true;
      }
      i := i + 1;
    }
    forall k | k in inputs
      ensures inputs[k] != id
    {
      var j :| 0 <= j < |keys| && keys[j] == k;
    }
    found := false;
  }

  /** The description of the silent sink; its spaces-free form is what is sent. */
  const UnassignedDescription: string := "WaveMux-Unassigned"

  /** The first command of initialize on an uninitialized engine. */
  const CreateUnassignedCmd: Command := LoadNullSink(UnassignedSinkName, ReplaceSpaces(UnassignedDescription))

  /** Each channel of the first table is still there; each channel of the second is
      either as it was or freshly set up by createChannels. */
  ghost predicate Refreshed(chans0: map<string, ChannelState>, chans1: map<string, ChannelState>)
  {
    && chans0.Keys <= chans1.Keys
    && forall k :: k in chans1 ==>
         || (k in chans0 && chans1[k] == chans0[k])
         || (chans1[k].sinkIndex > 0 && chans1[k] == FreshChannelState(k, chans1[k].sinkIndex))
  }

  /** The commands createChannels sends for one channel: the sink is created unless
      the server already had it, then its volume is reset to 100%. */
  function SinkSetupCmds(id: string, existed: bool): seq<Command>
  {
    (if existed then [] else [LoadNullSink(SinkNameFor(id), ReplaceSpaces(SinkDescription(id)))])
    + [SinkVolume(SinkNameFor(id), 100)]
  }

  /** The commands of createChannels over the channel ids, in order. */
  function CreationCmds(ids: seq<string>, existed: seq<bool>): seq<Command>
    requires |ids| == |existed|
  {
    if ids == [] then []
    else CreationCmds(ids[..|ids| - 1], existed[..|existed| - 1]) + SinkSetupCmds(ids[|ids| - 1], existed[|existed| - 1])
  }

  lemma CreationCmdsStep(ids: seq<string>, existed: seq<bool>, id: string, present: bool)
    requires |ids| == |existed|
    ensures CreationCmds(ids + [id], existed + [present]) == CreationCmds(ids, existed) + SinkSetupCmds(id, present)
  {
    assert (ids + [id])[..|ids|] == ids;
    assert (existed + [present])[..|existed|] == existed;
  }

  /** The trace of createChannels after one more channel set up. */
  lemma CreationTraceStep(t0: seq<Command>, t1: seq<Command>, t2: seq<Command>, i: nat,
                          existed: seq<bool>, id: string, present: bool)
    requires i < |ChannelIds| && |existed| == i && id == ChannelIds[i]
    requires t1 == t0 + CreationCmds(ChannelIds[..i], existed)
    requires t2 == t1 + SinkSetupCmds(id, present)
    ensures t2 == t0 + CreationCmds(ChannelIds[..i + 1], existed + [present])
  {
    CreationCmdsStep(ChannelIds[..i], existed, id, present);
    AppendAssoc(t0, CreationCmds(ChannelIds[..i], existed), SinkSetupCmds(id, present));
    assert ChannelIds[..i + 1] == ChannelIds[..i] + [id];
  }

  /** The table createChannels builds from `chans` after the first |indexes| channels,
      where `indexes[i]` is what the second lookup of channel i reported (0 when it
      failed): a found channel's entry is replaced by a fresh state for that index. */
  ghost function Refreshing(chans: map<string, ChannelState>, indexes: seq<nat>): map<string, ChannelState>
    requires |indexes| <= |ChannelIds|
    decreases |indexes|
  {
    if indexes == [] then chans
    else
      var n := |indexes| - 1;
      var prev := Refreshing(chans, indexes[..n]);
      if indexes[n] > 0 then prev[ChannelIds[n] := FreshChannelState(ChannelIds[n], indexes[n])] else prev
  }

  /** Key `k` is in both tables or in neither, with the same state. */
  ghost predicate SameAt(chans0: map<string, ChannelState>, chans1: map<string, ChannelState>, k: string)
  {
    (k in chans1 <==> k in chans0) && (k in chans0 ==> chans1[k] == chans0[k])
  }

  /** Channel by channel: a found channel holds a fresh state for its index; a channel
      whose second lookup failed, and every key the loop did not reach, is as before. */
  ghost predicate RefreshedBy(chans0: map<string, ChannelState>, chans1: map<string, ChannelState>, indexes: seq<nat>)
  {
    && |indexes| <= |ChannelIds|
    && (forall i :: 0 <= i < |indexes| && indexes[i] > 0 ==>
          ChannelIds[i] in chans1 && chans1[ChannelIds[i]] == FreshChannelState(ChannelIds[i], indexes[i]))
    && (forall i :: 0 <= i < |indexes| && indexes[i] == 0 ==> SameAt(chans0, chans1, ChannelIds[i]))
    && (forall k :: k !in ChannelIds[..|indexes|] ==> SameAt(chans0, chans1, k))
  }

  lemma {:induction false} RefreshingMeaning(chans: map<string, ChannelState>, indexes: seq<nat>)
    requires |indexes| <= |ChannelIds|
    ensures RefreshedBy(chans, Refreshing(chans, indexes), indexes)
  {
    if indexes != [] {
      var n := |indexes| - 1;
      var prev, id := indexes[..n], ChannelIds[n];
      RefreshingMeaning(chans, prev);
      var before, after := Refreshing(chans, prev), Refreshing(chans, indexes);
      assert after == if indexes[n] > 0 then before[id := FreshChannelState(id, indexes[n])] else before;
      forall i | 0 <= i < n ensures ChannelIds[i] != id && indexes[i] == prev[i] {
        ChannelIdsDistinct(i, n);
      }
      forall i | 0 <= i < |indexes| && indexes[i] > 0
        ensures ChannelIds[i] in after && after[ChannelIds[i]] == FreshChannelState(ChannelIds[i], indexes[i])
      {
        if i < n {
          assert prev[i] > 0;
        }
      }
      forall i | 0 <= i < |indexes| && indexes[i] == 0 ensures SameAt(chans, after, ChannelIds[i]) {
        if i < n {
          assert prev[i] == 0;
        } else {
          assert id !in ChannelIds[..n] by {
            forall j | 0 <= j < n ensures ChannelIds[..n][j] != id {
              ChannelIdsDistinct(j, n);
            }
          }
        }
      }
      assert ChannelIds[..n + 1] == ChannelIds[..n] + [id];
      forall k | k !in ChannelIds[..n + 1] ensures SameAt(chans, after, k) {
        assert k !in ChannelIds[..n] && k != id;
      }
    }
  }

  lemma {:induction false} RefreshingOk(chans: map<string, ChannelState>, indexes: seq<nat>)
    requires ChannelTableOk(chans) && |indexes| <= |ChannelIds|
    ensures ChannelTableOk(Refreshing(chans, indexes)) && Refreshed(chans, Refreshing(chans, indexes))
  {
    if indexes != [] {
      var n := |indexes| - 1;
      RefreshingOk(chans, indexes[..n]);
      if indexes[n] > 0 {
        RefreshStep(chans, Refreshing(chans, indexes[..n]), ChannelIds[n], indexes[n]);
      }
    }
  }

  lemma ChannelIdsDistinct(a: nat, b: nat)
    requires a < b < |ChannelIds|
    ensures ChannelIds[a] != ChannelIds[b]
  {
  }

  /** Storing a fresh state for a known channel keeps a table well-formed and
      refreshed. */
  lemma RefreshStep(chans: map<string, ChannelState>, table: map<string, ChannelState>, id: string, index: nat)
    requires ChannelTableOk(table) && Refreshed(chans, table) && id in ChannelIds && index > 0
    ensures ChannelTableOk(table[id := FreshChannelState(id, index)])
    ensures Refreshed(chans, table[id := FreshChannelState(id, index)])
  {
    FreshChannelOk(id, index);
  }

  /** The sink commands of a successful initialize. */
  function SinkCmds(existed: seq<bool>): seq<Command>
    requires |existed| == |ChannelIds|
  {
    [CreateUnassignedCmd, SinkMute(UnassignedSinkName, true)] + CreationCmds(ChannelIds, existed)
  }

  /** The commands of a successful initialize before its stream sync: the sinks, then
      the original default sink set again when it is named and not one of the
      engine's own. */
  function InitCmds(existed: seq<bool>, original: string): seq<Command>
    requires |existed| == |ChannelIds|
  {
    SinkCmds(existed) + RestoreCmds(original)
  }

  function RestoreCmds(original: string): seq<Command>
  {
    if original != "" && !StartsWith(original, SinkPrefix) then [DefaultSink(original)] else []
  }

  /** createChannels only creates channel sinks and sets their volume to 100%. */
  lemma {:induction false} CreationCmdsTouchChannelSinks(ids: seq<string>, existed: seq<bool>)
    requires |ids| == |existed|
    ensures forall c :: c in CreationCmds(ids, existed) ==>
              exists id :: id in ids &&
                (c == LoadNullSink(SinkNameFor(id), ReplaceSpaces(SinkDescription(id))) || c == SinkVolume(SinkNameFor(id), 100))
  {
    if ids != [] {
      var n := |ids| - 1;
      CreationCmdsTouchChannelSinks(ids[..n], existed[..n]);
      forall c | c in CreationCmds(ids, existed)
        ensures exists id :: id in ids &&
                  (c == LoadNullSink(SinkNameFor(id), ReplaceSpaces(SinkDescription(id))) || c == SinkVolume(SinkNameFor(id), 100))
      {
        if c in CreationCmds(ids[..n], existed[..n]) {
          var id :| id in ids[..n] &&
                  (c == LoadNullSink(SinkNameFor(id), ReplaceSpaces(SinkDescription(id))) || c == SinkVolume(SinkNameFor(id), 100));
          assert id in ids;
        } else {
          assert ids[n] in ids;
        }
      }
    }
  }

  /** initialize never makes one of the engine's own sinks the default sink, and it
      unloads nothing. */
  lemma InitNeverDefaultsToOwnSink(existed: seq<bool>, original: string)
    requires |existed| == |ChannelIds|
    ensures forall c :: c in InitCmds(existed, original) && c.DefaultSink? ==> c.sink == original && !StartsWith(c.sink, SinkPrefix)
    ensures forall c :: c in InitCmds(existed, original) ==> !c.Unload?
  {
    CreationCmdsTouchChannelSinks(ChannelIds, existed);
  }

  /** An unload for a module that was loaded (a recorded id above 0). */
  function LoadedUnloads(moduleId: nat): seq<Command>
  {
    if moduleId > 0 then [Unload(moduleId)] else []
  }

  /** The commands of shutdown's channel loop over the channels in `order`. */
  function ChannelUnloads(chans: map<string, ChannelState>, order: seq<string>): seq<Command>
    requires forall k :: k in order ==> k in chans
  {
    if order == [] then []
    else ChannelUnloads(chans, order[..|order| - 1]) + LoadedUnloads(chans[order[|order| - 1]].moduleId)
  }

  /** No channel records a module, so shutdown's channel loop unloads nothing and the
      channel sinks outlive the engine. */
  lemma {:induction false} ChannelSinksStay(chans: map<string, ChannelState>, order: seq<string>)
    requires ChannelTableOk(chans) && forall k :: k in order ==> k in chans
    ensures ChannelUnloads(chans, order) == []
  {
    if order != [] {
      ChannelSinksStay(chans, order[..|order| - 1]);
    }
  }

  /** The loop of listChannels: the listed record of each key in turn. */
  method ChannelRecords(chans: map<string, ChannelState>, keys: seq<string>) returns (r: seq<Channel>)
    requires forall k :: k in keys ==> k in chans
    ensures |r| == |keys|
    ensures forall i :: 0 <= i < |r| ==> r[i] == ToChannel(chans[keys[i]])
  {
    r := [];
    for i := 0 to |keys|
      invariant |r| == i
      invariant forall j :: 0 <= j < i ==> r[j] == ToChannel(chans[keys[j]])
    {
      r := r + [ToChannel(chans[keys[i]])];
    }
  }
}
