# WaveMux audio engine in Dafny

WaveMux is a Linux daemon that turns a PipeWire/PulseAudio graph into a small
mixing desk. Its engine, `AudioManager`, creates four virtual channel sinks
(`wavemux_game`, `wavemux_chat`, `wavemux_media`, `wavemux_aux`) and a muted
silent sink `wavemux_unassigned`. It routes every application stream (a
sink-input) onto a channel by an ordered list of routing rules, and carries each
channel into two mixes, the personal mix (headphones) and the stream mix
(broadcast), through loopback modules called edges here. An edge's sink-input
volume is the channel's level in that mix times the master volume, divided by
100 in integer arithmetic.

This project models that engine and proves what it promises. The modules are:

- `Types`: the shared records `Channel`, `Stream`, `RoutingRule`, `Profile`,
  `Device` and `Config`, with their default values.
- `Util`: clamping to 0-100, truncating division, ASCII case-insensitive
  containment, the space-to-dash rewrite of sink descriptions, and an
  enumeration of a set's keys in some order, which stands for hash-table
  iteration order.
- `Backend`: every audio-graph-changing command the engine sends as a
  `Command`, and the structured records it receives in place of the server's
  text output. `AudioServer` holds a ghost `trace` of every command sent, in
  order.
- `Channels`: the fixed channel ids, sink names, the engine's private
  `ChannelState` and its defaults, and the table invariant.
- `Rules`: the routing-rule store (replace-by-pattern insert, removal by
  pattern) and first-match selection.
- `Filters`: the loopback and system-stream tests, the `listStreams` denylist
  and visibility test, and the `listOutputDevices` device filter.
- `Mixing`: the effective-volume formula, and a small automaton for the
  protocol an edge goes through (loaded, zeroed, muted, target volume set,
  unmuted). It also holds the command sequences of the unload, create, settle
  and unmute passes, and the proofs that a rebuild leaves every tracked edge
  live and unmuted at its target volume.
- `Engine`: the class `AudioManager` with the engine's fields, every
  state-changing operation as a method over them, and the invariant `Valid()`.
  `Valid()` says:
  - the channel table holds only known channels under their own ids;
  - streams are assigned only to known channels;
  - rule patterns are unique;
  - each mix tracks a sink-input only for a channel with a module, and a module
    only for a known channel;
  - a disabled stream mix has no edges;
  - the master volume lies within 0-100.

The regular-expression match of a rule pattern is the engine's constant
`matches`, a function from pattern and name to bool, about which nothing is
assumed. Server queries (sink info, stream info, the sink-input and sink
listings, the default sink, the module list, the loopback sink-input lookup)
return arbitrary well-formed records and are not traced.

## Model

| member | source | states |
|---|---|---|
| Types.DefaultChannel | shared/include/wavemux/types.h:9-19 | a default channel has empty id, display name and sink name, volume 0, is unmuted, has personal level 100 and stream level 0, and both per-mix mutes off |
| Types.DefaultStream | shared/include/wavemux/types.h:21-27 | a default stream has id 0, empty names and is unassigned (empty assigned channel) |
| Types.DefaultRoutingRule | shared/include/wavemux/types.h:29-32 | a default rule has an empty pattern and an empty target |
| Types.DefaultConfig | shared/include/wavemux/types.h:46-54 | a default config is not set up, has the stream mix disabled, empty devices and profile name, and no profiles or rules |
| Util.ClampPercent | daemon/src/audiomanager.cpp:119-125 | the result lies in 0-100, equals the input inside that range, is 0 below it and 100 above it |
| Util.TruncDiv | daemon/src/audiomanager.cpp:357 | the quotient rounds toward zero, for negative dividends as well |
| Util.ReplaceSpaces | daemon/src/audiomanager.cpp:51-54 | the sink description keeps its length, every space becomes a dash, and every other character is unchanged (so none is left) |
| Channels.DefaultChannelState | daemon/src/audiomanager.h:97-109 | a default channel state has volume 100, unmuted, personal level 100, stream level 0, no index and no module |
| Channels.FreshChannelState | daemon/src/audiomanager.cpp:159-169 | the state createChannels stores: the channel's id, display name and sink name, the looked-up index, volume 100, personal level 100, stream level 0, no module |
| Channels.FreshChannelOk | daemon/src/audiomanager.cpp:159-169 | a freshly created state of a known channel satisfies the channel-table invariant |
| Channels.WithLevel | daemon/src/audiomanager.cpp:398-405 | setting one mix's level leaves the other mix's level, the id, sink name, volume and mute unchanged |
| Channels.ToChannel | daemon/src/audiomanager.cpp:295-302 | the record listChannels returns copies id, names, volume, mute and both levels, and leaves both per-mix mutes false |
| Channels.SinkNamesDistinct | daemon/src/audiomanager.cpp:136 | distinct channel ids have distinct sink names |
| Channels.UnassignedIsNoChannel | daemon/src/audiomanager.h:152 | no channel's sink is the silent sink |
| Channels.KnownChannelsAreNamed | daemon/src/audiomanager.cpp:11-17 | every fixed channel has a display name and a sink name under the `wavemux_` prefix |
| Rules.WithoutPattern | daemon/src/audiomanager.cpp:926-938 | a rule survives removal exactly when it was present and has another pattern |
| Rules.WithoutAbsentPattern | daemon/src/audiomanager.cpp:926-938 | removing a pattern no rule has leaves the list unchanged |
| Rules.RemoveAbsentIsNoop | daemon/src/audiomanager.cpp:926-938 | removing a nonexistent pattern is a no-op |
| Rules.WithoutPatternAppend | daemon/src/audiomanager.cpp:928-933 | removal distributes over concatenation, so the order of the remaining rules is kept |
| Rules.WithoutPatternAt | daemon/src/audiomanager.cpp:928-933 | with unique patterns, removing a rule's pattern deletes exactly that position |
| Rules.WithoutPatternKeepsUnique | daemon/src/audiomanager.cpp:926-938 | removal keeps patterns unique |
| Rules.WithRuleKeepsUnique | daemon/src/audiomanager.cpp:908-924 | adding a rule keeps patterns unique, the new rule is last, and every rule with that pattern targets the new channel |
| Rules.AddSamePatternTwice | daemon/src/audiomanager.cpp:908-924 | adding the same pattern twice equals adding it once with the latest target |
| Rules.ReAddMovesToEnd | daemon/src/audiomanager.cpp:908-924 | re-adding an existing pattern removes it from its place and appends it with the new target |
| Rules.EraseMatching | daemon/src/audiomanager.cpp:910-915 | the erase/remove_if loop yields exactly the list without the pattern |
| Rules.FirstMatch | daemon/src/audiomanager.cpp:1023-1031 | a result is a matching index with no match before it; no result means no rule matches |
| Rules.FirstMatchIsFirst | daemon/src/audiomanager.cpp:1023-1031 | a matching index with no earlier match is the first match (the converse of FirstMatch's contract) |
| Rules.FirstMatchAppend | daemon/src/audiomanager.cpp:1023-1031 | appending a rule never changes an existing first match |
| Rules.FirstMatchAppendNone | daemon/src/audiomanager.cpp:1023-1031 | with no match before, the appended rule is the first match exactly when it matches |
| Rules.FindFirstMatch | daemon/src/audiomanager.cpp:1023-1031 | the loop over the rules with early exit returns the first match |
| Rules.RuleTarget | daemon/src/audiomanager.cpp:1023-1031 | there is no target exactly when no rule matches |
| Rules.AutoRulePattern | daemon/src/audiomanager.cpp:865-873 | the learned pattern is the process name, or the application name when the process name is empty, and is empty only when both are |
| Rules.ManualMoveRoutesBack | daemon/src/audiomanager.cpp:862-877 | after a manual move learns a rule, the same stream is routed back to the chosen channel unless an older rule of another pattern matches it first |
| Rules.AliasedRelearnRetargets | daemon/src/audiomanager.cpp:1029 | as written, re-learning through a reference into the rule list can retarget the relearned rule (the concrete case under Findings) |
| Rules.RelearnKeepsTargets | daemon/src/audiomanager.cpp:1029 | with the target copied first, relearning a matched rule moves it to the end and keeps its target and every other rule's target |
| Filters.SyncFilterIsWeaker | daemon/src/audiomanager.cpp:573-575 | every stream the sync filter skips is also skipped on arrival; arrival additionally skips a media name mentioning loopback |
| Filters.IsDenied | daemon/src/audiomanager.cpp:762-768 | the denylist loop answers whether some entry occurs, ignoring case, in the application or process name |
| Filters.AsStream | daemon/src/audiomanager.cpp:774-777 | a listed stream carries the block's id and names, and its assignment exactly when the stream is assigned |
| Filters.VisibleStreams | daemon/src/audiomanager.cpp:755-842 | every listed stream has a positive id, a name, is not denied, and shows its current assignment |
| Filters.ListedIffVisible | daemon/src/audiomanager.cpp:755-842 | a block is listed exactly when it is visible: not an own loopback (by media name, restore id or personal-mix module), not denied, not nameless |
| Filters.ListVisible | daemon/src/audiomanager.cpp:755-842 | the loop over the blocks computes VisibleStreams |
| Filters.OutputDevices | daemon/src/audiomanager.cpp:465-490 | every offered device is named, is not one of the engine's own sinks, and uses its description as its display name |
| Filters.OfferedIffListed | daemon/src/audiomanager.cpp:465-490 | a sink is offered exactly when it is named and has no `wavemux_` prefix |
| Filters.OwnSinksNeverOffered | daemon/src/audiomanager.cpp:470 | no channel sink and not the silent sink is ever offered as an output device |
| Filters.ListOffered | daemon/src/audiomanager.cpp:454-493 | the loop over the sinks computes OutputDevices |
| Mixing.Effective | daemon/src/audiomanager.cpp:357 | the effective volume is the quotient of level times master by 100, rounded down for non-negative products |
| Mixing.EffectiveBounds | daemon/src/audiomanager.cpp:357 | for level and master in 0-100, the effective volume lies between 0 and both of them, equals the level at master 100, and is 0 when either is 0 |
| Mixing.EffectiveMonotone | daemon/src/audiomanager.cpp:357 | raising the master volume never lowers an edge's volume |
| Mixing.MonitorInjective | daemon/src/audiomanager.cpp:1089-1091 | distinct channel sinks have distinct monitor sources |
| Mixing.PhaseMeaning | daemon/src/audiomanager.cpp:1102-1134 | each phase of the edge automaton fixes the last volume and mute sent to the edge's sink-input |
| Mixing.LiveIsUnmuted | daemon/src/audiomanager.cpp:1132-1134 | a live edge's last mute command unmuted it and it has had a volume set |
| Mixing.VolumeKeepsLive | daemon/src/audiomanager.cpp:414-419 | a volume change keeps a live edge live: volume is adjusted in place, without recreating the edge |
| Mixing.AddedEdgeLive | daemon/src/audiomanager.cpp:1159-1184 | the single-edge sequence (load, 0% and muted, target volume, unmute) leaves the new edge live |
| Mixing.CreateSilences | daemon/src/audiomanager.cpp:1094-1109 | the create pass leaves a tracked edge at 0% and muted |
| Mixing.SettleArms | daemon/src/audiomanager.cpp:1119-1126 | the settle pass takes a silenced edge to its target volume, still muted |
| Mixing.UnmuteGoesLive | daemon/src/audiomanager.cpp:1132-1134 | the unmute pass takes an armed edge live |
| Mixing.SettleSetsTargets | daemon/src/audiomanager.cpp:352-369 | after a settle pass, every tracked sink-input's last volume is its channel's effective volume |
| Mixing.RebuildLeavesEdgesLive | daemon/src/audiomanager.cpp:1069-1141 | after a rebuild, every tracked edge has gone through mute, create, target volume and unmute, in that order |
| Mixing.RebuildUnmutesEdges | daemon/src/audiomanager.cpp:1069-1141 | after a rebuild, no tracked edge is left muted |
| Mixing.UnmuteSetsNoVolume | daemon/src/audiomanager.cpp:1131-1134 | the unmute loop of a rebuild sets no volume |
| Mixing.RebuildSetsTargets | daemon/src/audiomanager.cpp:1069-1141 | after a rebuild, each tracked sink-input's last volume is its channel's effective volume |
| Mixing.RebuildLeavesAllLive | daemon/src/audiomanager.cpp:1069-1141 | a rebuild over all channels and all tracked sink-inputs leaves every tracked edge live at its effective volume |
| Mixing.RebuildBracketed | daemon/src/audiomanager.cpp:1076-1138 | a rebuild's first command mutes the device, its last unmutes it, and nothing in between mutes or unmutes a sink |
| Mixing.RebuildUnloadsFirst | daemon/src/audiomanager.cpp:1076-1112 | in a rebuild, no module is unloaded after the first loopback is loaded |
| Mixing.SweepOnlyUnloads | daemon/src/audiomanager.cpp:1061-1067 | removing all edges sends only unloads |
| Mixing.SweepNeverUnloads | daemon/src/audiomanager.cpp:1085-1134 | the create, settle and unmute passes never unload a module |
| Mixing.NamedSinksDistinct | daemon/src/audiomanager.cpp:1085-1091 | with every channel on its own sink, the edges of a mix have distinct sources |
| Engine.AudioManager.constructor | daemon/src/audiomanager.h:144-160 | a new engine has empty tables and rules, master volume 100, no devices, the stream mix disabled, is not initialized, runs no monitor and has sent nothing |
| Engine.AudioManager.StreamChannel | daemon/src/audiomanager.cpp:887-889 | the answer is empty exactly when the stream is unassigned, and otherwise the assigned (known) channel |
| Engine.AudioManager.ListChannels | daemon/src/audiomanager.cpp:292-306 | one record per stored channel, each a known channel on its own sink with both levels in 0-100 |
| Engine.ChannelRecords | daemon/src/audiomanager.cpp:294-305 | the loop converts each channel state, in the table's order |
| Engine.AudioManager.CreateVirtualSink | daemon/src/audiomanager.cpp:51-70 | sends one null-sink load for the name, with the description's spaces turned into dashes |
| Engine.AudioManager.RemoveModule | daemon/src/audiomanager.cpp:72-75 | sends one unload of the module (removeLoopback at :1056-1059 issues the same command) |
| Engine.AudioManager.SetSinkVolume | daemon/src/audiomanager.cpp:119-125 | sends one sink volume, clamped to 0-100 |
| Engine.AudioManager.SetSinkMute | daemon/src/audiomanager.cpp:127-132 | sends one sink mute with the requested state |
| Engine.AudioManager.SetChannelVolume | daemon/src/audiomanager.cpp:308-321 | an unknown id fails with nothing sent and nothing changed; a known id sends the clamped volume to its sink and stores it only when that succeeds |
| Engine.AudioManager.SetChannelMute | daemon/src/audiomanager.cpp:323-335 | an unknown id fails with nothing sent and nothing changed; a known id sends the mute to its sink and stores it only when that succeeds |
| Engine.AudioManager.SetMixVolume | daemon/src/audiomanager.cpp:337-340 | sends the clamped volume to the sink `wavemux_<mix>` |
| Engine.AudioManager.SetMasterVolume | daemon/src/audiomanager.cpp:342-370 | always succeeds, stores the clamped master, re-sends the effective volume to every tracked sink-input of both mixes and never adds or removes an edge |
| Engine.AudioManager.SettleLoop | daemon/src/audiomanager.cpp:352-369 | the loop sends one volume per tracked sink-input, in some order of the table |
| Engine.AudioManager.SetChannelMixLevel | daemon/src/audiomanager.cpp:398-452 | an unknown id fails with nothing changed; a known id stores the clamped level and succeeds even with no device; on an active mix a tracked edge gets exactly one volume command, and an untracked one is added (stale module unloaded, loopback loaded, single-edge sequence) and set to its effective volume once more, with the mix's other edges kept and the other mix untouched; a tracked sink-input is last set to its effective volume |
| Engine.AudioManager.StoreLevel | daemon/src/audiomanager.cpp:403-420 | storing a level keeps the invariant; an inactive mix gets no command; on an active mix the channel's edge is driven as `EdgeDriven` says: the exact commands, only the channel's own entries changed, and the last volume at the effective volume |
| Engine.AudioManager.DriveEdge | daemon/src/audiomanager.cpp:408-420 | an existing edge gets exactly one volume command and the tables stay; a missing one is added with exactly the stale unload, the single-edge sequence and one more volume command, changing only the channel's own entries and ending live; a tracked sink-input's last volume is the target |
| Engine.AudioManager.AddMixEdge | daemon/src/audiomanager.cpp:1143-1190 | fails with nothing sent for an unknown channel or inactive mix; otherwise removes the old edge and sends the load, 0%, mute, target volume and unmute sequence |
| Engine.AudioManager.LoadMixEdge | daemon/src/audiomanager.cpp:1153-1186 | a loaded module is tracked; a found sink-input is tracked and taken through the single-edge sequence |
| Engine.AudioManager.RemoveMixEdge | daemon/src/audiomanager.cpp:1192-1203 | an untracked channel fails with nothing sent; otherwise unloads its module and forgets both entries only when the unload succeeds |
| Engine.AudioManager.RemoveAllMixEdges | daemon/src/audiomanager.cpp:1061-1067 | unloads every tracked module of the mix once and empties both of its tables, leaving the other mix alone |
| Engine.AudioManager.UnloadLoop | daemon/src/audiomanager.cpp:1062-1064 | the loop unloads each tracked module, in some order of the table |
| Engine.AudioManager.CreateLoop | daemon/src/audiomanager.cpp:1085-1113 | creates one edge per channel, tracks a sink-input only for a tracked module, and sends exactly the create pass |
| Engine.AudioManager.CreateEdge | daemon/src/audiomanager.cpp:1089-1112 | a successful load is tracked, a found sink-input is tracked, zeroed and muted |
| Engine.AudioManager.UnmuteLoop | daemon/src/audiomanager.cpp:1132-1134 | the loop unmutes each tracked sink-input |
| Engine.AudioManager.RebuildMix | daemon/src/audiomanager.cpp:1069-1141 | fails exactly when the mix has no device; an inactive mix is left as is; otherwise the commands are exactly the rebuild sequence and the invariant holds, and, given distinct sink-input ids, every tracked edge ends live at its effective volume |
| Engine.AudioManager.RebuildLoops | daemon/src/audiomanager.cpp:1076-1138 | the rebuild's passes in order: unload all, create all, settle, unmute, with the device muted around them |
| Engine.AudioManager.AssignStream | daemon/src/audiomanager.cpp:859 | records one stream's channel and keeps the invariant |
| Engine.AudioManager.ForgetStream | daemon/src/audiomanager.cpp:673 | drops one stream's assignment and keeps the invariant |
| Engine.AudioManager.AddRoutingRule | daemon/src/audiomanager.cpp:908-924 | the new rule list is the old one without the pattern, followed by the new rule |
| Engine.AudioManager.RemoveRoutingRule | daemon/src/audiomanager.cpp:926-938 | the new rule list is the old one without the pattern |
| Engine.AudioManager.MoveStreamToChannel | daemon/src/audiomanager.cpp:847-885 | an unknown channel fails with nothing sent; otherwise one move is sent, and only on success the stream is assigned and a rule is learned from its names |
| Engine.AudioManager.UnassignStream | daemon/src/audiomanager.cpp:891-906 | sends a move to the silent sink and drops the assignment only when it succeeds |
| Engine.AudioManager.ApplyRoutingRules | daemon/src/audiomanager.cpp:1022-1040 | acts on the first match only; with none, moves to the silent sink and keeps the assignment and the rules; a matching rule moves the stream to its target as moveStreamToChannel does, and only a successful move assigns it to that target and learns the rule |
| Engine.AudioManager.RouteOrSilence | daemon/src/audiomanager.cpp:579-600 | the sync's classification: the first matching rule moves the stream, and no match moves it to the silent sink and clears its assignment on success |
| Engine.AudioManager.SyncEntry | daemon/src/audiomanager.cpp:538-600 | a stream on a channel sink is recorded there with nothing sent; a vanished or ignored stream is skipped; any other is classified |
| Engine.AudioManager.ChannelSinkIndexes | daemon/src/audiomanager.cpp:524-529 | every entry maps a positive sink index to a known channel, and is the index that channel's lookup reported; every successful lookup's index is in the table; when two channels report one index, the entry holds one of them |
| Engine.AudioManager.SyncExistingStreams | daemon/src/audiomanager.cpp:522-606 | keeps the invariant and sends only stream moves |
| Engine.AudioManager.RouteExistingStream | daemon/src/audiomanager.cpp:995-1018 | an ignored stream is skipped; otherwise the first matching rule moves it to a known target channel, assigning it on success, and the rules never change |
| Engine.AudioManager.ApplyRoutingRulesToExistingStreams | daemon/src/audiomanager.cpp:944-1020 | with no rules nothing happens; otherwise only moves to rule targets are sent and only rule-driven assignments change |
| Engine.AudioManager.HandleStreamEvent | daemon/src/audiomanager.cpp:635-679 | "new" schedules the stream, "remove" drops its assignment at once, anything else changes nothing |
| Engine.AudioManager.FireSettleTimer | daemon/src/audiomanager.cpp:638-670 | the oldest scheduled stream leaves the queue and is handled exactly as the delayed callback states for its id: not routed means nothing changes; routed means the first match decides, with the assignment and learned rule of a successful move, or the silent sink with rules and assignment kept |
| Engine.AudioManager.NewStreamSettled | daemon/src/audiomanager.cpp:639-669 | a stream is routed exactly when it still exists, is not ignored and is not a tracked sink-input of either mix, and otherwise nothing changes; a routed stream goes by the first matching rule (the move, and on success the assignment and the learned rule) or, with none, to the silent sink with rules and assignment kept |
| Engine.TracksSinkInput | daemon/src/audiomanager.cpp:651-662 | the loop finds the id exactly when it is among the tracked sink-inputs |
| Engine.AudioManager.SetupChannel | daemon/src/audiomanager.cpp:135-157 | a missing sink is created (failure ends the call), and then its volume is reset to 100% |
| Engine.AudioManager.CreateChannelsLoop | daemon/src/audiomanager.cpp:134-173 | walks the four ids in order; on success the commands are the per-channel setup in that order; a failed creation stops right after it; the table is `Refreshing` of the second lookups' indexes, one per channel reached |
| Engine.AudioManager.CreateChannels | daemon/src/audiomanager.cpp:134-173 | keeps the invariant, only refreshes fixed channels, and on success sends exactly the per-channel setup; a channel whose sink is found again holds a fresh state for the reported index, and every other entry, including channels not reached, is unchanged |
| Engine.RefreshingMeaning | daemon/src/audiomanager.cpp:153-169 | the refreshed table holds a fresh state for exactly the channels whose second lookup succeeded, and every other key is as before |
| Engine.RefreshingOk | daemon/src/audiomanager.cpp:153-169 | the refreshed table still holds only known channels under their own ids, each unchanged or fresh |
| Engine.CreationCmdsTouchChannelSinks | daemon/src/audiomanager.cpp:134-173 | createChannels sends only sink creations and 100% volumes for channel sinks |
| Engine.AudioManager.CreateSilentSink | daemon/src/audiomanager.cpp:205-218 | the silent sink is created first and muted only when its creation succeeded |
| Engine.AudioManager.InitSinks | daemon/src/audiomanager.cpp:205-223 | the silent sink comes first; on success the commands are the silent sink's creation and mute followed by the channel setup |
| Engine.AudioManager.Initialize | daemon/src/audiomanager.cpp:192-246 | an initialized engine answers true and keeps its trace, channels, rules, assignments and silent-sink module; otherwise the silent sink is created first; a failure keeps the rules and assignments; success means initialized with the monitor running, and the commands are the sink setup, the default-sink restore, then only stream moves |
| Engine.AudioManager.FinishInit | daemon/src/audiomanager.cpp:230-245 | restores a named, foreign default sink, starts the monitor and marks the engine initialized |
| Engine.InitNeverDefaultsToOwnSink | daemon/src/audiomanager.cpp:231-234 | initialize never makes one of the engine's own sinks the default and never unloads a module |
| Engine.AudioManager.StartStreamMonitor | daemon/src/audiomanager.cpp:506-520 | a running monitor is left alone; otherwise existing streams are synchronised first, then the monitor runs |
| Engine.AudioManager.StopStreamMonitor | daemon/src/audiomanager.cpp:608-616 | no monitor runs afterwards |
| Engine.AudioManager.Shutdown | daemon/src/audiomanager.cpp:248-290 | an uninitialized engine keeps its trace, channels, assignments, both mixes' edge tables and its module ids; otherwise both mixes' edges are unloaded, the silent sink is unloaded, and every table is cleared |
| Engine.AudioManager.ShutdownActive | daemon/src/audiomanager.cpp:253-289 | the commands are exactly the two unload sweeps and the silent sink's unload; the engine is left empty and uninitialized |
| Engine.AudioManager.DropEdges | daemon/src/audiomanager.cpp:255-262 | the monitor stops, then the personal and the stream edges are unloaded in that order |
| Engine.AudioManager.DropSinks | daemon/src/audiomanager.cpp:264-287 | channel sinks with a module, then the mix and silent sinks are unloaded; the tables are cleared |
| Engine.AudioManager.UnloadChannelSinks | daemon/src/audiomanager.cpp:265-269 | unloads every channel with a recorded module, in some order |
| Engine.ChannelSinksStay | daemon/src/audiomanager.cpp:265-269 | since no stored channel ever records a module, shutdown unloads no channel sink |
| Engine.AudioManager.DropModule | daemon/src/audiomanager.cpp:274-287 | a recorded module is unloaded and its id reset to 0 |
| Engine.AudioManager.SetOutputDevice | daemon/src/audiomanager.cpp:496-504 | always succeeds and stores the device; an initialized engine with a device rebuilds the personal mix towards it; the stream mix is untouched |
| Engine.AudioManager.SetStreamOutputDevice | daemon/src/audiomanager.cpp:1205-1213 | always succeeds and stores the device; only an initialized engine with the stream mix enabled rebuilds it; the personal mix is untouched |
| Engine.AudioManager.SetStreamEnabled | daemon/src/audiomanager.cpp:1215-1234 | no change when the flag is already set; disabling unloads every stream edge; enabling with a device rebuilds the stream mix |
| Engine.AudioManager.ListStreams | daemon/src/audiomanager.cpp:727-845 | the result is exactly the visible streams of the listing, with their assignments |
| Engine.AudioManager.ListOutputDevices | daemon/src/audiomanager.cpp:454-493 | the result is exactly the offered devices of the sink listing |

## Left out

- Running `pactl` and parsing its text output are not modelled. Commands are
  `Command` values appended to the server trace, their success is arbitrary,
  and listings arrive as structured records (`SinkInputBlock`, `SinkBlock`,
  `SinkInputEntry`, `StreamInfo`, `SinkInfo`).
- Queries are not traced, because they do not change the audio graph.
- The regular expression of `handleMonitorOutput` is not modelled.
  `HandleStreamEvent` takes the event kind and the id that it would extract.
- Qt signals (`channelsChanged`, `streamsChanged`, `routingRulesChanged` and the
  rest) and logging are not modelled. They carry no state.
- The `QThread::msleep` pauses are not modelled, because they change nothing.
- The 100 ms `QTimer::singleShot` of a "new" event is the FIFO `pendingSettles`.
  `FireSettleTimer` stands for one timer expiry. Real timers expire in that
  order, and the delay itself is not modelled.
- Engine.AudioManager.FireSettleTimer: requires a pending stream, because a
  timer only fires for one that was scheduled.
- Regular-expression matching is the uninterpreted `matches`, whose semantics
  are not modelled.
- Case-insensitive containment folds ASCII letters only, not full Unicode
  case folding.
- Ids are unbounded naturals rather than 32-bit integers. They only come from
  the server and are never computed.
- `createMixes` and `setupRouting` send nothing and cannot fail. They appear
  only as that absence in `Initialize`.
- `setChannelPersonalMute` and `setChannelStreamMute` are declared but have no
  body, so they are not modelled.
- `createLoopback` is never called and tracks nothing, so it is not modelled.
- `getRoutingRules` returns the field `routingRules` and has no row.
- The destructor only calls `shutdown`.
- `Config`, `Profile` persistence and the D-Bus layer are not part of this
  model.
- Per-mix mutes are left false by `listChannels` (`ToChannel`), as in the
  source.
- An edge's sink-input volume is the channel's level, not its basic volume.
  The model proves the command sequence, not the sound that results.
- Edge tables are written once per operation, from locals, where the source
  writes one entry at a time. Nothing reads them in between, so the final
  state is the same.
- Hash-table iteration order is any enumeration of the keys (`Enumerates`),
  returned as ghost out-parameters (`order`, `unloadOrder`, ...).
- Engine.AudioManager.SyncExistingStreams: the contract keeps the invariant and
  states that only stream moves are sent. Each entry's exact effect is stated
  by `SyncEntry`, not summed up over the listing.
- Engine.AudioManager.ApplyRoutingRulesToExistingStreams: states that only moves
  to rule targets are sent and only rule-driven assignments change. Each block's
  exact effect is stated by `RouteExistingStream`.
- Engine.AudioManager.Initialize: the stream-sync part of the trace is stated
  only as stream moves (see `SyncExistingStreams`).
- Engine.AudioManager.CreateChannels: on failure only the prefix of the trace
  is stated; the exact partial sequence is in `CreateChannelsLoop`.
- Mixing.RebuildLeavesEdgesLive, Mixing.RebuildUnmutesEdges,
  Mixing.SettleSetsTargets, Mixing.RebuildSetsTargets and
  Mixing.RebuildLeavesAllLive assume `InjectiveInputs`: the server never gives
  two tracked edges one sink-input id. The model cannot establish this about
  the server, and the invariant does not carry it.
- Engine.AudioManager.RebuildMix: its "every edge ends live" clause holds only
  under that same premise about the server.
- Engine.AudioManager.ApplyRoutingRules: the relearned rule keeps the matched
  rule's target (`RelearnKeepsTargets`). The code as written re-reads the
  target through a reference into the list it has just erased from, which can
  give `AliasedRelearn`'s result instead (see Findings).
- Engine.AudioManager.RouteOrSilence: the same as `ApplyRoutingRules`, for the
  relearned rule of a sync move (audiomanager.cpp:584).
- Engine.AudioManager.SyncEntry: the same, through `RouteOrSilence`.
- Engine.AudioManager.SyncExistingStreams: the same, through `SyncEntry`.
- Engine.AudioManager.StartStreamMonitor: the same, through `SyncExistingStreams`.
- Engine.AudioManager.Initialize: the same, through `StartStreamMonitor`.
- Engine.AudioManager.NewStreamSettled: the same, through `ApplyRoutingRules`.
- Engine.AudioManager.FireSettleTimer: the same, through `NewStreamSettled`.

Where the documented design and the code disagree, the model follows
the code:

- With no matching rule, `applyRoutingRules` keeps a prior assignment
  (audiomanager.cpp:1034-1039). Only `syncExistingStreams` clears it
  (:594-597).
- `listStreams` compares a sink-input's module only with the personal mix's
  loopback modules (:812). The "new" callback compares the stream id with the
  tracked sink-input ids of both mixes (:651-662). Neither the sync nor
  `applyRoutingRulesToExistingStreams` checks ids at all.
- A rebuild leaves every tracked edge unmuted at its effective volume. That
  volume is 0% for a channel whose level is 0, which is the stream mix's
  default.
- No operation rejects an unknown stream id. `moveStreamToChannel` and
  `unassignStream` send the move whatever the id.
- `shutdown` never unloads a channel sink, because `ChannelState.moduleId` is
  never set (:159-169, :266).

## Findings

| source | as written | input that shows it | evidently intended | confidence | as-written member | corrected member |
|---|---|---|---|---|---|---|
| daemon/src/audiomanager.cpp:1029 | `applyRoutingRules` (and the sync loop at :581-584) passes `rule.targetChannel`, a reference into `m_routingRules`, to `moveStreamToChannel`. That call re-learns a rule through `addRoutingRule` (:908-920), which erases and shifts the list before it reads the reference again. | Rules `[firefox→game, discord→chat]`. A stream of process `firefox` matches rule 0. The erase shifts `discord→chat` into slot 0, so the rule appended is `firefox→chat`. | The relearned rule keeps its own target: `[discord→chat, firefox→game]`. | not executed | Rules.AliasedRelearnRetargets | Rules.RelearnKeepsTargets |

The engine's routing methods copy the target channel before the move, which is
the corrected behaviour.
