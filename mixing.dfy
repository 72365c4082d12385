/** Mixing: how a channel reaches a mix. Each (channel, mix) pair is an edge, a
    module-loopback from the channel sink's monitor into the mix's output device, whose
    sink-input carries the effective volume level * master / 100. This module holds
    the commands the engine issues for edges, a small automaton for the protocol an
    edge must go through before it carries sound, and the proofs that the rebuild and
    volume passes follow it. */
module Mixing {
  import opened Util
  import opened Backend
  import opened Channels

  /** (level * master) / 100 in C++ int arithmetic. */
  function Effective(level: int, master: int): (v: int)
    ensures 0 <= level * master ==> v * 100 <= level * master < v * 100 + 100
  {
    TruncDiv(level * master, 100)
  }

  /** A quotient of a product bounded by c * 100 is at most c. */
  lemma QuotientAtMost(n: int, v: int, c: int)
    requires v * 100 <= n < v * 100 + 100
    requires n <= c * 100
    ensures v <= c
  {
  }

  lemma ProductBounds(level: int, master: int)
    requires 0 <= level <= 100 && 0 <= master <= 100
    ensures 0 <= level * master
    ensures level * master <= level * 100 && level * master <= master * 100
    ensures master == 100 ==> level * master == level * 100
    ensures level == 0 || master == 0 ==> level * master == 0
  {
    MulMonotone(level, master, 100);
    MulMonotone(master, level, 100);
  }

  lemma MulMonotone(a: int, b: int, c: int)
    requires 0 <= a && 0 <= b <= c
    ensures 0 <= a * b <= a * c
  {
    var d := c - b;
    assert a * c == a * b + a * d;
  }

  /** With both inputs percentages, the effective volume is a percentage no louder than
      the channel level; at full master it is the level itself, and silence on either
      side is silence. */
  lemma EffectiveBounds(level: int, master: int)
    requires 0 <= level <= 100 && 0 <= master <= 100
    ensures 0 <= Effective(level, master) <= level
    ensures Effective(level, master) <= master
    ensures master == 100 ==> Effective(level, master) == level
    ensures level == 0 || master == 0 ==> Effective(level, master) == 0
  {
    ProductBounds(level, master);
    var n, v := level * master, Effective(level, master);
    QuotientAtMost(n, v, level);
    QuotientAtMost(n, v, master);
  }

  /** Raising the master volume never lowers an effective volume. */
  lemma EffectiveMonotone(level: int, m1: int, m2: int)
    requires 0 <= level && 0 <= m1 <= m2
    ensures Effective(level, m1) <= Effective(level, m2)
  {
    assert level * (m2 - m1) >= 0;
    assert 0 <= level * m1 <= level * m2;
  }

  /** The monitor source of a sink. */
  function MonitorOf(sink: string): string
  {
    sink + ".monitor"
  }

  lemma MonitorInjective(a: string, b: string)
    requires MonitorOf(a) == MonitorOf(b)
    ensures a == b
  {
    assert a == MonitorOf(a)[..|a|];
    assert b == MonitorOf(b)[..|b|];
  }

  // ----- The edge protocol -----

  /** How far an edge has come. An edge carries sound only when Live; Broken means a
      command about it came out of order. */
  datatype Phase = Absent | Loaded | Zeroed | Silenced | Armed | Live | Broken

  /** The loopback from `source` into `device`, whose sink-input is `input`, to be
      armed at volume `target`. */
  datatype Edge = Edge(source: string, device: string, input: nat, target: int)

  /** Whether a command acts on the edge: it loads a loopback from the edge's source,
      or sets the volume or mute of its sink-input. */
  predicate About(c: Command, e: Edge)
  {
    match c
    case LoadLoopback(src, _, _) => src == e.source
    case InputVolume(x, _) => x == e.input
    case InputMute(x, _) => x == e.input
    case _ => false
  }

  /** The protocol: load into the right device, set 0%, mute, set the target volume,
      unmute. Once live, the volume may be changed at will. An Edge does not carry its
      module, so unloading is outside this automaton: a live edge says how the edge was
      brought up, not that its loopback still exists. */
  function Step(p: Phase, c: Command, e: Edge): Phase
  {
    if !About(c, e) then p
    else match c
      case LoadLoopback(_, dev, lat) =>
        if p == Absent && dev == e.device && lat == LoopbackLatencyMsec then Loaded else Broken
      case InputVolume(_, v) =>
        if p == Loaded && v == 0 then Zeroed
        else if p == Silenced && v == e.target then Armed
        else if p == Live then Live
        else Broken
      case InputMute(_, m) =>
        if p == Zeroed && m then Silenced
        else if p == Armed && !m then Live
        else Broken
      case _ => p
  }

  /** The phase an edge reaches from `p` after the commands `cmds`. */
  function Drive(p: Phase, cmds: seq<Command>, e: Edge): Phase
  {
    if cmds == [] then p else Step(Drive(p, cmds[..|cmds| - 1], e), cmds[|cmds| - 1], e)
  }

  ghost predicate EdgeLive(cmds: seq<Command>, e: Edge)
  {
    Drive(Absent, cmds, e) == Live
  }

  lemma {:induction false} DriveAppend(p: Phase, a: seq<Command>, b: seq<Command>, e: Edge)
    ensures Drive(p, a + b, e) == Drive(Drive(p, a, e), b, e)
  {
    if b == [] {
      assert a + b == a;
    } else {
      assert (a + b)[..|a + b| - 1] == a + b[..|b| - 1];
      DriveAppend(p, a, b[..|b| - 1], e);
    }
  }

  lemma {:induction false} DriveIgnored(p: Phase, cmds: seq<Command>, e: Edge)
    requires forall c :: c in cmds ==> !About(c, e)
    ensures Drive(p, cmds, e) == p
  {
    if cmds != [] {
      assert cmds[|cmds| - 1] in cmds;
      DriveIgnored(p, cmds[..|cmds| - 1], e);
    }
  }

  /** The last volume set on sink-input x, if any. */
  function LastVolume(cmds: seq<Command>, x: nat): Option<int>
  {
    if cmds == [] then None
    else if cmds[|cmds| - 1].InputVolume? && cmds[|cmds| - 1].input == x then Some(cmds[|cmds| - 1].percent)
    else LastVolume(cmds[..|cmds| - 1], x)
  }

  /** The last mute state set on sink-input x, if any. */
  function LastMute(cmds: seq<Command>, x: nat): Option<bool>
  {
    if cmds == [] then None
    else if cmds[|cmds| - 1].InputMute? && cmds[|cmds| - 1].input == x then Some(cmds[|cmds| - 1].muted)
    else LastMute(cmds[..|cmds| - 1], x)
  }

  /** What each phase says about the sink-input's last volume and mute. */
  lemma {:induction false} PhaseMeaning(cmds: seq<Command>, e: Edge)
    ensures Drive(Absent, cmds, e) == Zeroed ==> LastVolume(cmds, e.input) == Some(0) && LastMute(cmds, e.input).None?
    ensures Drive(Absent, cmds, e) == Silenced ==> LastVolume(cmds, e.input) == Some(0) && LastMute(cmds, e.input) == Some(true)
    ensures Drive(Absent, cmds, e) == Armed ==> LastVolume(cmds, e.input) == Some(e.target) && LastMute(cmds, e.input) == Some(true)
    ensures Drive(Absent, cmds, e) == Live ==> LastVolume(cmds, e.input).Some? && LastMute(cmds, e.input) == Some(false)
    ensures Drive(Absent, cmds, e) in {Absent, Loaded} ==> LastVolume(cmds, e.input).None? && LastMute(cmds, e.input).None?
  {
    if cmds != [] {
      PhaseMeaning(cmds[..|cmds| - 1], e);
    }
  }

  /** A live edge is unmuted and has had a volume set. */
  lemma LiveIsUnmuted(cmds: seq<Command>, e: Edge)
    requires EdgeLive(cmds, e)
    ensures LastMute(cmds, e.input) == Some(false)
    ensures LastVolume(cmds, e.input).Some?
  {
    PhaseMeaning(cmds, e);
  }

  /** Adjusting the volume of a live edge keeps it live. */
  lemma VolumeKeepsLive(cmds: seq<Command>, e: Edge, v: int)
    requires EdgeLive(cmds, e)
    ensures EdgeLive(cmds + [InputVolume(e.input, v)], e)
  {
    assert (cmds + [InputVolume(e.input, v)])[..|cmds|] == cmds;
  }

  // ----- The commands the engine issues for edges -----

  /** addChannelLoopback after any removal: load the loopback, and when its sink-input
      is found (x > 0), set it to 0%, mute it, set the target, unmute it. */
  function AddEdgeCmds(source: string, device: string, x: nat, target: int): seq<Command>
  {
    [LoadLoopback(source, device, LoopbackLatencyMsec)]
    + (if x > 0 then [InputVolume(x, 0), InputMute(x, true), InputVolume(x, target), InputMute(x, false)] else [])
  }

  /** A single added edge whose sink-input was found ends live, whatever came before
      as long as it did not touch the edge. */
  lemma AddedEdgeLive(before: seq<Command>, source: string, device: string, x: nat, target: int)
    requires x > 0
    requires forall c :: c in before ==> !About(c, Edge(source, device, x, target))
    ensures EdgeLive(before + AddEdgeCmds(source, device, x, target), Edge(source, device, x, target))
  {
    var e := Edge(source, device, x, target);
    DriveIgnored(Absent, before, e);
    DriveAppend(Absent, before, AddEdgeCmds(source, device, x, target), e);
    var cmds := AddEdgeCmds(source, device, x, target);
    assert cmds[..1] == [LoadLoopback(source, device, LoopbackLatencyMsec)];
    assert cmds[..2] == cmds[..1] + [InputVolume(x, 0)];
    assert cmds[..3] == cmds[..2] + [InputMute(x, true)];
    assert cmds[..4] == cmds[..3] + [InputVolume(x, target)];
    assert cmds == cmds[..4] + [InputMute(x, false)];
    assert Drive(Absent, cmds[..1], e) == Loaded;
    assert Drive(Absent, cmds[..2], e) == Zeroed;
    assert Drive(Absent, cmds[..3], e) == Silenced;
    assert Drive(Absent, cmds[..4], e) == Armed;
  }

  /** Two tables that agree on every key except `id`. */
  ghost predicate AgreeExcept(a: map<string, nat>, b: map<string, nat>, id: string)
  {
    forall k :: k != id ==> (k in a <==> k in b) && (k in a ==> a[k] == b[k])
  }

  lemma AgreeExceptTrans(a: map<string, nat>, b: map<string, nat>, c: map<string, nat>, id: string)
    requires AgreeExcept(a, b, id) && AgreeExcept(b, c, id)
    ensures AgreeExcept(a, c, id)
  {
  }

  /** The unload of a channel's stale loopback module, if the table holds one. */
  function StaleUnload(modules: map<string, nat>, id: string): seq<Command>
  {
    if id in modules then [Unload(modules[id])] else []
  }

  /** The outcome of driving one channel's edge to `target` after a level change, from
      tables (modules0, inputs0) and commands trace0 to (modules1, inputs1) and trace1.
      A channel that already had a sink-input gets exactly one InputVolume on it and the
      tables stay. Otherwise the edge was added: any stale module is unloaded, the
      loopback is loaded and, when its sink-input `input` was found, that sink-input is
      taken through the single-edge sequence and set to `target` once more; only the
      channel's own entries change, and the edge ends live. Either way a tracked
      sink-input was last set to `target`. */
  ghost predicate EdgeDriven(id: string, source: string, device: string, target: int,
                             modules0: map<string, nat>, inputs0: map<string, nat>,
                             modules1: map<string, nat>, inputs1: map<string, nat>,
                             trace0: seq<Command>, trace1: seq<Command>, added: bool, input: nat)
  {
    && trace0 <= trace1
    && (id in inputs0 ==>
          && !added && trace1 == trace0 + [InputVolume(inputs0[id], target)]
          && modules1 == modules0 && inputs1 == inputs0)
    && (id !in inputs0 ==>
          && added
          && AgreeExcept(modules1, modules0, id) && AgreeExcept(inputs1, inputs0, id)
          && trace1 == trace0 + StaleUnload(modules0, id) + AddEdgeCmds(source, device, input, target)
                              + (if input > 0 then [InputVolume(input, target)] else [])
          && (id in inputs1 <==> input > 0))
    && (added && input > 0 ==>
          && id in inputs1 && inputs1[id] == input
          && EdgeLive(trace1[|trace0|..], Edge(source, device, input, target)))
    && (id in inputs1 ==> LastVolume(trace1, inputs1[id]) == Some(target))
  }

  /** The command just sent is the last volume of its sink-input. */
  lemma LastVolumeOfLast(cmds: seq<Command>, x: nat, v: int)
    ensures LastVolume(cmds + [InputVolume(x, v)], x) == Some(v)
  {
  }

  /** A mix's edges as the engine sees them during one pass: the channels, the mix's
      device, its two edge tables, and the master volume. */
  datatype Wiring = Wiring(
    channels: map<string, ChannelState>,
    device: string,
    modules: map<string, nat>,
    inputs: map<string, nat>,
    mix: Mix,
    master: int)

  /** Edge tables that fit together: a sink-input is tracked only for a channel with a
      loopback module, a module only for a known channel, and sink-input ids are never
      0. */
  ghost predicate TablesNested(modules: map<string, nat>, inputs: map<string, nat>,
                               channels: map<string, ChannelState>)
  {
    && (forall k :: k in inputs ==> k in modules && inputs[k] > 0)
    && (forall k :: k in modules ==> k in channels)
  }

  /** The four loops of a rebuild. */
  datatype Pass = UnloadPass | CreatePass | SettlePass | UnmutePass

  function TargetOf(w: Wiring, k: string): int
    requires k in w.channels
  {
    Effective(Level(w.channels[k], w.mix), w.master)
  }

  /** The commands one loop issues for channel k. */
  function PassCmds(pass: Pass, w: Wiring, k: string): seq<Command>
  {
    match pass
    case UnloadPass =>
      if k in w.modules then [Unload(w.modules[k])] else []
    case CreatePass =>
      if k in w.channels then
        [LoadLoopback(MonitorOf(w.channels[k].sinkName), w.device, LoopbackLatencyMsec)]
        + (if k in w.inputs then [InputVolume(w.inputs[k], 0), InputMute(w.inputs[k], true)] else [])
      else []
    case SettlePass =>
      if k in w.inputs && k in w.channels then [InputVolume(w.inputs[k], TargetOf(w, k))] else []
    case UnmutePass =>
      if k in w.inputs then [InputMute(w.inputs[k], false)] else []
  }

  /** One loop over the keys in `order`. */
  function Sweep(pass: Pass, w: Wiring, order: seq<string>): seq<Command>
  {
    if order == [] then [] else Sweep(pass, w, order[..|order| - 1]) + PassCmds(pass, w, order[|order| - 1])
  }

  lemma {:induction false} SweepAppend(pass: Pass, w: Wiring, a: seq<string>, b: seq<string>)
    ensures Sweep(pass, w, a + b) == Sweep(pass, w, a) + Sweep(pass, w, b)
  {
    if b == [] {
      assert a + b == a;
    } else {
      var init, last := b[..|b| - 1], b[|b| - 1];
      assert (a + b)[..|a + b| - 1] == a + init;
      assert (a + b)[|a + b| - 1] == last;
      SweepAppend(pass, w, a, init);
      calc {
        Sweep(pass, w, a + b);
        Sweep(pass, w, a + init) + PassCmds(pass, w, last);
        (Sweep(pass, w, a) + Sweep(pass, w, init)) + PassCmds(pass, w, last);
        { AppendAssoc(Sweep(pass, w, a), Sweep(pass, w, init), PassCmds(pass, w, last)); }
        Sweep(pass, w, a) + (Sweep(pass, w, init) + PassCmds(pass, w, last));
        Sweep(pass, w, a) + Sweep(pass, w, b);
      }
    }
  }

  /** A loop issues for each key exactly what the wiring says about that key, so two
      wirings that agree on the keys visited give the same commands. */
  lemma {:induction false} SweepFrame(pass: Pass, w1: Wiring, w2: Wiring, order: seq<string>)
    requires w1.device == w2.device && w1.mix == w2.mix && w1.master == w2.master
    requires forall k :: k in order ==> PassCmds(pass, w1, k) == PassCmds(pass, w2, k)
    ensures Sweep(pass, w1, order) == Sweep(pass, w2, order)
  {
    if order != [] {
      assert order[|order| - 1] in order;
      SweepFrame(pass, w1, w2, order[..|order| - 1]);
    }
  }

  /** One step of the creation loop: once key order[i] is filled in, the commands so
      far grow by that key's commands and those of the keys before it stay as they
      were. */
  lemma CreateStep(w1: Wiring, w2: Wiring, order: seq<string>, i: nat)
    requires i < |order| && Distinct(order)
    requires w2 == w1.(modules := w2.modules, inputs := w2.inputs)
    requires forall k :: k in w1.modules ==> k in order[..i]
    requires forall k :: k in w1.inputs ==> k in w1.modules
    requires w2.inputs - {order[i]} == w1.inputs
    ensures Sweep(CreatePass, w2, order[..i + 1])
         == Sweep(CreatePass, w1, order[..i]) + PassCmds(CreatePass, w2, order[i])
  {
    forall k | k in order[..i]
      ensures PassCmds(CreatePass, w1, k) == PassCmds(CreatePass, w2, k)
    {
      var a :| 0 <= a < i && order[a] == k;
      assert k != order[i];
      assert k in w1.inputs <==> k in w2.inputs - {order[i]};
    }
    SweepFrame(CreatePass, w1, w2, order[..i]);
    assert order[..i + 1][..i] == order[..i];
  }

  lemma {:induction false} SweepNotAbout(pass: Pass, w: Wiring, order: seq<string>, e: Edge)
    requires forall k :: k in order ==> forall c :: c in PassCmds(pass, w, k) ==> !About(c, e)
    ensures forall c :: c in Sweep(pass, w, order) ==> !About(c, e)
  {
    if order != [] {
      assert order[|order| - 1] in order;
      SweepNotAbout(pass, w, order[..|order| - 1], e);
    }
  }

  /** Distinct channels have distinct sinks. */
  ghost predicate DistinctSources(w: Wiring)
  {
    forall j, k :: j in w.channels && k in w.channels && j != k ==> w.channels[j].sinkName != w.channels[k].sinkName
  }

  /** Distinct edges have distinct sink-inputs: the server never gives two live
      sink-inputs one id. The model cannot establish this; it is a premise. */
  ghost predicate InjectiveInputs(w: Wiring)
  {
    forall j, k :: j in w.inputs && k in w.inputs && j != k ==> w.inputs[j] != w.inputs[k]
  }

  /** Channels whose sinks are named after their distinct keys have distinct sources. */
  lemma NamedSinksDistinct(w: Wiring)
    requires forall k :: k in w.channels ==> w.channels[k].sinkName == SinkNameFor(k)
    ensures DistinctSources(w)
  {
    forall j, k | j in w.channels && k in w.channels && j != k
      ensures w.channels[j].sinkName != w.channels[k].sinkName
    {
      SinkNamesDistinct(j, k);
    }
  }

  /** The edge of channel k in the wiring. */
  function EdgeOf(w: Wiring, k: string): Edge
    requires k in w.channels && k in w.inputs
  {
    Edge(MonitorOf(w.channels[k].sinkName), w.device, w.inputs[k], TargetOf(w, k))
  }

  /** No loop issues a command about another channel's edge. */
  lemma PassLeavesOthers(pass: Pass, w: Wiring, j: string, k: string)
    requires DistinctSources(w) && InjectiveInputs(w)
    requires k in w.channels && k in w.inputs && j != k
    ensures forall c :: c in PassCmds(pass, w, j) ==> !About(c, EdgeOf(w, k))
  {
    if j in w.channels && MonitorOf(w.channels[j].sinkName) == MonitorOf(w.channels[k].sinkName) {
      MonitorInjective(w.channels[j].sinkName, w.channels[k].sinkName);
    }
  }

  /** Unloading never touches an edge's source or sink-input. */
  lemma UnloadLeavesAll(w: Wiring, j: string, e: Edge)
    ensures forall c :: c in PassCmds(UnloadPass, w, j) ==> !About(c, e)
  {
  }

  /** A loop over keys other than k issues nothing about k's edge. */
  lemma SweepAvoids(pass: Pass, w: Wiring, seg: seq<string>, k: string)
    requires DistinctSources(w) && InjectiveInputs(w)
    requires k in w.channels && k in w.inputs && k !in seg
    ensures forall c :: c in Sweep(pass, w, seg) ==> !About(c, EdgeOf(w, k))
  {
    forall j | j in seg
      ensures forall c :: c in PassCmds(pass, w, j) ==> !About(c, EdgeOf(w, k))
    {
      PassLeavesOthers(pass, w, j, k);
    }
    SweepNotAbout(pass, w, seg, EdgeOf(w, k));
  }

  /** A list without repetitions, split around one of its elements. */
  lemma SplitDistinct(order: seq<string>, k: string) returns (pre: seq<string>, post: seq<string>)
    requires Distinct(order) && k in order
    ensures order == pre + [k] + post
    ensures k !in pre && k !in post
  {
    var i :| 0 <= i < |order| && order[i] == k;
    pre, post := order[..i], order[i + 1..];
    assert order == pre + [k] + post;
    forall a | 0 <= a < |pre|
      ensures pre[a] != k
    {
      assert pre[a] == order[a];
    }
    forall a | 0 <= a < |post|
      ensures post[a] != k
    {
      assert post[a] == order[i + 1 + a];
    }
  }

  /** Over a loop that visits k once, an edge sees exactly k's commands. */
  lemma SweepThrough(pass: Pass, w: Wiring, order: seq<string>, k: string, p: Phase)
    requires DistinctSources(w) && InjectiveInputs(w)
    requires Distinct(order) && k in order
    requires k in w.channels && k in w.inputs
    ensures Drive(p, Sweep(pass, w, order), EdgeOf(w, k)) == Drive(p, PassCmds(pass, w, k), EdgeOf(w, k))
  {
    var e := EdgeOf(w, k);
    var pre, post := SplitDistinct(order, k);
    var mine := PassCmds(pass, w, k);
    SweepAppend(pass, w, pre + [k], post);
    SweepAppend(pass, w, pre, [k]);
    assert Sweep(pass, w, [k]) == mine by {
      assert [k][..0] == [];
    }
    SweepAvoids(pass, w, pre, k);
    SweepAvoids(pass, w, post, k);
    DriveAppend(p, Sweep(pass, w, pre) + mine, Sweep(pass, w, post), e);
    DriveAppend(p, Sweep(pass, w, pre), mine, e);
    DriveIgnored(p, Sweep(pass, w, pre), e);
    DriveIgnored(Drive(p, mine, e), Sweep(pass, w, post), e);
  }

  /** The whole command sequence of updateLoopbacks / updateStreamLoopbacks once a
      device is set: mute the device, unload every old edge, create every edge at 0%
      and muted, set every effective volume, unmute every edge, unmute the device. */
  function RebuildCmds(before: Wiring, after: Wiring, unloadOrder: seq<string>,
                       createOrder: seq<string>, liveOrder: seq<string>): seq<Command>
  {
    [SinkMute(after.device, true)]
    + Sweep(UnloadPass, before, unloadOrder)
    + Sweep(CreatePass, after, createOrder)
    + Sweep(SettlePass, after, liveOrder)
    + Sweep(UnmutePass, after, liveOrder)
    + [SinkMute(after.device, false)]
  }

  lemma CreateSilences(w: Wiring, k: string)
    requires k in w.channels && k in w.inputs
    ensures Drive(Absent, PassCmds(CreatePass, w, k), EdgeOf(w, k)) == Silenced
  {
    var e, x := EdgeOf(w, k), w.inputs[k];
    var load := LoadLoopback(e.source, e.device, LoopbackLatencyMsec);
    assert PassCmds(CreatePass, w, k) == [load, InputVolume(x, 0), InputMute(x, true)];
    assert Drive(Absent, [load], e) == Loaded by {
      assert [load][..0] == [];
    }
    assert Drive(Absent, [load, InputVolume(x, 0)], e) == Zeroed by {
      assert [load, InputVolume(x, 0)][..1] == [load];
    }
    assert [load, InputVolume(x, 0), InputMute(x, true)][..2] == [load, InputVolume(x, 0)];
  }

  lemma SettleArms(w: Wiring, k: string)
    requires k in w.channels && k in w.inputs
    ensures Drive(Silenced, PassCmds(SettlePass, w, k), EdgeOf(w, k)) == Armed
  {
    assert PassCmds(SettlePass, w, k)[..0] == [];
  }

  lemma UnmuteGoesLive(w: Wiring, k: string)
    requires k in w.inputs
    requires k in w.channels
    ensures Drive(Armed, PassCmds(UnmutePass, w, k), EdgeOf(w, k)) == Live
  {
    assert PassCmds(UnmutePass, w, k)[..0] == [];
  }

  /** Every edge a rebuild leaves in the table went through the whole protocol: it was
      loaded into the device, set to 0%, muted, set to its effective volume and then
      unmuted. */
  lemma RebuildLeavesEdgesLive(before: Wiring, after: Wiring, unloadOrder: seq<string>,
                               createOrder: seq<string>, liveOrder: seq<string>, k: string)
    requires DistinctSources(after) && InjectiveInputs(after)
    requires Distinct(createOrder) && Distinct(liveOrder)
    requires k in createOrder && k in liveOrder
    requires k in after.channels && k in after.inputs
    ensures EdgeLive(RebuildCmds(before, after, unloadOrder, createOrder, liveOrder), EdgeOf(after, k))
  {
    var e := EdgeOf(after, k);
    var head := [SinkMute(after.device, true)] + Sweep(UnloadPass, before, unloadOrder);
    var create := Sweep(CreatePass, after, createOrder);
    var settle := Sweep(SettlePass, after, liveOrder);
    var unmute := Sweep(UnmutePass, after, liveOrder);
    var last := [SinkMute(after.device, false)];

    SweepOnlyUnloads(before, unloadOrder);
    DriveIgnored(Absent, head, e);
    DriveIgnored(Live, last, e);
    SweepThrough(CreatePass, after, createOrder, k, Absent);
    CreateSilences(after, k);
    SweepThrough(SettlePass, after, liveOrder, k, Silenced);
    SettleArms(after, k);
    SweepThrough(UnmutePass, after, liveOrder, k, Armed);
    UnmuteGoesLive(after, k);

    DriveAppend(Absent, head, create, e);
    DriveAppend(Absent, head + create, settle, e);
    DriveAppend(Absent, head + create + settle, unmute, e);
    DriveAppend(Absent, head + create + settle + unmute, last, e);
    assert RebuildCmds(before, after, unloadOrder, createOrder, liveOrder) == head + create + settle + unmute + last;
  }

  /** So after a rebuild every edge in the table is unmuted. */
  lemma RebuildUnmutesEdges(before: Wiring, after: Wiring, unloadOrder: seq<string>,
                            createOrder: seq<string>, liveOrder: seq<string>, k: string)
    requires DistinctSources(after) && InjectiveInputs(after)
    requires Distinct(createOrder) && Distinct(liveOrder)
    requires k in createOrder && k in liveOrder
    requires k in after.channels && k in after.inputs
    ensures LastMute(RebuildCmds(before, after, unloadOrder, createOrder, liveOrder), after.inputs[k]) == Some(false)
  {
    RebuildLeavesEdgesLive(before, after, unloadOrder, createOrder, liveOrder, k);
    LiveIsUnmuted(RebuildCmds(before, after, unloadOrder, createOrder, liveOrder), EdgeOf(after, k));
  }

  lemma {:induction false} SweepNoSinkMute(pass: Pass, w: Wiring, order: seq<string>)
    ensures forall c :: c in Sweep(pass, w, order) ==> !c.SinkMute?
  {
    if order != [] {
      SweepNoSinkMute(pass, w, order[..|order| - 1]);
    }
  }

  /** The device is muted first and unmuted last, and nothing in between touches it. */
  lemma RebuildBracketed(before: Wiring, after: Wiring, unloadOrder: seq<string>,
                         createOrder: seq<string>, liveOrder: seq<string>)
    ensures var cmds := RebuildCmds(before, after, unloadOrder, createOrder, liveOrder);
      && cmds[0] == SinkMute(after.device, true)
      && cmds[|cmds| - 1] == SinkMute(after.device, false)
      && forall i :: 0 < i < |cmds| - 1 ==> !cmds[i].SinkMute?
  {
    var cmds := RebuildCmds(before, after, unloadOrder, createOrder, liveOrder);
    var mid := Sweep(UnloadPass, before, unloadOrder) + Sweep(CreatePass, after, createOrder)
               + Sweep(SettlePass, after, liveOrder) + Sweep(UnmutePass, after, liveOrder);
    SweepNoSinkMute(UnloadPass, before, unloadOrder);
    SweepNoSinkMute(CreatePass, after, createOrder);
    SweepNoSinkMute(SettlePass, after, liveOrder);
    SweepNoSinkMute(UnmutePass, after, liveOrder);
    assert cmds == [SinkMute(after.device, true)] + mid + [SinkMute(after.device, false)];
    forall i | 0 < i < |cmds| - 1
      ensures !cmds[i].SinkMute?
    {
      assert cmds[i] == mid[i - 1];
      assert mid[i - 1] in mid;
    }
  }

  lemma {:induction false} SweepOnlyUnloads(w: Wiring, order: seq<string>)
    ensures forall c :: c in Sweep(UnloadPass, w, order) ==> c.Unload?
  {
    if order != [] {
      SweepOnlyUnloads(w, order[..|order| - 1]);
    }
  }

  lemma {:induction false} SweepNeverUnloads(pass: Pass, w: Wiring, order: seq<string>)
    requires pass != UnloadPass
    ensures forall c :: c in Sweep(pass, w, order) ==> !c.Unload?
  {
    if order != [] {
      SweepNeverUnloads(pass, w, order[..|order| - 1]);
    }
  }

  /** Every old edge is unloaded before the first new one is loaded. */
  lemma RebuildUnloadsFirst(before: Wiring, after: Wiring, unloadOrder: seq<string>,
                            createOrder: seq<string>, liveOrder: seq<string>)
    ensures var cmds := RebuildCmds(before, after, unloadOrder, createOrder, liveOrder);
      forall i, j :: 0 <= i < j < |cmds| && cmds[i].LoadLoopback? ==> !cmds[j].Unload?
  {
    var cmds := RebuildCmds(before, after, unloadOrder, createOrder, liveOrder);
    var head := [SinkMute(after.device, true)] + Sweep(UnloadPass, before, unloadOrder);
    var tail := Sweep(CreatePass, after, createOrder) + Sweep(SettlePass, after, liveOrder)
                + Sweep(UnmutePass, after, liveOrder) + [SinkMute(after.device, false)];
    SweepOnlyUnloads(before, unloadOrder);
    SweepNeverUnloads(CreatePass, after, createOrder);
    SweepNeverUnloads(SettlePass, after, liveOrder);
    SweepNeverUnloads(UnmutePass, after, liveOrder);
    assert cmds == head + tail;
    forall n | 0 <= n < |head|
      ensures !cmds[n].LoadLoopback?
    {
      assert cmds[n] == head[n];
      assert head[n] in head;
    }
    forall n | |head| <= n < |cmds|
      ensures !cmds[n].Unload?
    {
      assert cmds[n] == tail[n - |head|];
      assert tail[n - |head|] in tail;
    }
  }

  lemma {:induction false} LastVolumeAppend(a: seq<Command>, b: seq<Command>, x: nat)
    ensures LastVolume(a + b, x) == if LastVolume(b, x).Some? then LastVolume(b, x) else LastVolume(a, x)
  {
    if b == [] {
      assert a + b == a;
    } else {
      assert (a + b)[..|a + b| - 1] == a + b[..|b| - 1];
      LastVolumeAppend(a, b[..|b| - 1], x);
    }
  }

  /** After a volume loop every visited edge's sink-input was last set to its effective
      volume: this is what setMasterVolume relies on. */
  lemma {:induction false} SettleSetsTargets(w: Wiring, order: seq<string>, k: string)
    requires InjectiveInputs(w)
    requires k in order && k in w.channels && k in w.inputs
    ensures LastVolume(Sweep(SettlePass, w, order), w.inputs[k]) == Some(TargetOf(w, k))
  {
    var last := order[|order| - 1];
    var init := order[..|order| - 1];
    LastVolumeAppend(Sweep(SettlePass, w, init), PassCmds(SettlePass, w, last), w.inputs[k]);
    if last != k {
      assert k in init by {
        assert order == init + [last];
      }
      SettleSetsTargets(w, init, k);
    } else {
      assert [InputVolume(w.inputs[k], TargetOf(w, k))][..0] == [];
    }
  }

  /** The unmute loop sets no volume. */
  lemma {:induction false} UnmuteSetsNoVolume(w: Wiring, order: seq<string>, x: nat)
    ensures LastVolume(Sweep(UnmutePass, w, order), x).None?
  {
    if order != [] {
      var init, k := order[..|order| - 1], order[|order| - 1];
      UnmuteSetsNoVolume(w, init, x);
      LastVolumeAppend(Sweep(UnmutePass, w, init), PassCmds(UnmutePass, w, k), x);
      if k in w.inputs {
        assert [InputMute(w.inputs[k], false)][..0] == [];
      }
    }
  }

  /** After a rebuild, the last volume set on each tracked sink-input is its channel's
      effective volume: the unmute loop and the final device unmute set none. */
  lemma RebuildSetsTargets(before: Wiring, after: Wiring, unloadOrder: seq<string>,
                           createOrder: seq<string>, liveOrder: seq<string>, k: string)
    requires InjectiveInputs(after)
    requires k in liveOrder && k in after.channels && k in after.inputs
    ensures LastVolume(RebuildCmds(before, after, unloadOrder, createOrder, liveOrder), after.inputs[k])
            == Some(TargetOf(after, k))
  {
    var x := after.inputs[k];
    var head := [SinkMute(after.device, true)] + Sweep(UnloadPass, before, unloadOrder) + Sweep(CreatePass, after, createOrder);
    var settle := Sweep(SettlePass, after, liveOrder);
    var unmute := Sweep(UnmutePass, after, liveOrder);
    var last := [SinkMute(after.device, false)];
    SettleSetsTargets(after, liveOrder, k);
    UnmuteSetsNoVolume(after, liveOrder, x);
    assert last[..0] == [];
    LastVolumeAppend(head + settle + unmute, last, x);
    LastVolumeAppend(head + settle, unmute, x);
    LastVolumeAppend(head, settle, x);
  }

  /** Every tracked edge of the wiring is live after `cmds`, and its sink-input was
      last set to the channel's effective volume. */
  ghost predicate EdgesLiveAtTargets(w: Wiring, cmds: seq<Command>)
  {
    forall k :: k in w.inputs ==>
      k in w.channels && EdgeLive(cmds, EdgeOf(w, k)) && LastVolume(cmds, w.inputs[k]) == Some(TargetOf(w, k))
  }

  /** A rebuild over every channel and every tracked sink-input leaves each tracked
      edge live at its effective volume, given that the server hands out distinct
      sink-input ids. */
  lemma RebuildLeavesAllLive(before: Wiring, after: Wiring, unloadOrder: seq<string>,
                             createOrder: seq<string>, liveOrder: seq<string>)
    requires forall k :: k in after.channels ==> after.channels[k].sinkName == SinkNameFor(k)
    requires TablesNested(after.modules, after.inputs, after.channels)
    requires Enumerates(createOrder, after.channels.Keys) && Enumerates(liveOrder, after.inputs.Keys)
    requires InjectiveInputs(after)
    ensures EdgesLiveAtTargets(after, RebuildCmds(before, after, unloadOrder, createOrder, liveOrder))
  {
    NamedSinksDistinct(after);
    var cmds := RebuildCmds(before, after, unloadOrder, createOrder, liveOrder);
    forall k | k in after.inputs
      ensures k in after.channels && EdgeLive(cmds, EdgeOf(after, k))
      ensures LastVolume(cmds, after.inputs[k]) == Some(TargetOf(after, k))
    {
      RebuildLeavesEdgesLive(before, after, unloadOrder, createOrder, liveOrder, k);
      RebuildSetsTargets(before, after, unloadOrder, createOrder, liveOrder, k);
    }
  }
}
