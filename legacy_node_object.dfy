/**
 * The older audio node object (src/pwnodeobject.rs). It reads its volumes from the
 * mixer plugin's dictionary and its channel vector from a synchronous "Props" query,
 * decodes "Format" pods through choice children only, and silences its own notify
 * handlers with a map of registered signal blockers.
 */
module LegacyNodeObject {
  import opened Wrappers
  import opened Pods
  import opened Events
  import NodeObject

  /** The node kinds the older variant distinguishes; sources are not among them. */
  datatype NodeType = Undefined | Input | Output | Sink

  /** The node-type match in `new`, on the `media.class` property. */
  function NodeTypeFor(mediaClass: Option<string>): (t: NodeType)
    ensures t == Output <==> mediaClass == Some("Stream/Output/Audio")
    ensures t == Input <==> mediaClass == Some("Stream/Input/Audio")
    ensures t == Sink <==> mediaClass == Some("Audio/Sink")
    ensures t == Undefined <==>
            !(mediaClass == Some("Stream/Output/Audio") || mediaClass == Some("Stream/Input/Audio") ||
              mediaClass == Some("Audio/Sink"))
  {
    if mediaClass == Some("Stream/Output/Audio") then Output
    else if mediaClass == Some("Stream/Input/Audio") then Input
    else if mediaClass == Some("Audio/Sink") then Sink
    else Undefined
  }

  /** The global properties `label_set_name` tries, in order. */
  const NameKeys: seq<string> := ["node.nick", "node.description", "node.name"]

  /** The name `label_set_name` sets: the first present key's value, else "". */
  function DisplayName(g: map<string, string>): string {
    FirstPresent(g, NameKeys).GetOr("")
  }

  /** The nick wins, then the description, then the name, then the empty string. */
  lemma DisplayNameFallback(g: map<string, string>)
    ensures "node.nick" in g ==> DisplayName(g) == g["node.nick"]
    ensures "node.nick" !in g && "node.description" in g ==> DisplayName(g) == g["node.description"]
    ensures "node.nick" !in g && "node.description" !in g ==> DisplayName(g) == Lookup(g, "node.name").GetOr("")
  {
    FirstPresentIsFirst(g, NameKeys);
    if "node.nick" !in g && "node.description" !in g {
      assert NameKeys[0] !in g && NameKeys[1] !in g && NameKeys[2] == "node.name";
    }
  }

  /** One element of a GLib value array: an `f32`, or a value of some other type. */
  datatype GValue = F32(f: real) | OtherValue

  /** The values of an array that convert to `f32`, in order. */
  function Convertible(values: seq<GValue>): (r: seq<real>)
    ensures |r| <= |values|
  {
    if values == [] then []
    else
      var init := Convertible(values[..|values| - 1]);
      if values[|values| - 1].F32? then init + [values[|values| - 1].f] else init
  }

  /** An array of `f32` values converts entirely and in order. */
  lemma {:induction false} ConvertibleAll(values: seq<GValue>)
    requires forall k :: 0 <= k < |values| ==> values[k].F32?
    ensures |Convertible(values)| == |values|
    ensures forall k :: 0 <= k < |values| ==> Convertible(values)[k] == values[k].f
  {
    if values != [] {
      var init := values[..|values| - 1];
      assert forall k :: 0 <= k < |init| ==> init[k] == values[k];
      ConvertibleAll(init);
    }
  }

  /**
   * Conversion keeps every `f32` entry, in order: the entry at j lands right after
   * the values converted from the entries before it.
   */
  lemma {:induction false} ConvertibleKeeps(values: seq<GValue>, j: nat)
    requires j < |values| && values[j].F32?
    ensures |Convertible(values[..j])| < |Convertible(values)|
    ensures Convertible(values)[|Convertible(values[..j])|] == values[j].f
  {
    var init := values[..|values| - 1];
    ConvertiblePrefix(values, j);
    if j == |values| - 1 {
      assert init == values[..j];
    } else {
      assert init[..j] == values[..j];
      assert init[j] == values[j];
      ConvertibleKeeps(init, j);
    }
  }

  /** Converting a prefix yields a prefix of the conversion. */
  lemma {:induction false} ConvertiblePrefix(values: seq<GValue>, j: nat)
    requires j <= |values|
    ensures Convertible(values[..j]) <= Convertible(values)
  {
    if j < |values| {
      var init := values[..|values| - 1];
      assert init[..j] == values[..j];
      ConvertiblePrefix(init, j);
    } else {
      assert values[..j] == values;
    }
  }

  /** The positions of the entries that convert to `f32`. */
  function F32Indices(values: seq<GValue>): set<nat> {
    set j: nat | j < |values| && values[j].F32?
  }

  /** Exactly the `f32` entries are converted: one value per such entry. */
  lemma {:induction false} ConvertibleCount(values: seq<GValue>)
    ensures |Convertible(values)| == |F32Indices(values)|
  {
    if values != [] {
      var n := |values| - 1;
      var init := values[..n];
      ConvertibleCount(init);
      assert forall j: nat :: j < n ==> init[j] == values[j];
      if values[n].F32? {
        assert F32Indices(values) == F32Indices(init) + {n};
      } else {
        assert F32Indices(values) == F32Indices(init);
      }
    }
  }

  /** The `f32` values an array of volumes holds, as the getter builds it. */
  function AsValues(volumes: seq<real>): (values: seq<GValue>)
    ensures |values| == |volumes| && forall k :: 0 <= k < |values| ==> values[k] == F32(volumes[k])
  {
    seq(|volumes|, k requires 0 <= k < |volumes| => F32(volumes[k]))
  }

  lemma AsValuesSnoc(volumes: seq<real>, v: real)
    ensures AsValues(volumes + [v]) == AsValues(volumes) + [F32(v)]
  {
  }

  /** Converting the getter's array gives back the volumes it was built from. */
  lemma AsValuesConvertBack(volumes: seq<real>)
    ensures Convertible(AsValues(volumes)) == volumes
  {
    ConvertibleAll(AsValues(volumes));
  }

  /** Every converted value comes from the array. */
  lemma {:induction false} ConvertibleFrom(values: seq<GValue>)
    ensures forall k :: 0 <= k < |Convertible(values)| ==>
              exists j :: 0 <= j < |values| && values[j] == F32(Convertible(values)[k])
  {
    if values != [] {
      var init := values[..|values| - 1];
      ConvertibleFrom(init);
      var r := Convertible(values);
      forall k | 0 <= k < |r|
        ensures exists j :: 0 <= j < |values| && values[j] == F32(r[k])
      {
        if k < |Convertible(init)| {
          var j :| 0 <= j < |init| && init[j] == F32(Convertible(init)[k]);
          assert values[j] == init[j];
        } else {
          assert values[|values| - 1] == F32(r[k]);
        }
      }
    } else {
      assert Convertible(values) == [];
    }
  }

  /** The value a single-channel write leaves: entry `i` replaced when it exists. */
  function WriteAt(volumes: seq<real>, i: uint32, v: real): (r: seq<real>)
    ensures |r| == |volumes|
    ensures i as int < |volumes| ==> r[i] == v
    ensures forall k :: 0 <= k < |r| && k != i as int ==> r[k] == volumes[k]
  {
    if (i as int) < |volumes| then volumes[i as int := v] else volumes
  }

  /**
   * Rust's `str::parse::<u32>`: an optional '+', then one or more decimal digits whose
   * value is below 2^32; anything else is an error.
   */
  function ParseU32(s: string): Option<uint32> {
    var digits := if |s| > 0 && s[0] == '+' then s[1..] else s;
    if |digits| > 0 && AllDigits(digits) && DigitsValue(digits) < 0x1_0000_0000
    then Some(DigitsValue(digits) as uint32)
    else None
  }

  /** The decimal rendering of an index parses back to it, with or without a leading '+'. */
  lemma ParseRendered(n: uint32)
    ensures ParseU32(NatToString(n as nat)) == Some(n)
    ensures ParseU32("+" + NatToString(n as nat)) == Some(n)
  {
    NatToStringValue(n as nat);
    var s := NatToString(n as nat);
    assert ("+" + s)[1..] == s;
  }

  /** The inner dictionary of one mixer channel entry. */
  datatype ChannelEntry = ChannelEntry(channel: Option<string>, volume: Option<real>)

  /** One `(index string, optional dictionary)` pair of the mixer's "channelVolumes". */
  datatype MixerChannel = MixerChannel(key: string, entry: Option<ChannelEntry>)

  /** The dictionary the mixer plugin's "get-volume" returns. */
  datatype MixerInfo = MixerInfo(channelVolumes: Option<seq<MixerChannel>>, volume: Option<real>, mute: Option<bool>)

  /** Every index string parses; the source panics otherwise. */
  predicate KeysParse(chans: seq<MixerChannel>) {
    forall k :: 0 <= k < |chans| ==> ParseU32(chans[k].key).Some?
  }

  predicate MixerKeysParse(mixer: Option<MixerInfo>) {
    mixer.Some? && mixer.value.channelVolumes.Some? ==> KeysParse(mixer.value.channelVolumes.value)
  }

  /**
   * An entry is applied when it has a dictionary whose channel name (or "" when absent)
   * names an audio channel and which carries a volume. `isChannel` is the audio-channel
   * id table's short-name lookup.
   */
  predicate Applies(c: MixerChannel, isChannel: string -> bool) {
    c.entry.Some? && isChannel(c.entry.value.channel.GetOr("")) && c.entry.value.volume.Some?
  }

  function ChannelIndex(c: MixerChannel): uint32
    requires ParseU32(c.key).Some?
  {
    ParseU32(c.key).value
  }

  function ChannelVolume(c: MixerChannel): real
    requires c.entry.Some? && c.entry.value.volume.Some?
  {
    c.entry.value.volume.value
  }

  /** The channel vector after the mixer's entries are written one by one. */
  function MixerVolumes(volumes: seq<real>, chans: seq<MixerChannel>, isChannel: string -> bool): seq<real>
    requires KeysParse(chans)
  {
    if chans == [] then volumes
    else
      var init := chans[..|chans| - 1];
      assert KeysParse(init) by {
        assert forall k :: 0 <= k < |init| ==> init[k] == chans[k];
      }
      var c := chans[|chans| - 1];
      var before := MixerVolumes(volumes, init, isChannel);
      if Applies(c, isChannel) then WriteAt(before, ChannelIndex(c), ChannelVolume(c)) else before
  }

  /** The number of entries the mixer applies. */
  function AppliedCount(chans: seq<MixerChannel>, isChannel: string -> bool): (n: nat)
    ensures n <= |chans|
  {
    if chans == [] then 0
    else AppliedCount(chans[..|chans| - 1], isChannel) + if Applies(chans[|chans| - 1], isChannel) then 1 else 0
  }

  /** An entry that no applied channel addresses keeps its value. */
  lemma {:induction false} MixerUntouched(volumes: seq<real>, chans: seq<MixerChannel>, isChannel: string -> bool, k: nat)
    requires KeysParse(chans) && k < |volumes|
    requires forall j :: 0 <= j < |chans| && Applies(chans[j], isChannel) ==> ChannelIndex(chans[j]) as int != k
    ensures |MixerVolumes(volumes, chans, isChannel)| == |volumes|
    ensures MixerVolumes(volumes, chans, isChannel)[k] == volumes[k]
  {
    if chans != [] {
      var init := chans[..|chans| - 1];
      assert forall l :: 0 <= l < |init| ==> init[l] == chans[l];
      MixerUntouched(volumes, init, isChannel, k);
    }
  }

  /** Otherwise the last applied channel with that index decides the entry. */
  lemma {:induction false} MixerLastWrite(volumes: seq<real>, chans: seq<MixerChannel>, isChannel: string -> bool,
                                          j: nat)
    requires KeysParse(chans) && j < |chans| && Applies(chans[j], isChannel)
    requires ChannelIndex(chans[j]) as int < |volumes|
    requires forall l :: j < l < |chans| && Applies(chans[l], isChannel) ==>
               ChannelIndex(chans[l]) != ChannelIndex(chans[j])
    ensures |MixerVolumes(volumes, chans, isChannel)| == |volumes|
    ensures MixerVolumes(volumes, chans, isChannel)[ChannelIndex(chans[j])] == ChannelVolume(chans[j])
  {
    var init := chans[..|chans| - 1];
    assert forall l :: 0 <= l < |init| ==> init[l] == chans[l];
    if j < |chans| - 1 {
      MixerLastWrite(volumes, init, isChannel, j);
    } else {
      MixerLength(volumes, init, isChannel);
    }
  }

  /** The mixer's writes keep the vector's length. */
  lemma {:induction false} MixerLength(volumes: seq<real>, chans: seq<MixerChannel>, isChannel: string -> bool)
    requires KeysParse(chans)
    ensures |MixerVolumes(volumes, chans, isChannel)| == |volumes|
  {
    if chans != [] {
      var init := chans[..|chans| - 1];
      assert forall l :: 0 <= l < |init| ==> init[l] == chans[l];
      MixerLength(volumes, init, isChannel);
    }
  }

  /** One more mixer entry: its write follows the ones before. */
  lemma MixerStep(volumes: seq<real>, chans: seq<MixerChannel>, i: nat, isChannel: string -> bool)
    requires KeysParse(chans) && i < |chans|
    ensures KeysParse(chans[..i]) && KeysParse(chans[..i + 1])
    ensures MixerVolumes(volumes, chans[..i + 1], isChannel) ==
            if Applies(chans[i], isChannel)
            then WriteAt(MixerVolumes(volumes, chans[..i], isChannel), ChannelIndex(chans[i]), ChannelVolume(chans[i]))
            else MixerVolumes(volumes, chans[..i], isChannel)
    ensures AppliedCount(chans[..i + 1], isChannel) ==
            AppliedCount(chans[..i], isChannel) + if Applies(chans[i], isChannel) then 1 else 0
  {
    assert chans[..i + 1][..i] == chans[..i];
  }

  /** The channel vector after `update_volume_using_mixerapi` with this answer. */
  function MixerChannelVolumes(mixer: Option<MixerInfo>, volumes: seq<real>, isChannel: string -> bool): seq<real>
    requires MixerKeysParse(mixer)
  {
    if mixer.Some? && mixer.value.channelVolumes.Some?
    then MixerVolumes(volumes, mixer.value.channelVolumes.value, isChannel)
    else volumes
  }

  /** The notifications `update_volume_using_mixerapi` causes: per applied channel, then volume, then mute. */
  function MixerLog(mixer: Option<MixerInfo>, isChannel: string -> bool): seq<Event> {
    if mixer.None? then []
    else
      (if mixer.value.channelVolumes.Some?
       then Repeat(Notify("channel-volumes"), AppliedCount(mixer.value.channelVolumes.value, isChannel))
       else []) +
      (if mixer.value.volume.Some? then [Notify("volume")] else []) +
      (if mixer.value.mute.Some? then [Notify("mute")] else [])
  }

  /** The net number of times handler `h` is blocked after `trace`, starting unblocked. */
  function BlockDepth(trace: seq<Event>, h: nat): int {
    if trace == [] then 0
    else
      BlockDepth(trace[..|trace| - 1], h) +
      match trace[|trace| - 1]
      case Block(g) => if g == h then 1 else 0
      case Unblock(g) => if g == h then -1 else 0
      case _ => 0
  }

  /** The `name` notifications of `trace` that handler `h` receives: those sent while it is unblocked. */
  function Delivered(trace: seq<Event>, h: nat, name: string): nat {
    if trace == [] then 0
    else
      var init := trace[..|trace| - 1];
      Delivered(init, h, name) + if trace[|trace| - 1] == Notify(name) && BlockDepth(init, h) == 0 then 1 else 0
  }

  /** The events a `*_noevent` setter for property `name` causes. */
  function NoEventTrace(blockers: map<string, nat>, name: string): seq<Event> {
    if name in blockers then [Block(blockers[name]), Notify(name), Unblock(blockers[name])]
    else [Notify(name)]
  }

  /**
   * A `*_noevent` setter hides its notification from the handler registered for that
   * property and leaves it unblocked; every other handler receives it once.
   */
  lemma NoEventSilencesBlocker(blockers: map<string, nat>, name: string, h: nat)
    ensures name in blockers ==>
            Delivered(NoEventTrace(blockers, name), blockers[name], name) == 0 &&
            BlockDepth(NoEventTrace(blockers, name), blockers[name]) == 0
    ensures (name !in blockers || h != blockers[name]) ==>
            Delivered(NoEventTrace(blockers, name), h, name) == 1 &&
            BlockDepth(NoEventTrace(blockers, name), h) == 0
  {
    var t := NoEventTrace(blockers, name);
    if name in blockers {
      var id := blockers[name];
      var t1, t2 := [Block(id)], [Block(id), Notify(name)];
      assert t1[..0] == [] && t2[..1] == t1 && t[..2] == t2;
      assert BlockDepth(t1, id) == 1 && BlockDepth(t2, id) == 1 && BlockDepth(t, id) == 0;
      assert Delivered(t1, id, name) == 0 && Delivered(t2, id, name) == 0;
      if h != id {
        assert BlockDepth(t1, h) == 0 && BlockDepth(t2, h) == 0 && BlockDepth(t, h) == 0;
        assert Delivered(t1, h, name) == 0 && Delivered(t2, h, name) == 1;
      }
    } else {
      assert t[..0] == [];
    }
  }

  /** A "Format" field `x.int()` can read: no choice child, or an integer child. */
  predicate IntChild(v: Value) {
    ChoiceChild(v).Some? ==> ChoiceChild(v).value.Int?
  }

  /** A field `x.id()` can read: no choice child, or an id child. */
  predicate IdChild(v: Value) {
    ChoiceChild(v).Some? ==> ChoiceChild(v).value.Id?
  }

  /** A position field whose child, if any, is an integer array that fits 64 slots. */
  predicate PositionChild(v: Value) {
    ChoiceChild(v).Some? ==> ChoiceChild(v).value.IntArray? && |ChoiceChild(v).value.ints| <= PositionSlots
  }

  /** A "Format" pod the older `update_format` decodes without panicking. */
  predicate LegacyFormatPod(p: Pod) {
    p.Object? && "channels" in p.fields && "rate" in p.fields && "format" in p.fields && "position" in p.fields &&
    IntChild(p.fields["channels"]) && IntChild(p.fields["rate"]) && IdChild(p.fields["format"]) &&
    PositionChild(p.fields["position"])
  }

  function ChildInt(v: Value): int32
    requires IntChild(v)
  {
    if ChoiceChild(v).Some? then ChoiceChild(v).value.i else 0
  }

  function ChildId(v: Value): uint32
    requires IdChild(v)
  {
    if ChoiceChild(v).Some? then ChoiceChild(v).value.id else 0
  }

  /** The child's integers reinterpreted as `u32`, or no entries without a child. */
  function ChildPositions(v: Value): (vec: seq<uint32>)
    requires PositionChild(v)
    ensures ChoiceChild(v).None? ==> vec == []
    ensures ChoiceChild(v).Some? ==>
              |vec| == |ChoiceChild(v).value.ints| <= PositionSlots &&
              forall k :: 0 <= k < |vec| ==> vec[k] == AsU32(ChoiceChild(v).value.ints[k])
  {
    if ChoiceChild(v).Some? then
      var ints := ChoiceChild(v).value.ints;
      seq(|ints|, k requires 0 <= k < |ints| => AsU32(ints[k]))
    else []
  }

  /** What the older callback reads from one pod, positions still unpadded. */
  function DecodeLegacyFormat(p: Pod): (d: NodeObject.DecodedFormat)
    requires LegacyFormatPod(p)
    ensures |d.positions| <= PositionSlots
  {
    NodeObject.DecodedFormat(ChildId(p.fields["format"]), ChildInt(p.fields["channels"]),
                             ChildInt(p.fields["rate"]), ChildPositions(p.fields["position"]))
  }

  /** The pod whose fields are single-alternative choices of the given values. */
  function ChoiceFormatPod(channels: int32, format: uint32, rate: int32, positions: seq<int32>): Pod {
    Object(map["channels" := Choice([Int(channels)]), "rate" := Choice([Int(rate)]),
               "format" := Choice([Id(format)]), "position" := Choice([IntArray(positions)])])
  }

  /** Choice-wrapped fields decode to the values they wrap. */
  lemma ChoiceFieldsDecode(channels: int32, format: uint32, rate: int32, positions: seq<int32>)
    requires |positions| <= PositionSlots
    ensures LegacyFormatPod(ChoiceFormatPod(channels, format, rate, positions))
    ensures var d := DecodeLegacyFormat(ChoiceFormatPod(channels, format, rate, positions));
            d.channels == channels && d.format == format && d.rate == rate &&
            |d.positions| == |positions| &&
            forall k :: 0 <= k < |positions| ==> d.positions[k] == AsU32(positions[k])
  {
  }

  /**
   * Fields carried as plain values rather than choices have no choice child, so the
   * older variant reads them as 0 and no positions, whatever they hold.
   */
  lemma PlainFieldsDecodeToZero(channels: int32, format: uint32, rate: int32, positions: seq<int32>)
    ensures var p := Object(map["channels" := Int(channels), "rate" := Int(rate), "format" := Id(format),
                                "position" := IntArray(positions)]);
            LegacyFormatPod(p) && DecodeLegacyFormat(p) == NodeObject.DecodedFormat(0, 0, 0, [])
  {
  }

  /** The `AudioFormat` record the older variant stores: positions in 64 slots. */
  datatype LegacyFormat = LegacyFormat(channels: int32, format: uint32, rate: int32, positions: seq<uint32>)

  /** `f` holds the decoded fields, with the positions copied into their slots. */
  predicate Stores(f: LegacyFormat, d: NodeObject.DecodedFormat) {
    f.channels == d.channels && f.format == d.format && f.rate == d.rate &&
    NodeObject.SlotsOf(f.positions, d.positions)
  }

  /** A `channelVolumes` field, when a pod has one, is a float array. */
  predicate ChannelVolumesPod(p: Pod) {
    Field(p, "channelVolumes").Some? ==> Field(p, "channelVolumes").value.FloatArray?
  }

  /** The vector a pod's `channelVolumes` field carries, if it has one. */
  function VolumesOf(p: Pod): Option<seq<real>> {
    if Field(p, "channelVolumes").Some? && Field(p, "channelVolumes").value.FloatArray?
    then Some(Field(p, "channelVolumes").value.floats)
    else None
  }

  /** The number of pods `update_channel_volumes` applies. */
  function VolumeCarriers(pods: seq<Pod>): nat {
    if pods == [] then 0
    else VolumeCarriers(pods[..|pods| - 1]) + if VolumesOf(pods[|pods| - 1]).Some? then 1 else 0
  }

  class LegacyNode {
    const serial: uint32
    const nodeType: NodeType
    var name: string
    var description: string
    var volume: real
    var mute: bool
    var channelVolumes: seq<real>
    /** Property name to the id of the notify handler `*_noevent` setters block. */
    var signalBlockers: map<string, nat>
    var format: Option<LegacyFormat>
    /** Outbound requests, notifications and signals, oldest first. */
    var log: seq<Event>

    /** The object builder of `new`: serial, name and node type, everything else default. */
    constructor (serial: uint32, name: string, mediaClass: Option<string>)
      ensures this.serial == serial && this.name == name && nodeType == NodeTypeFor(mediaClass)
      ensures description == "" && volume == 0.0 && !mute && channelVolumes == []
      ensures signalBlockers == map[] && format == None && log == []
    {
      this.serial := serial;
      this.name := name;
      nodeType := NodeTypeFor(mediaClass);
      description := "";
      volume := 0.0;
      mute := false;
      channelVolumes := [];
      signalBlockers := map[];
      format := None;
      log := [];
    }

    /**
     * The rest of `new`: the description, the channel vector from the "Props" query,
     * the "Format" request and the mixer's current volumes.
     */
    method Initialize(properties: map<string, string>, propsQuery: seq<Pod>, mixer: Option<MixerInfo>,
                      isChannel: string -> bool)
      requires forall k :: 0 <= k < |propsQuery| ==> ChannelVolumesPod(propsQuery[k])
      requires MixerKeysParse(mixer)
      modifies this`description, this`channelVolumes, this`volume, this`mute, this`log
      ensures description == Lookup(properties, "media.name").GetOr("")
      ensures channelVolumes ==
              MixerChannelVolumes(mixer, NodeObject.LastValue(propsQuery, VolumesOf, old(channelVolumes)), isChannel)
      ensures volume == if mixer.Some? then mixer.value.volume.GetOr(old(volume)) else old(volume)
      ensures mute == if mixer.Some? then mixer.value.mute.GetOr(old(mute)) else old(mute)
      ensures log == old(log) + Repeat(Notify("channel-volumes"), VolumeCarriers(propsQuery)) +
                     [EnumRequest("Format")] + MixerLog(mixer, isChannel)
    {
      LabelSetDescription(properties);
      UpdateChannelVolumes(propsQuery);
      UpdateFormat();
      UpdateVolumeUsingMixerApi(mixer, isChannel);
    }

    /** `label_set_name`: the nick, description or name from the global properties. */
    method LabelSetName(globalProperties: map<string, string>)
      modifies this`name
      ensures name == DisplayName(globalProperties)
    {
      name := DisplayName(globalProperties);
    }

    /** `label_set_description`: "media.name", or "" without it. */
    method LabelSetDescription(properties: map<string, string>)
      modifies this`description
      ensures description == Lookup(properties, "media.name").GetOr("")
    {
      description := Lookup(properties, "media.name").GetOr("");
    }

    /** The `channel-volumes` property getter: every entry, in order. */
    method ChannelVolumesProperty() returns (r: seq<GValue>)
      ensures r == AsValues(channelVolumes)
    {
      r := [];
      var k := 0;
      while k < |channelVolumes|
        invariant 0 <= k <= |channelVolumes|
        invariant r == AsValues(channelVolumes[..k])
      {
        assert channelVolumes[..k + 1] == channelVolumes[..k] + [channelVolumes[k]];
        AsValuesSnoc(channelVolumes[..k], channelVolumes[k]);
        r := r + [F32(channelVolumes[k])];
        k := k + 1;
      }
      assert channelVolumes[..k] == channelVolumes;
    }

    /**
     * The `channel-volumes` property setter: each value that converts to `f32` is pushed
     * onto the existing vector, which is not cleared first. GObject's property machinery
     * then notifies.
     */
    method SetChannelVolumesProperty(values: seq<GValue>)
      modifies this`channelVolumes, this`log
      ensures channelVolumes == old(channelVolumes) + Convertible(values)
      ensures values == AsValues(old(channelVolumes)) ==> channelVolumes == old(channelVolumes) + old(channelVolumes)
      ensures log == old(log) + [Notify("channel-volumes")]
    {
      var i := 0;
      while i < |values|
        invariant 0 <= i <= |values|
        invariant channelVolumes == old(channelVolumes) + Convertible(values[..i])
        invariant log == old(log)
      {
        assert values[..i + 1][..i] == values[..i];
        if values[i].F32? {
          channelVolumes := channelVolumes + [values[i].f];
        }
        i := i + 1;
      }
      assert values[..i] == values;
      AsValuesConvertBack(old(channelVolumes));
      log := log + [Notify("channel-volumes")];
    }

    /** `set_volume`: store and notify. */
    method SetVolume(v: real)
      modifies this`volume, this`log
      ensures volume == v && log == old(log) + [Notify("volume")]
    {
      volume := v;
      log := log + [Notify("volume")];
    }

    /** `set_mute`: store and notify. */
    method SetMute(m: bool)
      modifies this`mute, this`log
      ensures mute == m && log == old(log) + [Notify("mute")]
    {
      mute := m;
      log := log + [Notify("mute")];
    }

    /** `set_channel_volume`: entry `index` is written when it exists; the notify happens either way. */
    method SetChannelVolume(index: uint32, v: real)
      modifies this`channelVolumes, this`log
      ensures channelVolumes == WriteAt(old(channelVolumes), index, v)
      ensures log == old(log) + [Notify("channel-volumes")]
    {
      if (index as int) < |channelVolumes| {
        channelVolumes := channelVolumes[index as int := v];
      }
      log := log + [Notify("channel-volumes")];
    }

    /** `set_channel_volumes_vec`: replace the vector and notify. */
    method SetChannelVolumesVec(values: seq<real>)
      modifies this`channelVolumes, this`log
      ensures channelVolumes == values && log == old(log) + [Notify("channel-volumes")]
    {
      channelVolumes := values;
      log := log + [Notify("channel-volumes")];
    }

    /** `set_channel_volumes_vec_noevent`: replace the vector; the notify skips its blocker. */
    method SetChannelVolumesVecNoEvent(values: seq<real>)
      modifies this`channelVolumes, this`log
      ensures channelVolumes == values
      ensures log == old(log) + NoEventTrace(signalBlockers, "channel-volumes")
    {
      channelVolumes := values;
      log := log + NoEventTrace(signalBlockers, "channel-volumes");
    }

    /** `set_property_change_handler_with_blocker`: connect `sigid` and register it, replacing any earlier one. */
    method SetPropertyChangeHandlerWithBlocker(name: string, sigid: nat)
      modifies this`signalBlockers, this`log
      ensures signalBlockers == old(signalBlockers)[name := sigid]
      ensures log == old(log) + [Connect(name, sigid)]
    {
      log := log + [Connect(name, sigid)];
      signalBlockers := signalBlockers[name := sigid];
    }

    /** `set_volume_noevent`: store; the notify skips the "volume" blocker. */
    method SetVolumeNoEvent(v: real)
      modifies this`volume, this`log
      ensures volume == v && log == old(log) + NoEventTrace(signalBlockers, "volume")
    {
      volume := v;
      log := log + NoEventTrace(signalBlockers, "volume");
    }

    /** `set_mute_noevent`: store; the notify skips the "mute" blocker. */
    method SetMuteNoEvent(m: bool)
      modifies this`mute, this`log
      ensures mute == m && log == old(log) + NoEventTrace(signalBlockers, "mute")
    {
      mute := m;
      log := log + NoEventTrace(signalBlockers, "mute");
    }

    /**
     * `update_channel_volumes`: every object pod of the "Props" answer that carries a
     * `channelVolumes` array replaces the vector with it, so the last one wins.
     */
    method UpdateChannelVolumes(pods: seq<Pod>)
      requires forall k :: 0 <= k < |pods| ==> ChannelVolumesPod(pods[k])
      modifies this`channelVolumes, this`log
      ensures channelVolumes == NodeObject.LastValue(pods, VolumesOf, old(channelVolumes))
      ensures log == old(log) + Repeat(Notify("channel-volumes"), VolumeCarriers(pods))
    {
      var i := 0;
      while i < |pods|
        invariant 0 <= i <= |pods|
        invariant channelVolumes == NodeObject.LastValue(pods[..i], VolumesOf, old(channelVolumes))
        invariant log == old(log) + Repeat(Notify("channel-volumes"), VolumeCarriers(pods[..i]))
      {
        NodeObject.LastValueStep(pods, i, VolumesOf, old(channelVolumes));
        assert pods[..i + 1][..i] == pods[..i];
        var vals := VolumesOf(pods[i]);
        if vals.Some? {
          SetChannelVolumesVec(vals.value);
        }
        i := i + 1;
      }
      assert pods[..i] == pods;
    }

    /** `update_format`: issues the asynchronous "Format" enumeration. */
    method UpdateFormat()
      modifies this`log
      ensures log == old(log) + [EnumRequest("Format")]
    {
      log := log + [EnumRequest("Format")];
    }

    /** `set_format`: store the record and emit "format". */
    method SetFormat(f: LegacyFormat)
      modifies this`format, this`log
      ensures format == Some(f) && log == old(log) + [Emit("format")]
    {
      format := Some(f);
      log := log + [Emit("format")];
    }

    /**
     * The "Format" callback: every pod is decoded and stored in turn, with one "format"
     * signal each, so the last pod's format is the one kept. There is no format-0 check.
     */
    method OnFormat(res: EnumResult)
      requires res.Done? && res.pods.Some? ==>
               forall k :: 0 <= k < |res.pods.value| ==> LegacyFormatPod(res.pods.value[k])
      modifies this`format, this`log
      ensures !(res.Done? && res.pods.Some? && |res.pods.value| > 0) ==> format == old(format)
      ensures res.Done? && res.pods.Some? && |res.pods.value| > 0 ==>
              format.Some? && Stores(format.value, DecodeLegacyFormat(res.pods.value[|res.pods.value| - 1]))
      ensures log == old(log) + if res.Done? && res.pods.Some? then Repeat(Emit("format"), |res.pods.value|) else []
    {
      if res.Done? && res.pods.Some? {
        var pods := res.pods.value;
        var i := 0;
        while i < |pods|
          invariant 0 <= i <= |pods|
          invariant i == 0 ==> format == old(format)
          invariant i > 0 ==> format.Some? && Stores(format.value, DecodeLegacyFormat(pods[i - 1]))
          invariant log == old(log) + Repeat(Emit("format"), i)
        {
          var d := DecodeLegacyFormat(pods[i]);
          var a := CopyPositions(d.positions);
          SetFormat(LegacyFormat(d.channels, d.format, d.rate, a[..]));
          assert (old(log) + Repeat(Emit("format"), i)) + [Emit("format")] ==
                 old(log) + (Repeat(Emit("format"), i) + [Emit("format")]);
          i := i + 1;
        }
      }
    }

    /**
     * `update_volume_using_mixerapi` with the dictionary "get-volume" answered: each
     * applicable channel entry is written at its parsed index, then the scalar volume
     * and mute are set when present.
     */
    method UpdateVolumeUsingMixerApi(mixer: Option<MixerInfo>, isChannel: string -> bool)
      requires MixerKeysParse(mixer)
      modifies this`channelVolumes, this`volume, this`mute, this`log
      ensures channelVolumes == MixerChannelVolumes(mixer, old(channelVolumes), isChannel)
      ensures volume == if mixer.Some? then mixer.value.volume.GetOr(old(volume)) else old(volume)
      ensures mute == if mixer.Some? then mixer.value.mute.GetOr(old(mute)) else old(mute)
      ensures log == old(log) + MixerLog(mixer, isChannel)
    {
      if mixer.Some? {
        var info := mixer.value;
        if info.channelVolumes.Some? {
          ApplyMixerChannels(info.channelVolumes.value, isChannel);
        }
        if info.volume.Some? {
          SetVolume(info.volume.value);
        }
        if info.mute.Some? {
          SetMute(info.mute.value);
        }
      }
    }

    /** One entry of the mixer's channel loop: its volume is written at its index when it applies. */
    method ApplyMixerChannel(c: MixerChannel, isChannel: string -> bool)
      requires ParseU32(c.key).Some?
      modifies this`channelVolumes, this`log
      ensures channelVolumes == if Applies(c, isChannel)
                                then WriteAt(old(channelVolumes), ChannelIndex(c), ChannelVolume(c))
                                else old(channelVolumes)
      ensures log == old(log) + if Applies(c, isChannel) then [Notify("channel-volumes")] else []
    {
      var index := ParseU32(c.key).value;
      if Applies(c, isChannel) {
        SetChannelVolume(index, ChannelVolume(c));
      }
    }

    /** The channel loop of `update_volume_using_mixerapi`. */
    method ApplyMixerChannels(chans: seq<MixerChannel>, isChannel: string -> bool)
      requires KeysParse(chans)
      modifies this`channelVolumes, this`log
      ensures channelVolumes == MixerVolumes(old(channelVolumes), chans, isChannel)
      ensures log == old(log) + Repeat(Notify("channel-volumes"), AppliedCount(chans, isChannel))
    {
      ghost var start, log0 := channelVolumes, log;
      var i := 0;
      while i < |chans|
        invariant 0 <= i <= |chans|
        invariant KeysParse(chans[..i])
        invariant channelVolumes == MixerVolumes(start, chans[..i], isChannel)
        invariant log == log0 + Repeat(Notify("channel-volumes"), AppliedCount(chans[..i], isChannel))
      {
        MixerStep(start, chans, i, isChannel);
        ghost var sent := Repeat(Notify("channel-volumes"), AppliedCount(chans[..i], isChannel));
        ApplyMixerChannel(chans[i], isChannel);
        assert (log0 + sent) + [Notify("channel-volumes")] == log0 + (sent + [Notify("channel-volumes")]);
        i := i + 1;
      }
      assert chans[..i] == chans;
    }

    /** The mixer's "changed" handler: refresh only when the event is about this node. */
    method OnMixerChanged(id: uint32, mixer: Option<MixerInfo>, isChannel: string -> bool)
      requires id == serial ==> MixerKeysParse(mixer)
      modifies this`channelVolumes, this`volume, this`mute, this`log
      ensures id != serial ==>
              channelVolumes == old(channelVolumes) && volume == old(volume) && mute == old(mute) && log == old(log)
      ensures id == serial ==>
              channelVolumes == MixerChannelVolumes(mixer, old(channelVolumes), isChannel) &&
              volume == (if mixer.Some? then mixer.value.volume.GetOr(old(volume)) else old(volume)) &&
              mute == (if mixer.Some? then mixer.value.mute.GetOr(old(mute)) else old(mute)) &&
              log == old(log) + MixerLog(mixer, isChannel)
    {
      if id == serial {
        UpdateVolumeUsingMixerApi(mixer, isChannel);
      }
    }
  }
}
