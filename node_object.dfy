/**
 * The audio node object (src/backend/pwnodeobject.rs): volume, mute, main and monitor
 * volume, the per-channel volume vector with its channel sub-objects, and the audio
 * format, kept in step with the audio graph. The `block` flag is the echo guard: a
 * sending setter stores its value always, but pushes it out only while `block` is off.
 */
module NodeObject {
  import opened Wrappers
  import opened Pods
  import opened Events
  import DeviceObject

  datatype NodeType = Undefined | StreamInput | StreamOutput | Sink | Source

  /** `get_node_type_for_node`: the node type named by the `media.class` property. */
  function NodeTypeFor(mediaClass: Option<string>): (t: NodeType)
    ensures t == StreamOutput <==> mediaClass == Some("Stream/Output/Audio")
    ensures t == StreamInput <==> mediaClass == Some("Stream/Input/Audio")
    ensures t == Source <==> mediaClass == Some("Audio/Source") || mediaClass == Some("Audio/Source/Virtual")
    ensures t == Sink <==> mediaClass == Some("Audio/Sink")
  {
    if mediaClass == Some("Stream/Output/Audio") then StreamOutput
    else if mediaClass == Some("Stream/Input/Audio") then StreamInput
    else if mediaClass == Some("Audio/Source") then Source
    else if mediaClass == Some("Audio/Source/Virtual") then Source
    else if mediaClass == Some("Audio/Sink") then Sink
    else Undefined
  }

  /** The name properties `label_set_name` tries, in the order it tries them. */
  function NameKeys(t: NodeType): seq<string> {
    if t == Sink || t == Source then ["node.description", "node.nick", "node.name"]
    else ["node.nick", "node.description", "node.name"]
  }

  /** The display name: the first name property present, or "" when there is none. */
  function DisplayName(t: NodeType, globalProperties: map<string, string>): string {
    FirstPresent(globalProperties, NameKeys(t)).GetOr("")
  }

  /** Devices prefer their description; streams prefer their nick. */
  lemma DisplayNamePriority(t: NodeType, g: map<string, string>)
    ensures (t == Sink || t == Source) && "node.description" in g ==> DisplayName(t, g) == g["node.description"]
    ensures !(t == Sink || t == Source) && "node.nick" in g ==> DisplayName(t, g) == g["node.nick"]
    ensures "node.description" !in g && "node.nick" !in g ==> DisplayName(t, g) == Lookup(g, "node.name").GetOr("")
  {
    var keys := NameKeys(t);
    FirstPresentIsFirst(g, keys);
    if "node.description" !in g && "node.nick" !in g {
      assert keys[0] !in g && keys[1] !in g && keys[2] == "node.name";
    }
  }

  /** The icon properties a stream tries, in order; each present one overwrites the last. */
  const StreamIconKeys: seq<string> := ["media.icon-name", "window.icon-name", "application.icon-name"]

  /** The icon `update_icon_name` ends with. */
  function IconNameFor(t: NodeType, properties: map<string, string>): string {
    if t == StreamInput || t == StreamOutput then
      LastPresent(properties, StreamIconKeys).GetOr("library-music-symbolic")
    else if t == Source || t == Sink then "soundcard-symbolic"
    else "library-music-symbolic"
  }

  /** A volume field that `get_pod_maybe_choice(..).int()` reads without panicking, if present. */
  predicate IntFieldOk(p: Pod, key: string)
    requires p.Object?
  {
    key in p.fields ==> Unwrappable(p.fields[key]) && MaybeChoice(p.fields[key]).Int?
  }

  /** A present int field, or 0 when the field is missing. */
  function IntFieldOr0(p: Pod, key: string): int32
    requires p.Object? && IntFieldOk(p, key)
  {
    if key in p.fields then MaybeChoice(p.fields[key]).i else 0
  }

  /** The `format` field is present and unwraps to an id. */
  predicate FormatIdOk(p: Pod)
    requires p.Object?
  {
    "format" in p.fields && Unwrappable(p.fields["format"]) && MaybeChoice(p.fields["format"]).Id?
  }

  function FormatIdOf(p: Pod): uint32
    requires p.Object? && FormatIdOk(p)
  {
    MaybeChoice(p.fields["format"]).id
  }

  /**
   * An object pod as the format callback reads it: a format id, and, unless that id is 0,
   * int channels and rate when present and a position array of at most 64 entries.
   */
  predicate FormatPod(p: Pod)
    requires p.Object?
  {
    FormatIdOk(p) &&
    (FormatIdOf(p) != 0 ==>
       IntFieldOk(p, "channels") && IntFieldOk(p, "rate") &&
       "position" in p.fields && Unwrappable(p.fields["position"]) &&
       MaybeChoice(p.fields["position"]).IntArray? &&
       |MaybeChoice(p.fields["position"]).ints| <= PositionSlots)
  }

  /** The pods the callback reaches, up to and including the first with format id 0, read cleanly. */
  predicate FormatPods(pods: seq<Pod>) {
    pods == [] ||
    if !pods[0].Object? then FormatPods(pods[1..])
    else FormatPod(pods[0]) && (FormatIdOf(pods[0]) == 0 || FormatPods(pods[1..]))
  }

  /** The values one format object pod decodes to. */
  datatype DecodedFormat = DecodedFormat(format: uint32, channels: int32, rate: int32, positions: seq<uint32>)

  function DecodeFormat(p: Pod): (d: DecodedFormat)
    requires p.Object? && FormatPod(p) && FormatIdOf(p) != 0
    ensures d.format == FormatIdOf(p) && d.format != 0
    ensures d.channels == if "channels" in p.fields then MaybeChoice(p.fields["channels"]).i else 0
    ensures d.rate == if "rate" in p.fields then MaybeChoice(p.fields["rate"]).i else 0
    ensures |d.positions| == |MaybeChoice(p.fields["position"]).ints| <= PositionSlots
  {
    var ints := MaybeChoice(p.fields["position"]).ints;
    DecodedFormat(FormatIdOf(p), IntFieldOr0(p, "channels"), IntFieldOr0(p, "rate"),
                  seq(|ints|, k requires 0 <= k < |ints| => AsU32(ints[k])))
  }

  /** Each decoded channel position is the 32-bit reinterpretation of the pod's integer. */
  lemma DecodeFormatPositions(p: Pod, k: nat)
    requires p.Object? && FormatPod(p) && FormatIdOf(p) != 0
    requires k < |MaybeChoice(p.fields["position"]).ints|
    ensures DecodeFormat(p).positions[k] == AsU32(MaybeChoice(p.fields["position"]).ints[k])
  {
  }

  /** The plain-valued format object with these fields. */
  function PlainFormatPod(format: uint32, channels: int32, rate: int32, positions: seq<int32>): Pod {
    Object(map["format" := Id(format), "channels" := Int(channels), "rate" := Int(rate),
               "position" := IntArray(positions)])
  }

  /** The same fields, each wrapped in a choice whose first alternative is the value. */
  function WrappedFormatPod(format: uint32, channels: int32, rate: int32, positions: seq<int32>,
                           others: seq<Value>): Pod {
    Object(map["format" := Choice([Id(format)] + others), "channels" := Choice([Int(channels)] + others),
               "rate" := Choice([Int(rate)] + others), "position" := Choice([IntArray(positions)] + others)])
  }

  /**
   * Plain and choice-wrapped fields decode alike, to the values they carry: the
   * backend unwraps a choice to its child and reads any other value directly.
   */
  lemma PlainAndChoiceDecodeAlike(format: uint32, channels: int32, rate: int32, positions: seq<int32>,
                                  others: seq<Value>)
    requires format != 0 && |positions| <= PositionSlots
    ensures var plain, choice := PlainFormatPod(format, channels, rate, positions),
                                 WrappedFormatPod(format, channels, rate, positions, others);
            FormatPod(plain) && FormatPod(choice) && DecodeFormat(plain) == DecodeFormat(choice) &&
            DecodeFormat(plain).format == format && DecodeFormat(plain).channels == channels &&
            DecodeFormat(plain).rate == rate && |DecodeFormat(plain).positions| == |positions|
  {
    var plain, choice := PlainFormatPod(format, channels, rate, positions),
                         WrappedFormatPod(format, channels, rate, positions, others);
    assert MaybeChoice(choice.fields["position"]) == IntArray(positions);
    assert DecodeFormat(plain).positions == DecodeFormat(choice).positions;
  }

  /**
   * The formats the callback applies, in order: every object pod up to the first whose
   * format id is 0, which ends the whole callback.
   */
  function AppliedFormats(pods: seq<Pod>): seq<DecodedFormat>
    requires FormatPods(pods)
  {
    if pods == [] then []
    else if !pods[0].Object? then AppliedFormats(pods[1..])
    else if FormatIdOf(pods[0]) == 0 then []
    else [DecodeFormat(pods[0])] + AppliedFormats(pods[1..])
  }

  /**
   * One step of the format callback: with `done` applied and the pods from `i` still to
   * come, pod `i` is skipped, ends the callback, or extends `done`.
   */
  lemma FormatStep(pods: seq<Pod>, i: nat, done: seq<DecodedFormat>)
    requires i < |pods| && FormatPods(pods[i..])
    requires FormatPods(pods) && AppliedFormats(pods) == done + AppliedFormats(pods[i..])
    ensures !pods[i].Object? ==>
              FormatPods(pods[i + 1..]) && AppliedFormats(pods) == done + AppliedFormats(pods[i + 1..])
    ensures pods[i].Object? ==> FormatPod(pods[i])
    ensures pods[i].Object? && FormatIdOf(pods[i]) == 0 ==> AppliedFormats(pods) == done
    ensures pods[i].Object? && FormatIdOf(pods[i]) != 0 ==>
              FormatPods(pods[i + 1..]) &&
              AppliedFormats(pods) == (done + [DecodeFormat(pods[i])]) + AppliedFormats(pods[i + 1..])
  {
    assert pods[i..][0] == pods[i] && pods[i..][1..] == pods[i + 1..];
    if pods[i].Object? && FormatIdOf(pods[i]) != 0 {
      var rest := AppliedFormats(pods[i + 1..]);
      assert done + ([DecodeFormat(pods[i])] + rest) == (done + [DecodeFormat(pods[i])]) + rest;
    }
  }

  /** Format id 0 aborts the callback: whatever follows such a pod is never looked at. */
  lemma {:induction false} FormatZeroEndsCallback(before: seq<Pod>, zero: Pod, rest: seq<Pod>)
    requires FormatPods(before)
    requires zero.Object? && FormatIdOk(zero) && FormatIdOf(zero) == 0
    ensures FormatPods(before + [zero] + rest)
    ensures AppliedFormats(before + [zero] + rest) == AppliedFormats(before)
  {
    if before != [] {
      assert (before + [zero] + rest)[1..] == before[1..] + [zero] + rest;
      if before[0].Object? && FormatIdOf(before[0]) == 0 {
      } else {
        FormatZeroEndsCallback(before[1..], zero, rest);
      }
    } else {
      assert (before + [zero] + rest)[0] == zero;
    }
  }

  /** The format string "{channels}ch {rate}Hz {name}". */
  function FormatString(d: DecodedFormat, formatName: uint32 -> string): string {
    IntToString(d.channels as int) + "ch " + IntToString(d.rate as int) + "Hz " + formatName(d.format)
  }

  /** The stored audio format: the 64 channel-position slots. */
  datatype AudioFormat = AudioFormat(positions: seq<uint32>)

  /** `slots` is the 64-slot copy of `vec`: its entries first, zeros after. */
  predicate SlotsOf(slots: seq<uint32>, vec: seq<uint32>) {
    |slots| == PositionSlots && |vec| <= PositionSlots &&
    (forall k :: 0 <= k < |vec| ==> slots[k] == vec[k]) &&
    (forall k :: |vec| <= k < PositionSlots ==> slots[k] == 0)
  }

  /** A channel sub-object: its position in the volume vector and its volume. */
  datatype Channel = Channel(index: nat, volume: real)

  /** The channel list mirrors the volume vector: one object per entry, object k at index k. */
  predicate Mirrors(channels: seq<Channel>, volumes: seq<real>) {
    |channels| == |volumes| && forall k :: 0 <= k < |channels| ==> channels[k] == Channel(k, volumes[k])
  }

  /** The channel list after `update_channel_objects`: object k takes `volumes[k]` where both exist. */
  function Refreshed(channels: seq<Channel>, volumes: seq<real>): seq<Channel> {
    seq(|channels|, k requires 0 <= k < |channels| =>
          if k < |volumes| then channels[k].(volume := volumes[k]) else channels[k])
  }

  /** A rebuilt channel list stays a mirror when the vector is refreshed in place. */
  lemma RefreshKeepsMirror(channels: seq<Channel>, old_volumes: seq<real>, volumes: seq<real>)
    requires Mirrors(channels, old_volumes) && |volumes| == |old_volumes|
    ensures Mirrors(Refreshed(channels, volumes), volumes)
  {
  }

  /** The largest of a non-empty sequence of volumes. */
  function MaxOf(fs: seq<real>): (m: real)
    requires |fs| > 0
    ensures m in fs
    ensures forall k :: 0 <= k < |fs| ==> fs[k] <= m
  {
    if |fs| == 1 then fs[0]
    else
      var m := MaxOf(fs[..|fs| - 1]);
      assert forall k :: 0 <= k < |fs| - 1 ==> fs[..|fs| - 1][k] == fs[k];
      if fs[|fs| - 1] > m then fs[|fs| - 1] else m
  }

  /** The main volume a Props pod carries: its float `volume` field. */
  function MainVolumeOf(p: Pod): Option<real> {
    match Field(p, "volume")
    case Some(Float(f)) => Some(f)
    case _ => None
  }

  /** The monitor volume a Props pod carries: the largest `monitorVolumes` entry, 0 if empty. */
  function MonitorVolumeOf(p: Pod): (r: Option<real>)
    ensures r.Some? <==> Field(p, "monitorVolumes").Some? && Field(p, "monitorVolumes").value.FloatArray?
    ensures r.Some? ==> var fs := Field(p, "monitorVolumes").value.floats;
                        (fs == [] ==> r.value == 0.0) &&
                        (fs != [] ==> r.value in fs && forall k :: 0 <= k < |fs| ==> fs[k] <= r.value)
  {
    match Field(p, "monitorVolumes")
    case Some(FloatArray(fs)) => Some(if fs == [] then 0.0 else MaxOf(fs))
    case _ => None
  }

  /** The value a setter ends with after one call per pod that carries one, oldest first. */
  function LastValue<T>(pods: seq<Pod>, get: Pod -> Option<T>, current: T): T {
    if pods == [] then current
    else if get(pods[|pods| - 1]).Some? then get(pods[|pods| - 1]).value
    else LastValue(pods[..|pods| - 1], get, current)
  }

  /** With no pod carrying a value, the value is kept. */
  lemma {:induction false} LastValueKept<T>(pods: seq<Pod>, get: Pod -> Option<T>, current: T)
    requires forall j :: 0 <= j < |pods| ==> get(pods[j]).None?
    ensures LastValue(pods, get, current) == current
  {
    if pods != [] {
      var init := pods[..|pods| - 1];
      assert forall j :: 0 <= j < |init| ==> init[j] == pods[j];
      LastValueKept(init, get, current);
    }
  }

  /** The last pod that carries a value decides it. */
  lemma {:induction false} LastValueIsLastCarried<T>(pods: seq<Pod>, get: Pod -> Option<T>, current: T, j: nat)
    requires j < |pods| && get(pods[j]).Some?
    requires forall l :: j < l < |pods| ==> get(pods[l]).None?
    ensures LastValue(pods, get, current) == get(pods[j]).value
  {
    if j < |pods| - 1 {
      var init := pods[..|pods| - 1];
      assert forall l :: 0 <= l < |init| ==> init[l] == pods[l];
      LastValueIsLastCarried(init, get, current, j);
    }
  }

  /** Replaying the same Props answer leaves the value where the first application put it. */
  lemma {:induction false} PropsReplayIdempotent<T>(pods: seq<Pod>, get: Pod -> Option<T>, current: T)
    ensures LastValue(pods, get, LastValue(pods, get, current)) == LastValue(pods, get, current)
  {
    if pods != [] && get(pods[|pods| - 1]).None? {
      PropsReplayIdempotent(pods[..|pods| - 1], get, current);
    }
  }

  /** The write `send_mainvolume` issues. */
  function MainVolumeWrite(v: real): Event {
    SetParam("Props", [Prop("volume", Float(v))])
  }

  /** The payload `send_monitorvolume` builds: one copy of the volume per channel. */
  function MonitorVolumesPayload(channelCount: nat, v: real): (p: Payload)
    ensures |p| == 1 && p[0].key == "monitorVolumes" && p[0].value.FloatArray?
    ensures |p[0].value.floats| == channelCount
    ensures forall k :: 0 <= k < channelCount ==> p[0].value.floats[k] == v
  {
    [Prop("monitorVolumes", FloatArray(seq(channelCount, _ => v)))]
  }

  function MonitorVolumeWrite(channelCount: nat, v: real): Event {
    SetParam("Props", MonitorVolumesPayload(channelCount, v))
  }

  /** The writes one Props pod causes when the guard is off: main volume, then monitor volume. */
  function PodPropsWrites(p: Pod, channelCount: nat): seq<Event> {
    (if MainVolumeOf(p).Some? then [MainVolumeWrite(MainVolumeOf(p).value)] else []) +
    (if MonitorVolumeOf(p).Some? then [MonitorVolumeWrite(channelCount, MonitorVolumeOf(p).value)] else [])
  }

  /** The writes `update_props` causes with the guard off, pod by pod. */
  function PropsWrites(pods: seq<Pod>, channelCount: nat): seq<Event> {
    if pods == [] then []
    else PropsWrites(pods[..|pods| - 1], channelCount) + PodPropsWrites(pods[|pods| - 1], channelCount)
  }

  /** One more pod: the value it carries, if any, replaces the one before. */
  lemma LastValueStep<T>(pods: seq<Pod>, i: nat, get: Pod -> Option<T>, current: T)
    requires i < |pods|
    ensures LastValue(pods[..i + 1], get, current) == get(pods[i]).GetOr(LastValue(pods[..i], get, current))
  {
    assert pods[..i + 1][..i] == pods[..i];
  }

  /** One more pod: its writes follow the ones before. */
  lemma PropsWritesStep(pods: seq<Pod>, i: nat, channelCount: nat)
    requires i < |pods|
    ensures PropsWrites(pods[..i + 1], channelCount) ==
            PropsWrites(pods[..i], channelCount) + PodPropsWrites(pods[i], channelCount)
  {
    assert pods[..i + 1][..i] == pods[..i];
  }

  /** A Props answer with no volume fields causes no write, guard or not. */
  lemma {:induction false} PropsWritesOnlyFromVolumes(pods: seq<Pod>, channelCount: nat)
    requires forall j :: 0 <= j < |pods| ==> MainVolumeOf(pods[j]).None? && MonitorVolumeOf(pods[j]).None?
    ensures PropsWrites(pods, channelCount) == []
  {
    if pods != [] {
      PropsWritesOnlyFromVolumes(pods[..|pods| - 1], channelCount);
    }
  }

  /** The metadata store: entries keyed by subject id and key name, each a type and a value. */
  datatype MetadataEntry = MetadataEntry(typ: string, value: string)
  type Metadata = map<(uint32, string), MetadataEntry>

  /** One `metadata.set(subject, key, type, value)` call. */
  datatype MetadataWrite = MetadataWrite(subject: uint32, key: string, typ: string, value: string)

  /** The store after a sequence of writes, applied in order. */
  function ApplyWrites(m: Metadata, ws: seq<MetadataWrite>): Metadata {
    if ws == [] then m
    else
      var w := ws[|ws| - 1];
      ApplyWrites(m, ws[..|ws| - 1])[(w.subject, w.key) := MetadataEntry(w.typ, w.value)]
  }

  /**
   * `set_default_target`: "target.node" gets the target's bound id, then "target.object"
   * its serial, both typed "Spa:Id"; without a metadata object nothing is written.
   */
  function SetDefaultTargetWrites(hasMetadata: bool, self: uint32, targetId: uint32, targetSerial: uint32)
    : (ws: seq<MetadataWrite>)
    ensures !hasMetadata <==> ws == []
    ensures hasMetadata ==>
              |ws| == 2 && ws[0].subject == self && ws[1].subject == self &&
              ws[0].key == "target.node" && ws[1].key == "target.object" &&
              ws[0].typ == "Spa:Id" && ws[1].typ == "Spa:Id" &&
              AllDigits(ws[0].value) && DigitsValue(ws[0].value) == targetId as int &&
              AllDigits(ws[1].value) && DigitsValue(ws[1].value) == targetSerial as int
  {
    if !hasMetadata then []
    else
      NatToStringValue(targetId as nat);
      NatToStringValue(targetSerial as nat);
      [MetadataWrite(self, "target.node", "Spa:Id", NatToString(targetId as nat)),
          MetadataWrite(self, "target.object", "Spa:Id", NatToString(targetSerial as nat))]
  }

  /** `unset_default_target`: both keys are set to "-1". */
  function UnsetDefaultTargetWrites(hasMetadata: bool, self: uint32): (ws: seq<MetadataWrite>)
    ensures !hasMetadata <==> ws == []
    ensures hasMetadata ==>
              |ws| == 2 && ws[0].key == "target.node" && ws[1].key == "target.object" &&
              forall k :: 0 <= k < 2 ==> ws[k].subject == self && ws[k].typ == "Spa:Id" && ws[k].value == "-1"
  {
    if !hasMetadata then []
    else [MetadataWrite(self, "target.node", "Spa:Id", "-1"),
          MetadataWrite(self, "target.object", "Spa:Id", "-1")]
  }

  /**
   * One step of the default-target search: the key's value, unless it is missing or "-1",
   * looked up among the nodes; the bound id of the node found, if any.
   */
  function ResolveKey(m: Metadata, self: uint32, key: string, lookup: string -> Option<uint32>): Option<uint32> {
    if (self, key) in m && m[(self, key)].value != "-1" then lookup(m[(self, key)].value) else None
  }

  /**
   * `default_target`: "target.object" resolved by serial first, then "target.node" by
   * object id. A key that is missing, "-1", or names no node is skipped; a node that is
   * found is returned as the registry knows it (`nodeById`), even when that is `None`.
   */
  function DefaultTarget<N>(metadata: Option<Metadata>, self: uint32,
                            bySerial: string -> Option<uint32>, byObjectId: string -> Option<uint32>,
                            nodeById: uint32 -> Option<N>): (r: Option<N>)
    ensures metadata.None? ==> r.None?
    ensures metadata.Some? ==>
              var byObject := ResolveKey(metadata.value, self, "target.object", bySerial);
              var byNode := ResolveKey(metadata.value, self, "target.node", byObjectId);
              r == if byObject.Some? then nodeById(byObject.value)
                   else if byNode.Some? then nodeById(byNode.value)
                   else None
  {
    if metadata.None? then None
    else
      var m := metadata.value;
      if (self, "target.object") in m && m[(self, "target.object")].value != "-1" &&
         bySerial(m[(self, "target.object")].value).Some? then
        nodeById(bySerial(m[(self, "target.object")].value).value)
      else if (self, "target.node") in m && m[(self, "target.node")].value != "-1" &&
              byObjectId(m[(self, "target.node")].value).Some? then
        nodeById(byObjectId(m[(self, "target.node")].value).value)
      else None
  }

  /** A "-1" under "target.object" does not end the search: "target.node" is still tried. */
  lemma MinusOneFallsThrough<N>(m: Metadata, self: uint32, bySerial: string -> Option<uint32>,
                                byObjectId: string -> Option<uint32>, nodeById: uint32 -> Option<N>)
    requires (self, "target.object") in m && m[(self, "target.object")].value == "-1"
    ensures DefaultTarget(Some(m), self, bySerial, byObjectId, nodeById) ==
            match ResolveKey(m, self, "target.node", byObjectId)
            case Some(id) => nodeById(id)
            case None => None
  {
  }

  /** After `unset_default_target` there is no default target. */
  lemma UnsetClearsDefaultTarget<N>(m: Metadata, self: uint32, bySerial: string -> Option<uint32>,
                                    byObjectId: string -> Option<uint32>, nodeById: uint32 -> Option<N>)
    ensures DefaultTarget(Some(ApplyWrites(m, UnsetDefaultTargetWrites(true, self))), self,
                          bySerial, byObjectId, nodeById) == None
  {
    var ws := UnsetDefaultTargetWrites(true, self);
    assert ws[..1][..0] == [];
    assert ApplyWrites(m, ws[..1]) == m[(self, "target.node") := MetadataEntry("Spa:Id", "-1")];
    var m' := ApplyWrites(m, ws);
    assert m'[(self, "target.object")].value == "-1";
    assert "target.node" != "target.object";
    assert m'[(self, "target.node")].value == "-1";
  }

  /**
   * After `set_default_target`, the search finds the target by its serial when the
   * registry knows that serial, and by its bound id otherwise.
   */
  lemma SetDefaultTargetResolves<N>(m: Metadata, self: uint32, targetId: uint32, targetSerial: uint32,
                                    bySerial: string -> Option<uint32>, byObjectId: string -> Option<uint32>,
                                    nodeById: uint32 -> Option<N>)
    ensures var m' := ApplyWrites(m, SetDefaultTargetWrites(true, self, targetId, targetSerial));
            var serial, id := NatToString(targetSerial as nat), NatToString(targetId as nat);
            DefaultTarget(Some(m'), self, bySerial, byObjectId, nodeById) ==
              if bySerial(serial).Some? then nodeById(bySerial(serial).value)
              else if byObjectId(id).Some? then nodeById(byObjectId(id).value)
              else None
  {
    var ws := SetDefaultTargetWrites(true, self, targetId, targetSerial);
    var serial, id := NatToString(targetSerial as nat), NatToString(targetId as nat);
    assert ws[..1][..0] == [];
    assert ApplyWrites(m, ws[..1]) == m[(self, "target.node") := MetadataEntry("Spa:Id", id)];
    var m' := ApplyWrites(m, ws);
    assert serial != "-1" by { assert IsDigit(serial[0]); }
    assert id != "-1" by { assert IsDigit(id[0]); }
    assert "target.node" != "target.object";
    assert m'[(self, "target.object")].value == serial;
    assert m'[(self, "target.node")].value == id;
  }

  /**
   * The device writes `set_route` causes: none unless the node has a device index and a
   * device; otherwise the route first, then a switch to the route's first profile when
   * the route names profiles and the device's current profile is not among them.
   */
  function RouteRequests(routeIndex: uint32, routeProfiles: seq<uint32>, cardProfileDevice: Option<uint32>,
                         deviceProfile: Option<uint32>): (r: seq<Event>)
    ensures r == [] <==> cardProfileDevice.None? || deviceProfile.None?
    ensures r != [] ==> r[0] == SetParam("Route", DeviceObject.RoutePayload(routeIndex, AsI32(cardProfileDevice.value)))
    ensures |r| == 2 <==> r != [] && |routeProfiles| > 0 && deviceProfile.value !in routeProfiles
    ensures |r| == 2 ==> r[1] == SetParam("Profile", DeviceObject.ProfilePayload(AsI32(routeProfiles[0])))
    ensures |r| <= 2
  {
    if cardProfileDevice.None? || deviceProfile.None? then []
    else
      [SetParam("Route", DeviceObject.RoutePayload(routeIndex, AsI32(cardProfileDevice.value)))] +
      if |routeProfiles| > 0 && deviceProfile.value !in routeProfiles
      then [SetParam("Profile", DeviceObject.ProfilePayload(AsI32(routeProfiles[0])))]
      else []
  }

  /**
   * A node's format fields show format `d`: the format string, the 64 position slots,
   * and channel objects rebuilt from the volume vector.
   */
  predicate ShowsFormat(d: DecodedFormat, formatName: uint32 -> string, formatStr: string,
                        format: Option<AudioFormat>, channels: seq<Channel>, channelVolumes: seq<real>)
  {
    formatStr == FormatString(d, formatName) &&
    format.Some? && SlotsOf(format.value.positions, d.positions) &&
    Mirrors(channels, channelVolumes)
  }

  /** The format fields and log read as a value. */
  datatype FormatState = FormatState(formatStr: string, format: Option<AudioFormat>, channels: seq<Channel>,
                                     log: seq<Event>)

  /**
   * The state after the format callback has applied `applied` starting from `start`:
   * untouched when that is empty, otherwise showing its last entry with one "format"
   * signal per entry.
   */
  predicate AfterFormats(applied: seq<DecodedFormat>, formatName: uint32 -> string, start: FormatState,
                         now: FormatState, channelVolumes: seq<real>)
  {
    if applied == [] then now == start
    else
      ShowsFormat(applied[|applied| - 1], formatName, now.formatStr, now.format, now.channels, channelVolumes) &&
      now.log == start.log + Repeat(Emit("format"), |applied|)
  }

  /** Applying one more format extends the callback's state by one entry. */
  lemma AfterFormatsStep(applied: seq<DecodedFormat>, d: DecodedFormat, formatName: uint32 -> string,
                         start: FormatState, before: FormatState, now: FormatState, channelVolumes: seq<real>)
    requires AfterFormats(applied, formatName, start, before, channelVolumes)
    requires ShowsFormat(d, formatName, now.formatStr, now.format, now.channels, channelVolumes)
    requires now.log == before.log + [Emit("format")]
    ensures AfterFormats(applied + [d], formatName, start, now, channelVolumes)
  {
    if applied == [] {
      assert Repeat(Emit("format"), 0) == [];
    }
    assert Repeat(Emit("format"), |applied| + 1) == Repeat(Emit("format"), |applied|) + [Emit("format")];
    var applied' := applied + [d];
    assert applied'[|applied'| - 1] == d;
  }

  /** What the node reads from its graph object: bound id and the two property sets. */
  datatype NodeInfo = NodeInfo(boundId: uint32, properties: map<string, string>,
                               globalProperties: map<string, string>)

  class Node {
    const boundId: uint32
    const nodeType: NodeType
    const isVirtual: bool
    var name: string
    var description: string
    var formatStr: string
    var iconName: string
    var volume: real
    var mute: bool
    var mainVolume: real
    var monitorVolume: real
    var channelVolumes: seq<real>
    var channels: seq<Channel>
    var format: Option<AudioFormat>
    /** The echo guard. */
    var block: bool
    var device: DeviceObject.Device?
    /** Outbound calls and signals, oldest first. */
    var log: seq<Event>

    /**
     * Object creation: the node type and the virtual flag are derived once from the
     * `media.class` property and every other property starts at its default.
     */
    constructor (info: NodeInfo)
      ensures boundId == info.boundId
      ensures nodeType == NodeTypeFor(Lookup(info.properties, "media.class"))
      ensures isVirtual <==> Lookup(info.properties, "media.class") == Some("Audio/Source/Virtual")
      ensures name == "" && description == "" && formatStr == "" && iconName == ""
      ensures volume == 0.0 && !mute && mainVolume == 0.0 && monitorVolume == 0.0
      ensures channelVolumes == [] && channels == [] && format == None
      ensures !block && device == null && log == []
    {
      var mediaClass := Lookup(info.properties, "media.class");
      boundId := info.boundId;
      nodeType := NodeTypeFor(mediaClass);
      isVirtual := mediaClass == Some("Audio/Source/Virtual");
      name, description, formatStr, iconName := "", "", "", "";
      volume, mute, mainVolume, monitorVolume := 0.0, false, 0.0, 0.0;
      channelVolumes, channels, format := [], [], None;
      block, device, log := false, null, [];
    }

    /**
     * `constructed`: labels the node, reads Props (on a fresh node the guard is off, so
     * the main and monitor volume sets are sent back), requests the format, names the
     * node and picks its icon.
     */
    method Constructed(info: NodeInfo, propsQuery: seq<Pod>)
      modifies this`description, this`name, this`iconName, this`mainVolume, this`monitorVolume, this`log
      ensures description == Lookup(info.properties, "media.name").GetOr("")
      ensures name == DisplayName(nodeType, info.globalProperties)
      ensures iconName == IconNameFor(nodeType, info.properties)
      ensures mainVolume == LastValue(propsQuery, MainVolumeOf, old(mainVolume))
      ensures monitorVolume == LastValue(propsQuery, MonitorVolumeOf, old(monitorVolume))
      ensures log == old(log) + (if block then [] else PropsWrites(propsQuery, |channelVolumes|)) +
                    [EnumRequest("Format")]
    {
      LabelSetDescription(info.properties);
      UpdateProps(propsQuery);
      UpdateFormat();
      LabelSetName(info.globalProperties);
      UpdateIconName(info.properties);
    }

    /** `label_set_name`. */
    method LabelSetName(globalProperties: map<string, string>)
      modifies this`name
      ensures name == DisplayName(nodeType, globalProperties)
    {
      name := DisplayName(nodeType, globalProperties);
    }

    /** `label_set_description`: the `media.name` property, or "". */
    method LabelSetDescription(properties: map<string, string>)
      modifies this`description
      ensures description == Lookup(properties, "media.name").GetOr("")
    {
      description := Lookup(properties, "media.name").GetOr("");
    }

    /**
     * `update_icon_name`: streams start from "library-music-symbolic" and take each icon
     * property that is present, in order; devices show "soundcard-symbolic".
     */
    method UpdateIconName(properties: map<string, string>)
      modifies this`iconName
      ensures iconName == IconNameFor(nodeType, properties)
    {
      if nodeType == StreamInput || nodeType == StreamOutput {
        iconName := "library-music-symbolic";
        var i := 0;
        while i < |StreamIconKeys|
          invariant 0 <= i <= |StreamIconKeys|
          invariant iconName == LastPresent(properties, StreamIconKeys[..i]).GetOr("library-music-symbolic")
        {
          assert StreamIconKeys[..i + 1][..i] == StreamIconKeys[..i];
          if StreamIconKeys[i] in properties {
            iconName := properties[StreamIconKeys[i]];
          }
          i := i + 1;
        }
        assert StreamIconKeys[..i] == StreamIconKeys;
      } else if nodeType == Source || nodeType == Sink {
        iconName := "soundcard-symbolic";
      } else {
        iconName := "library-music-symbolic";
      }
    }

    /** The "volume" setter: stores, and asks the mixer to send unless guarded. */
    method SetVolume(v: real)
      modifies this`volume, this`log
      ensures volume == v
      ensures log == old(log) + if block then [] else [MixerSend(Volume)]
    {
      volume := v;
      if !block {
        log := log + [MixerSend(Volume)];
      }
    }

    /** The "mute" setter: stores, and asks the mixer to send unless guarded. */
    method SetMute(m: bool)
      modifies this`mute, this`log
      ensures mute == m
      ensures log == old(log) + if block then [] else [MixerSend(Mute)]
    {
      mute := m;
      if !block {
        log := log + [MixerSend(Mute)];
      }
    }

    /** The "mainvolume" setter: stores, and sends the Props `volume` float unless guarded. */
    method SetMainVolume(v: real)
      modifies this`mainVolume, this`log
      ensures mainVolume == v
      ensures log == old(log) + if block then [] else [MainVolumeWrite(v)]
    {
      mainVolume := v;
      if !block {
        log := log + [MainVolumeWrite(mainVolume)];
      }
    }

    /**
     * The "monitorvolume" setter: stores, and unless guarded sends a Props
     * `monitorVolumes` array holding the value once per channel volume.
     */
    method SetMonitorVolume(v: real)
      modifies this`monitorVolume, this`log
      ensures monitorVolume == v
      ensures log == old(log) + if block then [] else [MonitorVolumeWrite(|channelVolumes|, v)]
    {
      monitorVolume := v;
      if !block {
        log := log + [MonitorVolumeWrite(|channelVolumes|, monitorVolume)];
      }
    }

    /** One object pod of a Props answer: its volume fields go through the two setters. */
    method ApplyPropsPod(pod: Pod)
      modifies this`mainVolume, this`monitorVolume, this`log
      ensures mainVolume == MainVolumeOf(pod).GetOr(old(mainVolume))
      ensures monitorVolume == MonitorVolumeOf(pod).GetOr(old(monitorVolume))
      ensures log == old(log) + if block then [] else PodPropsWrites(pod, |channelVolumes|)
    {
      if pod.Object? {
        if "volume" in pod.fields && pod.fields["volume"].Float? {
          SetMainVolume(pod.fields["volume"].f);
        }
        if "monitorVolumes" in pod.fields && pod.fields["monitorVolumes"].FloatArray? {
          var fs := pod.fields["monitorVolumes"].floats;
          SetMonitorVolume(if fs == [] then 0.0 else MaxOf(fs));
        }
      }
    }

    /**
     * `update_props` on the answer of the synchronous Props query: each object pod's
     * `volume` float goes through the main-volume setter and its `monitorVolumes` array,
     * reduced to its largest entry, through the monitor-volume setter, so the last pod
     * carrying a field decides it.
     */
    method UpdateProps(pods: seq<Pod>)
      modifies this`mainVolume, this`monitorVolume, this`log
      ensures mainVolume == LastValue(pods, MainVolumeOf, old(mainVolume))
      ensures monitorVolume == LastValue(pods, MonitorVolumeOf, old(monitorVolume))
      ensures log == old(log) + if block then [] else PropsWrites(pods, |channelVolumes|)
    {
      var i := 0;
      while i < |pods|
        invariant 0 <= i <= |pods|
        invariant mainVolume == LastValue(pods[..i], MainVolumeOf, old(mainVolume))
        invariant monitorVolume == LastValue(pods[..i], MonitorVolumeOf, old(monitorVolume))
        invariant block ==> log == old(log)
        invariant !block ==> log == old(log) + PropsWrites(pods[..i], |channelVolumes|)
      {
        LastValueStep(pods, i, MainVolumeOf, old(mainVolume));
        LastValueStep(pods, i, MonitorVolumeOf, old(monitorVolume));
        PropsWritesStep(pods, i, |channelVolumes|);
        ghost var sent, next := PropsWrites(pods[..i], |channelVolumes|), PodPropsWrites(pods[i], |channelVolumes|);
        assert (old(log) + sent) + next == old(log) + (sent + next);
        ApplyPropsPod(pods[i]);
        i := i + 1;
      }
      assert pods[..i] == pods;
    }

    /** `update_format`: issues the asynchronous "Format" enumeration. */
    method UpdateFormat()
      modifies this`log
      ensures log == old(log) + [EnumRequest("Format")]
    {
      log := log + [EnumRequest("Format")];
    }

    /** The format fields and the log, as a value. */
    function FormatFields(): FormatState
      reads this
    {
      FormatState(formatStr, format, channels, log)
    }

    /**
     * The body of the format callback for one object pod with a non-zero format id: the
     * format string, the positions copied into 64 slots, the "format" signal, and the
     * channel objects rebuilt from the current volume vector.
     */
    method ApplyFormat(d: DecodedFormat, formatName: uint32 -> string)
      requires |d.positions| <= PositionSlots
      modifies this`formatStr, this`format, this`channels, this`log
      ensures ShowsFormat(d, formatName, formatStr, format, channels, channelVolumes)
      ensures log == old(log) + [Emit("format")]
    {
      var a := CopyPositions(d.positions);
      formatStr := IntToString(d.channels as int) + "ch " + IntToString(d.rate as int) + "Hz " + formatName(d.format);
      format := Some(AudioFormat(a[..]));
      log := log + [Emit("format")];
      UpdateChannelModel();
    }

    /** One object pod of the "Format" callback, decoded and applied. */
    method ApplyFormatPod(pod: Pod, formatName: uint32 -> string, ghost done: seq<DecodedFormat>,
                          ghost start: FormatState)
      requires pod.Object? && FormatPod(pod) && FormatIdOf(pod) != 0
      requires AfterFormats(done, formatName, start, FormatFields(), channelVolumes)
      modifies this`formatStr, this`format, this`channels, this`log
      ensures AfterFormats(done + [DecodeFormat(pod)], formatName, start, FormatFields(), channelVolumes)
    {
      var d := DecodeFormat(pod);
      ghost var before := FormatFields();
      ApplyFormat(d, formatName);
      AfterFormatsStep(done, d, formatName, start, before, FormatFields(), channelVolumes);
    }

    /**
     * One pod of the "Format" callback, with `done` already applied: a pod with format
     * id 0 stops the callback, every other object pod is applied.
     */
    method FormatCallbackStep(pods: seq<Pod>, i: nat, formatName: uint32 -> string,
                              ghost done: seq<DecodedFormat>, ghost start: FormatState)
      returns (stop: bool, ghost done': seq<DecodedFormat>)
      requires i < |pods| && FormatPods(pods) && FormatPods(pods[i..])
      requires AppliedFormats(pods) == done + AppliedFormats(pods[i..])
      requires AfterFormats(done, formatName, start, FormatFields(), channelVolumes)
      modifies this`formatStr, this`format, this`channels, this`log
      ensures stop ==> AfterFormats(AppliedFormats(pods), formatName, start, FormatFields(), channelVolumes)
      ensures !stop ==> FormatPods(pods[i + 1..]) && AppliedFormats(pods) == done' + AppliedFormats(pods[i + 1..]) &&
                        AfterFormats(done', formatName, start, FormatFields(), channelVolumes)
    {
      var pod := pods[i];
      FormatStep(pods, i, done);
      stop, done' := false, done;
      if pod.Object? {
        if FormatIdOf(pod) == 0 {
          return true, done;
        }
        ApplyFormatPod(pod, formatName, done, start);
        done' := done + [DecodeFormat(pod)];
      }
    }

    /**
     * The "Format" callback. On `Ok(Some(..))` each object pod is applied in turn until one
     * with format id 0 ends the callback; the node then shows the last format applied and
     * has emitted "format" once per applied pod. Any other answer changes nothing.
     */
    method OnFormat(res: EnumResult, formatName: uint32 -> string)
      requires res.Done? && res.pods.Some? ==> FormatPods(res.pods.value)
      modifies this`formatStr, this`format, this`channels, this`log
      ensures AfterFormats(if res.Done? && res.pods.Some? then AppliedFormats(res.pods.value) else [],
                           formatName, old(FormatFields()), FormatFields(), channelVolumes)
    {
      if !(res.Done? && res.pods.Some?) {
        return;
      }
      var pods := res.pods.value;
      ghost var done: seq<DecodedFormat> := [];
      ghost var start := FormatFields();
      var i := 0;
      assert pods[0..] == pods;
      while i < |pods|
        invariant 0 <= i <= |pods|
        invariant FormatPods(pods[i..])
        invariant AppliedFormats(pods) == done + AppliedFormats(pods[i..])
        invariant AfterFormats(done, formatName, start, FormatFields(), channelVolumes)
      {
        var stop;
        stop, done := FormatCallbackStep(pods, i, formatName, done, start);
        if stop {
          return;
        }
        i := i + 1;
      }
      assert pods[i..] == [];
    }

    /** `update_channelmodel`: removes every channel object, then appends one per volume. */
    method UpdateChannelModel()
      modifies this`channels
      ensures Mirrors(channels, channelVolumes)
    {
      channels := [];
      var k := 0;
      while k < |channelVolumes|
        invariant 0 <= k <= |channelVolumes|
        invariant Mirrors(channels, channelVolumes[..k])
      {
        channels := channels + [Channel(k, channelVolumes[k])];
        k := k + 1;
      }
      assert channelVolumes[..k] == channelVolumes;
    }

    /** `update_channel_objects`: object k takes volume k wherever both exist; nothing else changes. */
    method UpdateChannelObjects()
      modifies this`channels
      ensures channels == Refreshed(old(channels), channelVolumes)
    {
      var k := 0;
      while k < |channelVolumes|
        invariant 0 <= k <= |channelVolumes|
        invariant |channels| == |old(channels)|
        invariant forall j :: 0 <= j < |channels| ==>
                    channels[j] == if j < k then Refreshed(old(channels), channelVolumes)[j] else old(channels)[j]
      {
        if k < |channels| {
          channels := channels[k := channels[k].(volume := channelVolumes[k])];
        }
        k := k + 1;
      }
    }

    /** `set_channel_volumes_vec_no_send`: replaces the vector and refreshes the objects; never sends. */
    method SetChannelVolumesVecNoSend(values: seq<real>)
      modifies this`channelVolumes, this`channels
      ensures channelVolumes == values
      ensures channels == Refreshed(old(channels), values)
    {
      channelVolumes := values;
      UpdateChannelObjects();
    }

    /** `set_channel_volumes_vec`: as the no-send variant, then a mixer send unless guarded. */
    method SetChannelVolumesVec(values: seq<real>)
      modifies this`channelVolumes, this`channels, this`log
      ensures channelVolumes == values
      ensures channels == Refreshed(old(channels), values)
      ensures log == old(log) + if block then [] else [MixerSend(ChannelVolumes)]
    {
      SetChannelVolumesVecNoSend(values);
      if !block {
        log := log + [MixerSend(ChannelVolumes)];
      }
    }

    /**
     * `set_channel_volume`: entry `index` takes `v` when it exists, every other entry and
     * the length stay; then the objects are refreshed and, unless guarded, the mixer sends.
     */
    method SetChannelVolume(index: uint32, v: real)
      modifies this`channelVolumes, this`channels, this`log
      ensures |channelVolumes| == |old(channelVolumes)|
      ensures channelVolumes == if (index as int) < |old(channelVolumes)|
                                then old(channelVolumes)[index as int := v] else old(channelVolumes)
      ensures channels == Refreshed(old(channels), channelVolumes)
      ensures log == old(log) + if block then [] else [MixerSend(ChannelVolumes)]
    {
      if (index as int) < |channelVolumes| {
        channelVolumes := channelVolumes[index as int := v];
      }
      UpdateChannelObjects();
      if !block {
        log := log + [MixerSend(ChannelVolumes)];
      }
    }

    /**
     * The params-changed handler: the guard is raised, "Props" re-reads the Props query
     * (so nothing is sent back) and "Format" requests the format, and the guard is lowered
     * again whatever the tag.
     */
    method ParamsChanged(what: string, propsQuery: seq<Pod>)
      modifies this`block, this`mainVolume, this`monitorVolume, this`log
      ensures !block
      ensures mainVolume == if what == "Props" then LastValue(propsQuery, MainVolumeOf, old(mainVolume))
                            else old(mainVolume)
      ensures monitorVolume == if what == "Props" then LastValue(propsQuery, MonitorVolumeOf, old(monitorVolume))
                               else old(monitorVolume)
      ensures log == old(log) + if what == "Format" then [EnumRequest("Format")] else []
    {
      block := true;
      if what == "Props" {
        UpdateProps(propsQuery);
      } else if what == "Format" {
        UpdateFormat();
      }
      block := false;
    }

    /** The registry found the node's device (`nodeobject.device.set(..)`). */
    method DeviceLinked(d: DeviceObject.Device?)
      modifies this`device
      ensures device == d
    {
      device := d;
    }

    /**
     * `set_route`: with a device index and a device, the route is applied first and then,
     * if the route names profiles none of which is the device's current one, the device is
     * switched to the first of them. Nothing on the node changes.
     */
    method SetRoute(routeIndex: uint32, routeProfiles: seq<uint32>, cardProfileDevice: Option<uint32>)
      modifies if device == null then {} else {device}
      ensures device != null ==>
              device.log == old(device.log) +
                RouteRequests(routeIndex, routeProfiles, cardProfileDevice, Some(old(device.profileIndex)))
      ensures device != null ==> device.profileIndex == old(device.profileIndex) &&
                                 device.profiles == old(device.profiles) && device.routes == old(device.routes)
      ensures device != null ==> device.routeIndexInput == old(device.routeIndexInput) &&
                                 device.routeIndexOutput == old(device.routeIndexOutput) &&
                                 device.name == old(device.name) && device.iconName == old(device.iconName)
    {
      if cardProfileDevice.Some? && device != null {
        var d := device;
        d.SetRoute(routeIndex, AsI32(cardProfileDevice.value));
        if |routeProfiles| > 0 && d.profileIndex !in routeProfiles {
          d.SetProfile(AsI32(routeProfiles[0]));
        }
      }
    }
  }
}
