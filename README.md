# pwvucontrol parameter synchronisation, modelled in Dafny

pwvucontrol is a volume control for PipeWire. Its model objects keep local state in
step with the audio graph:

- A **node object** holds the volume, mute, main and monitor volume, a per-channel
  volume vector with its channel sub-objects, and the audio format.
- A **device object** holds a profile list, a route list with the selected position
  per direction, and the active profile index.

Both exist twice: the current version under `src/backend/` and an older, simpler one
under `src/`.

This project models those objects as small deterministic state machines.

- **Inputs.** Graph answers are plain values:
  - an enumeration result is a sequence of abstract pods (`Pods.Pod`);
  - a synchronous query is an optional pod sequence;
  - a property dictionary is a `map<string, string>`;
  - the metadata store is a map;
  - the mixer plugin's "get-volume" answer is a `MixerInfo`.
- **Outputs.** Everything the objects send out is an `Events.Event` appended to a log
  kept in the object:
  - `set_param` writes;
  - asynchronous `enum_params` requests, whose callbacks are separate methods;
  - mixer sends (`send_volume_using_mixerapi`);
  - the object's own signals.

Files:

- `wrappers.dfy` has `Option`.
- `pods.dfy` has the pod codec:
  - the 32-bit integer types and Rust's `as` casts;
  - field lookup and choice unwrapping;
  - payload building;
  - the 64-slot position copy;
  - decimal rendering.
- `events.dfy` has the event log.
- `node_object.dfy` models `src/backend/pwnodeobject.rs`.
- `device_object.dfy` models `src/backend/pwdeviceobject.rs`.
- `legacy_node_object.dfy` models `src/pwnodeobject.rs`.
- `legacy_device_object.dfy` models `src/pwdeviceobject.rs`.

The objects are classes. Their fields are the source's `Cell`/`RefCell` state, and
methods state the whole new state through specification functions over sequences and
maps. Loops stay loops:

- the icon fallback;
- Props application;
- the format callback;
- the channel-model rebuild and refresh;
- profile, route and profile-map rebuilds;
- the mixer channel loop.

Each loop is proved against a prefix-recursive specification function. The properties
the source relies on are lemmas about those functions:

- last-wins for repeated setters;
- format id 0 ending the callback;
- "-1" falling through in the default-target search;
- keyed lookup in the old profile map;
- the signal-blocker bracket hiding a notify from exactly one handler;
- parse/render round trips.

Points where the code differs from what its intent suggests, modelled as the code
does it:

- **Initial Props reads are sent back.** The backend node reads Props unguarded at
  construction, so the initial main and monitor volume sets are sent back
  (`NodeObject.Node.Constructed`).
- **The last matching route wins.** The backend per-direction route update loops over
  every object pod of the filtered "Route" answer, not just the first
  (`DeviceObject.RouteIndexFollowsLastMatch`).
- **A format change does not resize the channel vector.** The backend format callback
  leaves the volume vector as it is and rebuilds the channel objects from it
  (`NodeObject.Node.ApplyFormat`).
- **Plain format values read as 0.** The older format callback reads every field
  through `choice_child`, so a field carried as a plain value rather than a choice reads
  as 0 (`LegacyNodeObject.PlainFieldsDecodeToZero`).
- **The old profile model is keyed.** `item(position)` looks `position` up as a map key,
  not as an ordinal (`LegacyDeviceObject.KeyedNotPositional`).
- **The old channel-volume setter appends.** The property setter pushes onto the existing
  vector without clearing it (`LegacyNodeObject.LegacyNode.SetChannelVolumesProperty`).

## Model

| member | source | states |
|---|---|---|
| Pods.AsU32 | src/backend/pwnodeobject.rs:376 | `i32 as u32` agrees with its argument modulo 2^32 |
| Pods.AsI32 | src/backend/pwdeviceobject.rs:385 | `u32 as i32` agrees with its argument modulo 2^32 |
| Pods.MaybeChoice | src/backend/pwnodeobject.rs:349-355 | a choice unwraps to its first alternative (its child); any other value is returned as is |
| Pods.ObjectPositions | src/backend/pwdeviceobject.rs:191-196 | the positions an enumeration loop decodes are exactly the object pods, strictly increasing |
| Pods.FirstObjectPosition | src/backend/pwdeviceobject.rs:226-238 | the first object pod is the first position decoded, and no earlier pod is an object |
| Pods.FirstPresentIsFirst | src/backend/pwnodeobject.rs:291-300 | an `or_else` chain is None exactly when no key is present, and otherwise yields the first present key's value |
| Pods.LastPresentIsLast | src/backend/pwnodeobject.rs:320-326 | overwriting once per present key leaves the last present key's value, and nothing without one |
| Pods.PodOf | src/backend/pwdeviceobject.rs:247-253 | the pod a builder produces is an object whose keys are exactly the property names added |
| Pods.PodOfLastWins | src/backend/pwdeviceobject.rs:247-253 | a property that no later property of the same name overrides is the value the pod carries |
| Pods.CopyPositions | src/backend/pwnodeobject.rs:376-380 | a fresh 64-slot array holds the vector's entries first and zeros after; longer vectors are excluded (they would index out of bounds) |
| Pods.NatToString | src/backend/pwnodeobject.rs:500 | `to_string` of a `u32` is a non-empty digit string without a leading zero; zero renders as "0" |
| Pods.NatToStringValue | src/backend/pwnodeobject.rs:500-508 | the decimal rendering reads back as the number it renders |
| Pods.IntToString | src/backend/pwnodeobject.rs:387 | an `i32` renders as '-' exactly when negative, followed by digits that read back as its absolute value, with no leading zero, and zero as "0" (the canonical decimal form) |
| NodeObject.NodeTypeFor | src/backend/pwnodeobject.rs:271-280 | each media class maps to its type, both for sources, and every other class (or none) to Undefined, each as an if-and-only-if |
| NodeObject.DisplayNamePriority | src/backend/pwnodeobject.rs:287-305 | sinks and sources prefer the description, other nodes the nick; with neither, the name or "" |
| NodeObject.DecodeFormat | src/backend/pwnodeobject.rs:357-376 | the decoded id is the pod's non-zero format id; channels and rate are the (choice-unwrapped) field values, or 0 when the field is missing; there are as many positions as the unwrapped array holds, at most 64 |
| NodeObject.DecodeFormatPositions | src/backend/pwnodeobject.rs:369-376 | each decoded position is the `u32` reinterpretation of the array's integer |
| NodeObject.PlainAndChoiceDecodeAlike | src/backend/pwnodeobject.rs:349-376 | a format object with plain fields and one with each field wrapped in a choice decode alike, to the values they carry |
| NodeObject.FormatZeroEndsCallback | src/backend/pwnodeobject.rs:357-362 | after an object pod with format id 0, no later pod is applied, whatever it holds |
| NodeObject.RefreshKeepsMirror | src/backend/pwnodeobject.rs:580-596 | refreshing a rebuilt channel list with a vector of the same length keeps object k at index k with volume k |
| NodeObject.MaxOf | src/backend/pwnodeobject.rs:416 | the maximum is an element of the array and no smaller than any element |
| NodeObject.MonitorVolumeOf | src/backend/pwnodeobject.rs:414-418 | a pod yields a monitor volume exactly when it has a float `monitorVolumes` array: 0 when the array is empty, else its maximum |
| NodeObject.LastValueKept | src/backend/pwnodeobject.rs:405-421 | a setter fed by a Props answer without the field keeps its value |
| NodeObject.LastValueIsLastCarried | src/backend/pwnodeobject.rs:405-421 | the last pod carrying the field decides the value |
| NodeObject.PropsReplayIdempotent | src/backend/pwnodeobject.rs:400-422 | applying the same Props answer twice leaves the value where one application put it |
| NodeObject.PropsWritesOnlyFromVolumes | src/backend/pwnodeobject.rs:400-422 | a Props answer without volume fields causes no write |
| NodeObject.MonitorVolumesPayload | src/backend/pwnodeobject.rs:436-453 | `send_monitorvolume` sends one `monitorVolumes` array with one copy of the value per channel volume |
| NodeObject.MinusOneFallsThrough | src/backend/pwnodeobject.rs:530-567 | a "-1" under target.object does not end the search: the result is what target.node resolves to |
| NodeObject.UnsetClearsDefaultTarget | src/backend/pwnodeobject.rs:569-578 | after `unset_default_target` writes "-1" to both keys, there is no default target |
| NodeObject.SetDefaultTargetResolves | src/backend/pwnodeobject.rs:493-512 | after `set_default_target`, the search finds the target by serial, or else by bound id |
| NodeObject.SetDefaultTargetWrites | src/backend/pwnodeobject.rs:493-512 | without a metadata object nothing is written; otherwise two `Spa:Id` writes on the node's bound id, target.node carrying the target's bound id and target.object its serial, each in decimal |
| NodeObject.UnsetDefaultTargetWrites | src/backend/pwnodeobject.rs:569-578 | without a metadata object nothing is written; otherwise `Spa:Id` writes of "-1" to target.node and target.object on the node's bound id |
| NodeObject.DefaultTarget | src/backend/pwnodeobject.rs:530-567 | no metadata object gives None; otherwise a target.object entry that resolves by serial decides, else a target.node entry that resolves by bound id, else None |
| NodeObject.RouteRequests | src/backend/pwnodeobject.rs:514-528 | no write without a device index and a device; the route write comes first; a profile switch to the route's first profile follows exactly when the route lists profiles and the current one is not among them |
| NodeObject.Node.constructor | src/backend/pwnodeobject.rs:176-182 | the node type and virtual flag come from `media.class`; every other property starts at its default |
| NodeObject.Node.Constructed | src/backend/pwnodeobject.rs:209-216 | description, Props (unguarded, so writes go out), format request, name and icon, in that order |
| NodeObject.Node.LabelSetName | src/backend/pwnodeobject.rs:287-305 | the name is the type-dependent fallback chain's result |
| NodeObject.Node.LabelSetDescription | src/backend/pwnodeobject.rs:307-315 | the description is `media.name`, or "" |
| NodeObject.Node.UpdateIconName | src/backend/pwnodeobject.rs:317-335 | streams take the last present icon property over "library-music-symbolic"; sources and sinks show "soundcard-symbolic"; others the music icon |
| NodeObject.Node.SetVolume | src/backend/pwnodeobject.rs:137-141 | the volume is stored; a mixer send of Volume is logged exactly when unguarded |
| NodeObject.Node.SetMute | src/backend/pwnodeobject.rs:142-146 | mute is stored; a mixer send of Mute is logged exactly when unguarded |
| NodeObject.Node.SetMainVolume | src/backend/pwnodeobject.rs:147-151 | the main volume is stored; the Props `volume` write is logged exactly when unguarded |
| NodeObject.Node.SetMonitorVolume | src/backend/pwnodeobject.rs:152-156 | the monitor volume is stored; the `monitorVolumes` write is logged exactly when unguarded |
| NodeObject.Node.ApplyPropsPod | src/backend/pwnodeobject.rs:407-420 | one pod's `volume` float and `monitorVolumes` array go through the two setters |
| NodeObject.Node.UpdateProps | src/backend/pwnodeobject.rs:400-422 | the main and monitor volume end at the last carried values; the writes are exactly the per-pod writes when unguarded, none when guarded |
| NodeObject.Node.UpdateFormat | src/backend/pwnodeobject.rs:337-340 | one asynchronous "Format" request |
| NodeObject.Node.ApplyFormat | src/backend/pwnodeobject.rs:384-392 | the format string is "{channels}ch {rate}Hz {name}", positions fill the 64 slots, "format" is emitted and the channel objects mirror the vector |
| NodeObject.Node.OnFormat | src/backend/pwnodeobject.rs:340-397 | on success every object pod up to the first with format id 0 is applied, leaving the last applied format shown, with one "format" per pod; otherwise nothing changes |
| NodeObject.Node.UpdateChannelModel | src/backend/pwnodeobject.rs:580-587 | exactly one channel object per volume, object k with index k and volume k |
| NodeObject.Node.UpdateChannelObjects | src/backend/pwnodeobject.rs:589-596 | object k takes volume k where both exist; nothing else changes |
| NodeObject.Node.SetChannelVolumesVecNoSend | src/backend/pwnodeobject.rs:466-470 | the vector is replaced, the objects refreshed, and nothing is sent |
| NodeObject.Node.SetChannelVolumesVec | src/backend/pwnodeobject.rs:459-464 | as the no-send variant, plus a mixer send exactly when unguarded |
| NodeObject.Node.SetChannelVolume | src/backend/pwnodeobject.rs:472-481 | only entry `index` changes, and only when it exists; the length stays; a mixer send exactly when unguarded |
| NodeObject.Node.ParamsChanged | src/backend/pwnodeobject.rs:198-207 | the guard is raised, "Props" re-reads volumes without sending, "Format" requests the format, and the guard is lowered whatever the tag |
| NodeObject.Node.DeviceLinked | src/backend/pwnodeobject.rs:239-243 | the node refers to the device the registry found |
| NodeObject.Node.SetRoute | src/backend/pwnodeobject.rs:514-528 | the device's log gains exactly the route requests for its current profile; its profiles, routes, active profile, both selected route positions, name and icon are untouched |
| DeviceObject.DecodeProfiles | src/backend/pwdeviceobject.rs:189-203 | the profile list is the object pods decoded in enumeration order, non-objects skipped |
| DeviceObject.DecodeRoutes | src/backend/pwdeviceobject.rs:275-290 | the route list is the object pods decoded in enumeration order, non-objects skipped |
| DeviceObject.GetCurrentProfileIndex | src/backend/pwdeviceobject.rs:219-242 | the index of the first object pod of the point query, Some exactly when the query has an object pod |
| DeviceObject.ProfilePayload | src/backend/pwdeviceobject.rs:244-255 | the Profile write carries `index` as an int |
| DeviceObject.RoutePayload | src/backend/pwdeviceobject.rs:379-394 | the Route write carries `index` (as `i32`) and `device` |
| DeviceObject.ProfileRoundTrip | src/backend/pwdeviceobject.rs:219-255 | the profile a `set_profile` names is what the point query reports when the device echoes it |
| DeviceObject.FirstMatch | src/backend/pwdeviceobject.rs:358-377 | the smallest view position whose route index equals the query, or None when none does |
| DeviceObject.ModelIndexFromRouteIndex | src/backend/pwdeviceobject.rs:358-377 | the linear scan computes the first match, comparing as `u32` |
| DeviceObject.RouteIndexUnchangedWithoutMatch | src/backend/pwdeviceobject.rs:323-355 | without a matching route the selected position stays |
| DeviceObject.RouteIndexFollowsLastMatch | src/backend/pwdeviceobject.rs:323-355 | the last object pod with a match decides the selected position |
| DeviceObject.Device.constructor | src/backend/pwdeviceobject.rs:108-124 | name, icon, profile request, adopted active profile, route request |
| DeviceObject.Device.LabelSetName | src/backend/pwdeviceobject.rs:404-407 | the name is `device.description` |
| DeviceObject.Device.UpdateIconName | src/backend/pwdeviceobject.rs:409-415 | `device.icon-name`, or "soundcard-symbolic" |
| DeviceObject.Device.UpdateProfiles | src/backend/pwdeviceobject.rs:171-178 | one asynchronous "EnumProfile" request |
| DeviceObject.Device.OnEnumProfile | src/backend/pwdeviceobject.rs:184-214 | on success: "pre-update-profile", the list replaced (all old removed, all new added), the active profile set, then "post-update-profile"; otherwise nothing changes |
| DeviceObject.Device.SetProfile | src/backend/pwdeviceobject.rs:244-255 | one Profile write; no local state changes |
| DeviceObject.Device.UpdateRoutes | src/backend/pwdeviceobject.rs:257-264 | one asynchronous "EnumRoute" request |
| DeviceObject.Device.OnEnumRoute | src/backend/pwdeviceobject.rs:271-301 | on success the route list is replaced and both selected positions recomputed between "pre-update-route" and "post-update-route"; otherwise nothing changes |
| DeviceObject.Device.UpdateCurrentRouteIndex | src/backend/pwdeviceobject.rs:306-309 | the input direction is updated, then the output direction |
| DeviceObject.Device.UpdateCurrentRouteIndexForDirection | src/backend/pwdeviceobject.rs:311-356 | only that direction's position can change, and it ends as the last match decides |
| DeviceObject.Device.SetRoute | src/backend/pwdeviceobject.rs:379-394 | one Route write; no local state changes |
| DeviceObject.Device.ParamsChanged | src/backend/pwdeviceobject.rs:132-155 | each of the four tags does its own update and any other tag does nothing |
| LegacyNodeObject.NodeTypeFor | src/pwnodeobject.rs:122-127 | three media classes map to Output, Input and Sink, each as an if-and-only-if; everything else, sources included, is Undefined |
| LegacyNodeObject.DisplayNameFallback | src/pwnodeobject.rs:190-208 | the nick wins, then the description, then the name, then "" |
| LegacyNodeObject.Convertible | src/pwnodeobject.rs:105-112 | the converted values are no more than the values given |
| LegacyNodeObject.ConvertibleKeeps | src/pwnodeobject.rs:105-112 | every `f32` entry is kept, in order: it lands right after the values converted from the entries before it |
| LegacyNodeObject.ConvertibleCount | src/pwnodeobject.rs:105-112 | one value is converted per `f32` entry, and no more |
| LegacyNodeObject.ConvertibleAll | src/pwnodeobject.rs:105-112 | an array of `f32` values converts entirely, in order |
| LegacyNodeObject.ConvertibleFrom | src/pwnodeobject.rs:105-112 | every converted value comes from the array |
| LegacyNodeObject.WriteAt | src/pwnodeobject.rs:383-391 | entry `i` takes the value when it exists; the length and every other entry stay |
| LegacyNodeObject.ParseRendered | src/pwnodeobject.rs:239-240 | a rendered `u32` index parses back to itself, with or without a leading '+' |
| LegacyNodeObject.MixerUntouched | src/pwnodeobject.rs:238-254 | an entry no applied mixer channel addresses keeps its volume |
| LegacyNodeObject.MixerLastWrite | src/pwnodeobject.rs:238-254 | the last applied mixer channel with an index decides that entry |
| LegacyNodeObject.MixerLength | src/pwnodeobject.rs:238-254 | the mixer's channel writes keep the vector's length |
| LegacyNodeObject.NoEventSilencesBlocker | src/pwnodeobject.rs:369-427 | with a registered blocker the notify misses that handler, which ends unblocked, while every other handler gets it once; without one everyone gets it |
| LegacyNodeObject.ChildPositions | src/pwnodeobject.rs:309-320 | with a choice child, its integers reinterpreted as `u32`, one per entry and at most 64; without one, no positions |
| LegacyNodeObject.DecodeLegacyFormat | src/pwnodeobject.rs:291-320 | the decoded positions fit the 64 slots |
| LegacyNodeObject.ChoiceFieldsDecode | src/pwnodeobject.rs:291-320 | choice-wrapped fields decode to the values they wrap, positions reinterpreted as `u32` |
| LegacyNodeObject.PlainFieldsDecodeToZero | src/pwnodeobject.rs:291-307 | fields without a choice child read as 0 and no positions |
| LegacyNodeObject.LegacyNode.constructor | src/pwnodeobject.rs:121-133 | serial, name and node type from the builder; everything else default |
| LegacyNodeObject.LegacyNode.Initialize | src/pwnodeobject.rs:182-185 | description, the channel vector from Props, the format request and the mixer volumes, in that order |
| LegacyNodeObject.LegacyNode.LabelSetName | src/pwnodeobject.rs:190-208 | the name is the nick, description, name fallback |
| LegacyNodeObject.LegacyNode.LabelSetDescription | src/pwnodeobject.rs:210-226 | the description is `media.name`, or "" |
| LegacyNodeObject.AsValuesConvertBack | src/pwnodeobject.rs:95-112 | converting the array the getter builds gives back the volumes it was built from |
| LegacyNodeObject.LegacyNode.ChannelVolumesProperty | src/pwnodeobject.rs:95-103 | the getter's array holds one `f32` value per volume, in order |
| LegacyNodeObject.LegacyNode.SetChannelVolumesProperty | src/pwnodeobject.rs:105-112 | the convertible values are appended to the existing vector, so setting back what the getter returned doubles the vector |
| LegacyNodeObject.LegacyNode.SetVolume | src/pwnodeobject.rs:46-47 | the volume is stored and notified |
| LegacyNodeObject.LegacyNode.SetMute | src/pwnodeobject.rs:48-49 | mute is stored and notified |
| LegacyNodeObject.LegacyNode.SetChannelVolume | src/pwnodeobject.rs:383-393 | the entry is written only when it exists; the notify happens either way |
| LegacyNodeObject.LegacyNode.SetChannelVolumesVec | src/pwnodeobject.rs:364-367 | the vector is replaced and notified |
| LegacyNodeObject.LegacyNode.SetChannelVolumesVecNoEvent | src/pwnodeobject.rs:369-381 | the vector is replaced; the notify is bracketed by the registered blocker |
| LegacyNodeObject.LegacyNode.SetPropertyChangeHandlerWithBlocker | src/pwnodeobject.rs:395-407 | the handler is connected and registered under its name, replacing any earlier one |
| LegacyNodeObject.LegacyNode.SetVolumeNoEvent | src/pwnodeobject.rs:409-417 | the volume is stored; the notify is bracketed by the "volume" blocker |
| LegacyNodeObject.LegacyNode.SetMuteNoEvent | src/pwnodeobject.rs:419-427 | mute is stored; the notify is bracketed by the "mute" blocker |
| LegacyNodeObject.LegacyNode.UpdateChannelVolumes | src/pwnodeobject.rs:333-358 | the last Props pod with a `channelVolumes` array decides the vector, with one notify per such pod |
| LegacyNodeObject.LegacyNode.UpdateFormat | src/pwnodeobject.rs:274-277 | one asynchronous "Format" request |
| LegacyNodeObject.LegacyNode.SetFormat | src/pwnodeobject.rs:429-433 | the format is stored and "format" emitted |
| LegacyNodeObject.LegacyNode.OnFormat | src/pwnodeobject.rs:277-330 | every pod is decoded and stored, with no format-0 check, so the last one is kept, with one "format" per pod |
| LegacyNodeObject.LegacyNode.UpdateVolumeUsingMixerApi | src/pwnodeobject.rs:228-272 | applied channel entries are written at their parsed indices, then the volume and then mute when present, each with its notify |
| LegacyNodeObject.LegacyNode.ApplyMixerChannel | src/pwnodeobject.rs:239-252 | one entry is written only when its channel name is known and it carries a volume |
| LegacyNodeObject.LegacyNode.ApplyMixerChannels | src/pwnodeobject.rs:238-254 | the vector ends as the entries' writes in order leave it, with one notify per applied entry |
| LegacyNodeObject.LegacyNode.OnMixerChanged | src/pwnodeobject.rs:163-171 | the mixer's "changed" event does everything `update_volume_using_mixerapi` does (channel entries, volume, mute and their notifies) when its id is the node's serial, and nothing otherwise |
| LegacyDeviceObject.ProfileMapKeys | src/pwdeviceobject.rs:168-189 | an index is in the map exactly when some object pod carries it |
| LegacyDeviceObject.ProfileMapLastWins | src/pwdeviceobject.rs:168-189 | a later pod with the same index overwrites an earlier one's description |
| LegacyDeviceObject.ProfileMapSize | src/pwdeviceobject.rs:168-189 | the map has at most as many entries as there are object pods |
| LegacyDeviceObject.KeyedNotPositional | src/pwdeviceobject.rs:55-64 | profiles 0 and 2 give two items, `item(1)` finds nothing and `item(2)` finds the second profile |
| LegacyDeviceObject.LegacyDevice.constructor | src/pwdeviceobject.rs:93-104 | name, icon, profile request and the adopted active profile |
| LegacyDeviceObject.LegacyDevice.LabelSetName | src/pwdeviceobject.rs:251-257 | the name is `device.description` |
| LegacyDeviceObject.LegacyDevice.UpdateIconName | src/pwdeviceobject.rs:259-261 | the icon is always "soundcard-symbolic" |
| LegacyDeviceObject.LegacyDevice.UpdateProfiles | src/pwdeviceobject.rs:147-158 | one asynchronous "EnumProfile" request; `device.nick` must be present |
| LegacyDeviceObject.LegacyDevice.OnEnumProfile | src/pwdeviceobject.rs:164-204 | on success the map is rebuilt from the object pods, the active profile set, then "pre-update", items-changed (all old removed, `n_items` added) and "post-update"; otherwise nothing changes |
| LegacyDeviceObject.ProfileMapIndices | src/pwdeviceobject.rs:168-189 | the map's keys are exactly the indices the object pods carry |
| LegacyDeviceObject.LegacyDevice.ItemAfterRebuild | src/pwdeviceobject.rs:55-64 | `Item` (`item`): after a rebuild, `item(position)` finds something exactly when some object pod carries `position` as its index |
| LegacyDeviceObject.LegacyDevice.ItemLastWins | src/pwdeviceobject.rs:55-64 | `Item` (`item`): after a rebuild, the item at an index is the description of the last pod with that index |
| LegacyDeviceObject.LegacyDevice.NItemsAfterRebuild | src/pwdeviceobject.rs:51-53 | `NItems` (`n_items`): after a rebuild, `n_items` is the number of distinct object-pod indices, at most the number of object pods |
| LegacyDeviceObject.LegacyDevice.GetProfilesAfterRebuild | src/pwdeviceobject.rs:247-249 | `GetProfiles` (`get_profiles`): after a rebuild, `get_profiles` is keyed by the object pods' indices and agrees with `item` on every key |
| LegacyDeviceObject.LegacyDevice.SetProfile | src/pwdeviceobject.rs:234-245 | one Profile write; no local state changes |
| LegacyDeviceObject.LegacyDevice.ParamsChanged | src/pwdeviceobject.rs:113-130 | "EnumProfile" requests the profiles, "Profile" re-reads the active profile, and other tags do nothing |

## Left out

- The mixer plugin: `send_volume_using_mixerapi` and `get_mixer_api` are not part of this
  model. A send is only logged as a `MixerSend` of its kind. The backend's
  `update_volume_using_mixerapi`, which `constructed` calls right after `get_mixer_api`
  and before `update_icon_name`, is not modelled. Its older counterpart in
  `src/pwnodeobject.rs` is.
- The registry:
  - ObjectManager interests and `connect_object_added` are left out;
  - only the resulting `nodeobject.device.set(..)` is kept, as `DeviceLinked`;
  - the lookup by serial or object id in `default_target` becomes a function parameter;
  - `find_notype` (foreign code) becomes a plain map lookup.
- The asynchronous runtime: an `enum_params` call is logged as a request, and its
  callback is a separate method taking the result. Synchronous queries are parameters.
  Weak-reference liveness of callbacks is not modelled.
- GObject machinery:
  - backend notify signals are not logged;
  - the older node logs only the volume, mute and channel-volumes notifications, which
    its signal blockers act on;
  - the older device logs no notifications: neither the name and icon notifications nor
    the profile-index notification that `set_profile_index` sends in `constructed` and in
    the "Profile" handler (src/pwdeviceobject.rs:101-103, 121-125), so the model does not
    show that the enumeration callback stores the index without a notification
    (src/pwdeviceobject.rs:191-192);
  - notify handlers are not run: the blocker semantics are stated over the event trace
    (`Delivered`, `BlockDepth`);
  - handler ids are supplied by the caller.
- Floats are reals: `f32`/`f64` rounding, NaN, and `total_cmp`'s ordering of NaN and
  negative zero are not modelled. `v as f32` on mixer volumes is the identity.
- The "Route" filter pod built in `update_current_route_index_for_direction_sync` is not
  modelled. The direction-filtered route views (`PwRouteFilterModel`) are a function of
  the route list supplied by the caller.
- ModelIndexFromRouteIndex: the view is an immutable sequence, so the list cannot change
  during the scan; the source's branch that logs "model mutated while iterating" and
  scans on (src/backend/pwdeviceobject.rs:372-374) has no counterpart.
- List positions are mathematical naturals: the `as u32` truncation of positions for
  lists of 2^32 or more entries is not modelled.
- Panics (`expect`, `unwrap`, indexing past 64 position slots) are preconditions. The
  error paths the source handles are modelled: failed or empty enumerations, missing
  optional fields, a missing metadata object or device.
- The format name (`SpaIdTable` short name of the format id) and the audio-channel name
  table are function parameters.
- The construction split: GObject's `constructed` and the tail of the older `new` are
  separate methods (`Constructed`, `Initialize`) after the constructor that sets the
  defaults.
- LegacyNodeObject.DecodeLegacyFormat: its contract states only the slot bound. Its field
  values are stated by `ChoiceFieldsDecode` and `PlainFieldsDecodeToZero`, and the stored
  record by `Stores`.
- The older node's `formatstr` and `channellock` properties are plain storage nothing in
  the file updates. The backend's `hidden` and `channellock` are the same. None of them
  are modelled.
- The pod library: `find_spa_property`, `float`, `is_array` and the typed array views are
  calls into it. `Pods.Field` stands for `find_spa_property` as a key lookup on an
  abstract object pod, and the element types are the constructors of `Pods.Value`.
- MonitorVolumeOf: a `monitorVolumes` array whose elements are not floats passes the
  source's `is_array()` check, and `array_iterator::<f32>` then reads it through the pod
  library's typed view. The model treats such an array as carrying no monitor volume.
- The UI (`src/ui/`), application start-up (`src/main.rs`) and logging are not part of
  this model.
