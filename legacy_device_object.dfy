/**
 * The older audio device object (src/pwdeviceobject.rs). Its profile list is a map from
 * profile index to description, rebuilt on every "EnumProfile" enumeration and read as
 * a list model whose `item(position)` looks `position` up as a key. The active-profile
 * point query and the "Profile" payload are the same as in the current device object,
 * so `DeviceObject.CurrentProfileIndex`, `DeviceObject.GetCurrentProfileIndex` and
 * `DeviceObject.ProfilePayload` serve both.
 */
module LegacyDeviceObject {
  import opened Wrappers
  import opened Pods
  import opened Events
  import opened DeviceObject

  /**
   * The map an enumeration builds: for each object pod in order, its index (as `u32`) is
   * mapped to its description, a later pod overwriting an earlier one with the same index.
   */
  function ProfileMap(pods: seq<Pod>): map<uint32, string>
    requires AllPods(pods, IndexedPod)
  {
    if pods == [] then map[]
    else
      var init := pods[..|pods| - 1];
      assert AllPods(init, IndexedPod);
      var last := pods[|pods| - 1];
      if last.Object? then ProfileMap(init)[AsU32(IndexOf(last)) := last.fields["description"].s]
      else ProfileMap(init)
  }

  /** A key is in the map exactly when some object pod carries that index. */
  lemma {:induction false} ProfileMapKeys(pods: seq<Pod>, key: uint32)
    requires AllPods(pods, IndexedPod)
    ensures key in ProfileMap(pods) <==>
            exists j :: 0 <= j < |pods| && pods[j].Object? && AsU32(IndexOf(pods[j])) == key
  {
    if pods != [] {
      var init := pods[..|pods| - 1];
      assert AllPods(init, IndexedPod);
      ProfileMapKeys(init, key);
      assert forall j :: 0 <= j < |init| ==> init[j] == pods[j];
    }
  }

  /** The description stored under an index is that of the last object pod with that index. */
  lemma {:induction false} ProfileMapLastWins(pods: seq<Pod>, j: nat)
    requires AllPods(pods, IndexedPod)
    requires j < |pods| && pods[j].Object?
    requires forall l :: j < l < |pods| && pods[l].Object? ==> AsU32(IndexOf(pods[l])) != AsU32(IndexOf(pods[j]))
    ensures AsU32(IndexOf(pods[j])) in ProfileMap(pods)
    ensures ProfileMap(pods)[AsU32(IndexOf(pods[j]))] == pods[j].fields["description"].s
  {
    var init := pods[..|pods| - 1];
    assert AllPods(init, IndexedPod);
    if j < |pods| - 1 {
      assert init[j] == pods[j];
      ProfileMapLastWins(init, j);
    }
  }

  /** Duplicate indices collapse: the map never has more entries than there are object pods. */
  lemma {:induction false} ProfileMapSize(pods: seq<Pod>)
    requires AllPods(pods, IndexedPod)
    ensures |ProfileMap(pods)| <= |ObjectPositions(pods)|
  {
    if pods != [] {
      var init := pods[..|pods| - 1];
      assert AllPods(init, IndexedPod);
      ProfileMapSize(init);
      var last := pods[|pods| - 1];
      if last.Object? {
        var m := ProfileMap(init);
        var k := AsU32(IndexOf(last));
        assert m[k := last.fields["description"].s].Keys == m.Keys + {k};
      }
    }
  }

  /** The indices (as `u32`) the object pods of an enumeration carry. */
  function ProfileIndices(pods: seq<Pod>): set<uint32>
    requires AllPods(pods, IndexedPod)
  {
    set j | 0 <= j < |pods| && pods[j].Object? :: AsU32(IndexOf(pods[j]))
  }

  /** The map's keys are exactly the indices the object pods carry. */
  lemma ProfileMapIndices(pods: seq<Pod>)
    requires AllPods(pods, IndexedPod)
    ensures ProfileMap(pods).Keys == ProfileIndices(pods)
  {
    forall key: uint32 ensures key in ProfileMap(pods) <==> key in ProfileIndices(pods) {
      ProfileMapKeys(pods, key);
    }
  }

  /** An object pod with the given index and description. */
  function ProfileObject(index: int32, description: string): Pod {
    Object(map["index" := Int(index), "description" := Str(description)])
  }

  /**
   * The list model is keyed, not positional: profiles with indices 0 and 2 give two
   * items, `item(1)` finds nothing and `item(2)` finds the second profile.
   */
  lemma KeyedNotPositional(a: string, b: string)
    ensures var m := ProfileMap([ProfileObject(0, a), ProfileObject(2, b)]);
            |m| == 2 && 1 !in m && 2 in m && m[2] == b
  {
    var pods := [ProfileObject(0, a), ProfileObject(2, b)];
    assert AllPods(pods, IndexedPod);
    assert pods[..1][..0] == [];
    assert IndexOf(pods[0]) == 0 && IndexOf(pods[1]) == 2;
    assert ProfileMap(pods[..1]) == map[0 := a];
    var m := ProfileMap(pods);
    assert m == map[0 := a, 2 := b];
    assert m.Keys == {0, 2};
  }

  class LegacyDevice {
    var name: Option<string>
    var iconName: string
    var profileIndex: uint32
    /** Profile index to description. */
    var profiles: map<uint32, string>
    /** Outbound calls and signals, oldest first. */
    var log: seq<Event>

    /**
     * `constructed`: names the device, sets its icon, requests the profile list and
     * adopts the active profile when the point query reports one.
     */
    constructor (properties: map<string, string>, profileQuery: Option<seq<Pod>>)
      requires "device.description" in properties && "device.nick" in properties
      requires ProfileQuery(profileQuery)
      ensures name == Some(properties["device.description"])
      ensures iconName == "soundcard-symbolic"
      ensures profileIndex == if CurrentProfileIndex(profileQuery).Some?
                              then AsU32(CurrentProfileIndex(profileQuery).value) else 0
      ensures profiles == map[]
      ensures log == [EnumRequest("EnumProfile")]
    {
      name, iconName, profileIndex, profiles, log := None, "", 0, map[], [];
      new;
      LabelSetName(properties);
      UpdateIconName();
      UpdateProfiles(properties);
      var index := GetCurrentProfileIndex(profileQuery);
      if index.Some? {
        profileIndex := AsU32(index.value);
      }
    }

    /** `label_set_name`: the device description, which must be present. */
    method LabelSetName(properties: map<string, string>)
      requires "device.description" in properties
      modifies this`name
      ensures name == Some(properties["device.description"])
    {
      name := Some(properties["device.description"]);
    }

    /** `update_icon_name`: always "soundcard-symbolic". */
    method UpdateIconName()
      modifies this`iconName
      ensures iconName == "soundcard-symbolic"
    {
      iconName := "soundcard-symbolic";
    }

    /**
     * `update_profiles`: issues the asynchronous "EnumProfile" enumeration. It first
     * builds a log message from the `device.nick` property, which must be present.
     */
    method UpdateProfiles(properties: map<string, string>)
      requires "device.nick" in properties
      modifies this`log
      ensures log == old(log) + [EnumRequest("EnumProfile")]
    {
      log := log + [EnumRequest("EnumProfile")];
    }

    /**
     * The "EnumProfile" callback. On `Ok(Some(..))`: the map is cleared and each object
     * pod inserted in order; the active profile is stored from the point query (which
     * the source unwraps); then "pre-update", items-changed for all old entries removed
     * and all new ones inserted, and "post-update". Otherwise nothing changes.
     */
    method OnEnumProfile(res: EnumResult, profileQuery: Option<seq<Pod>>)
      requires res.Done? && res.pods.Some? ==>
               AllPods(res.pods.value, IndexedPod) &&
               ProfileQuery(profileQuery) && CurrentProfileIndex(profileQuery).Some?
      modifies this`profiles, this`profileIndex, this`log
      ensures !(res.Done? && res.pods.Some?) ==>
              profiles == old(profiles) && profileIndex == old(profileIndex) && log == old(log)
      ensures res.Done? && res.pods.Some? ==>
              profiles == ProfileMap(res.pods.value) &&
              profileIndex == AsU32(CurrentProfileIndex(profileQuery).value) &&
              log == old(log) + [Emit("pre-update"), ItemsChanged(0, |old(profiles)|, NItems()),
                                 Emit("post-update")]
    {
      if res.Done? && res.pods.Some? {
        var pods := res.pods.value;
        var removed := |profiles|;
        profiles := map[];
        var i := 0;
        while i < |pods|
          invariant 0 <= i <= |pods|
          invariant AllPods(pods[..i], IndexedPod)
          invariant profiles == ProfileMap(pods[..i])
          invariant log == old(log) && removed == |old(profiles)|
        {
          assert pods[..i + 1][..i] == pods[..i];
          assert AllPods(pods[..i + 1], IndexedPod);
          if pods[i].Object? {
            profiles := profiles[AsU32(IndexOf(pods[i])) := pods[i].fields["description"].s];
          }
          i := i + 1;
        }
        assert pods[..i] == pods;
        var inserted := |profiles|;
        var index := GetCurrentProfileIndex(profileQuery);
        profileIndex := AsU32(index.value);
        log := log + [Emit("pre-update"), ItemsChanged(0, removed, inserted), Emit("post-update")];
      }
    }

    /** `n_items`: the number of map entries. */
    function NItems(): (n: nat)
      reads this
      ensures n == |profiles.Keys|
    {
      |profiles|
    }

    /** `item(position)`: the description stored under key `position`, if any. */
    function Item(position: uint32): (r: Option<string>)
      reads this
      ensures r.Some? <==> position in profiles
      ensures r.Some? ==> r.value == profiles[position]
    {
      if position in profiles then Some(profiles[position]) else None
    }

    /** `get_profiles`: a copy of the map. */
    function GetProfiles(): (r: map<uint32, string>)
      reads this
      ensures r.Keys == profiles.Keys && forall k :: k in r ==> r[k] == profiles[k]
    {
      profiles
    }

    /**
     * After a rebuild from `pods`, `item(position)` finds something exactly when some
     * object pod carries `position` as its index.
     */
    lemma ItemAfterRebuild(pods: seq<Pod>, position: uint32)
      requires AllPods(pods, IndexedPod) && profiles == ProfileMap(pods)
      ensures Item(position).Some? <==>
              exists j :: 0 <= j < |pods| && pods[j].Object? && AsU32(IndexOf(pods[j])) == position
    {
      ProfileMapKeys(pods, position);
    }

    /** After a rebuild, the item at an index is the description of the last pod with that index. */
    lemma ItemLastWins(pods: seq<Pod>, j: nat)
      requires AllPods(pods, IndexedPod) && profiles == ProfileMap(pods)
      requires j < |pods| && pods[j].Object?
      requires forall l :: j < l < |pods| && pods[l].Object? ==> AsU32(IndexOf(pods[l])) != AsU32(IndexOf(pods[j]))
      ensures Item(AsU32(IndexOf(pods[j]))) == Some(pods[j].fields["description"].s)
    {
      ProfileMapLastWins(pods, j);
    }

    /**
     * After a rebuild, `n_items` counts the distinct indices of the object pods, never
     * more than there are object pods.
     */
    lemma NItemsAfterRebuild(pods: seq<Pod>)
      requires AllPods(pods, IndexedPod) && profiles == ProfileMap(pods)
      ensures NItems() == |ProfileIndices(pods)| <= |ObjectPositions(pods)|
    {
      ProfileMapIndices(pods);
      ProfileMapSize(pods);
    }

    /**
     * After a rebuild, `get_profiles` is keyed by the object pods' indices and agrees
     * with `item` on every key.
     */
    lemma GetProfilesAfterRebuild(pods: seq<Pod>)
      requires AllPods(pods, IndexedPod) && profiles == ProfileMap(pods)
      ensures GetProfiles().Keys == ProfileIndices(pods)
      ensures forall p :: p in GetProfiles() ==> Item(p) == Some(GetProfiles()[p])
    {
      ProfileMapIndices(pods);
    }

    /** `set_profile`: one "Profile" write carrying `{index}`; local state is not touched. */
    method SetProfile(index: int32)
      modifies this`log
      ensures log == old(log) + [SetParam("Profile", ProfilePayload(index))]
    {
      log := log + [SetParam("Profile", ProfilePayload(index))];
    }

    /**
     * The params-changed handler: "EnumProfile" re-requests the profile list, "Profile"
     * re-reads the active profile when the point query reports one, other tags do nothing.
     */
    method ParamsChanged(what: string, properties: map<string, string>, profileQuery: Option<seq<Pod>>)
      requires what == "EnumProfile" ==> "device.nick" in properties
      requires what == "Profile" ==> ProfileQuery(profileQuery)
      modifies this`profileIndex, this`log
      ensures profileIndex == if what == "Profile" && CurrentProfileIndex(profileQuery).Some?
                              then AsU32(CurrentProfileIndex(profileQuery).value) else old(profileIndex)
      ensures log == old(log) + if what == "EnumProfile" then [EnumRequest("EnumProfile")] else []
    {
      if what == "EnumProfile" {
        UpdateProfiles(properties);
      } else if what == "Profile" {
        var index := GetCurrentProfileIndex(profileQuery);
        if index.Some? {
          profileIndex := AsU32(index.value);
        }
      }
    }
  }
}
