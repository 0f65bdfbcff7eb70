/**
 * The audio device object (src/backend/pwdeviceobject.rs): the device's profile list
 * and route list, both replaced wholesale on every enumeration, the active profile
 * index, and for each direction the position of the active route within that
 * direction's filtered view of the route list.
 */
module DeviceObject {
  import opened Wrappers
  import opened Pods
  import opened Events

  /** The two route directions a filtered view selects. */
  datatype Direction = Input | Output

  /** A profile record as decoded from one "EnumProfile" object pod. */
  datatype Profile = Profile(index: uint32, description: string, available: uint32)

  /** A route record as decoded from one "EnumRoute" object pod. */
  datatype Route = Route(index: uint32, description: string, available: uint32, direction: uint32)

  /** The fields every decoded pod needs: an int `index` and a string `description`. */
  predicate IndexedPod(p: Pod) {
    p.Object? ==>
      "index" in p.fields && p.fields["index"].Int? &&
      "description" in p.fields && p.fields["description"].Str?
  }

  /** An enumerated profile pod: `index`, `description` and an id `available`. */
  predicate ProfilePod(p: Pod) {
    IndexedPod(p) && (p.Object? ==> "available" in p.fields && p.fields["available"].Id?)
  }

  /** An enumerated route pod: as a profile pod, and an id `direction`. */
  predicate RoutePod(p: Pod) {
    ProfilePod(p) && (p.Object? ==> "direction" in p.fields && p.fields["direction"].Id?)
  }

  predicate AllPods(pods: seq<Pod>, ok: Pod -> bool) {
    forall j :: 0 <= j < |pods| ==> ok(pods[j])
  }

  function IndexOf(p: Pod): int32
    requires p.Object? && IndexedPod(p)
  {
    p.fields["index"].i
  }

  function DecodeProfile(p: Pod): Profile
    requires p.Object? && ProfilePod(p)
  {
    Profile(AsU32(IndexOf(p)), p.fields["description"].s, p.fields["available"].id)
  }

  function DecodeRoute(p: Pod): Route
    requires p.Object? && RoutePod(p)
  {
    Route(AsU32(IndexOf(p)), p.fields["description"].s, p.fields["available"].id,
          p.fields["direction"].id)
  }

  /**
   * The profile list an enumeration builds: the object pods decoded in enumeration
   * order, the others skipped.
   */
  function DecodeProfiles(pods: seq<Pod>): (r: seq<Profile>)
    requires AllPods(pods, ProfilePod)
    ensures |r| == |ObjectPositions(pods)|
    ensures forall k :: 0 <= k < |r| ==> r[k] == DecodeProfile(pods[ObjectPositions(pods)[k]])
  {
    if pods == [] then []
    else
      var init := pods[..|pods| - 1];
      assert AllPods(init, ProfilePod);
      var r := DecodeProfiles(init);
      assert forall k :: 0 <= k < |r| ==> pods[ObjectPositions(init)[k]] == init[ObjectPositions(init)[k]];
      if pods[|pods| - 1].Object? then r + [DecodeProfile(pods[|pods| - 1])] else r
  }

  /** The route list an enumeration builds, in the same way. */
  function DecodeRoutes(pods: seq<Pod>): (r: seq<Route>)
    requires AllPods(pods, RoutePod)
    ensures |r| == |ObjectPositions(pods)|
    ensures forall k :: 0 <= k < |r| ==> r[k] == DecodeRoute(pods[ObjectPositions(pods)[k]])
  {
    if pods == [] then []
    else
      var init := pods[..|pods| - 1];
      assert AllPods(init, RoutePod);
      var r := DecodeRoutes(init);
      assert forall k :: 0 <= k < |r| ==> pods[ObjectPositions(init)[k]] == init[ObjectPositions(init)[k]];
      if pods[|pods| - 1].Object? then r + [DecodeRoute(pods[|pods| - 1])] else r
  }

  /** What a "Profile" point query needs so that decoding its first object pod cannot panic. */
  predicate ProfileQuery(query: Option<seq<Pod>>) {
    query.Some? ==>
      var ps := ObjectPositions(query.value);
      |ps| > 0 ==> IndexedPod(query.value[ps[0]])
  }

  /** The active profile a "Profile" point query reports: the index of its first object pod. */
  function CurrentProfileIndex(query: Option<seq<Pod>>): Option<int32>
    requires ProfileQuery(query)
  {
    if query.None? then None
    else
      var ps := ObjectPositions(query.value);
      if |ps| == 0 then None else Some(IndexOf(query.value[ps[0]]))
  }

  /**
   * `get_current_profile_index`: scans the query result and returns the index of the
   * first object pod, or `None` when the query fails or holds no object pod.
   */
  method GetCurrentProfileIndex(query: Option<seq<Pod>>) returns (r: Option<int32>)
    requires ProfileQuery(query)
    ensures r == CurrentProfileIndex(query)
    ensures r.Some? <==> query.Some? && exists j :: 0 <= j < |query.value| && query.value[j].Object?
  {
    r := None;
    if query.Some? {
      var pods := query.value;
      var i := 0;
      while i < |pods|
        invariant 0 <= i <= |pods|
        invariant forall l :: 0 <= l < i ==> !pods[l].Object?
      {
        if pods[i].Object? {
          FirstObjectPosition(pods, i);
          return Some(IndexOf(pods[i]));
        }
        i := i + 1;
      }
      assert |ObjectPositions(pods)| == 0;
    }
  }

  /** The payload `set_profile` sends: one int property `index`. */
  function ProfilePayload(index: int32): (p: Payload)
    ensures "index" in PodOf(p).fields && PodOf(p).fields["index"] == Int(index)
  {
    [Prop("index", Int(index))]
  }

  /** The payload `set_route` sends: the route `index` as an int, then the `device` int. */
  function RoutePayload(index: uint32, device: int32): (p: Payload)
    ensures "index" in PodOf(p).fields && PodOf(p).fields["index"] == Int(AsI32(index))
    ensures "device" in PodOf(p).fields && PodOf(p).fields["device"] == Int(device)
  {
    [Prop("index", Int(AsI32(index))), Prop("device", Int(device))]
  }

  /**
   * Round trip: when the server answers a "Profile" point query with the object that
   * `set_profile(n)` sent, plus the description it adds, the reported profile is `n`.
   */
  lemma ProfileRoundTrip(n: int32, description: string, before: seq<Pod>)
    requires forall j :: 0 <= j < |before| ==> !before[j].Object?
    ensures var echoed := Object(PodOf(ProfilePayload(n)).fields["description" := Str(description)]);
            ProfileQuery(Some(before + [echoed])) &&
            CurrentProfileIndex(Some(before + [echoed])) == Some(n)
  {
    var echoed := Object(PodOf(ProfilePayload(n)).fields["description" := Str(description)]);
    FirstObjectPosition(before + [echoed], |before|);
  }

  /**
   * First-match search of a direction's view: the smallest position whose route index
   * equals `routeIndex`, both compared as unsigned 32-bit numbers.
   */
  function FirstMatch(view: seq<Route>, routeIndex: uint32): (r: Option<nat>)
    ensures r.Some? ==> r.value < |view| && view[r.value].index == routeIndex
    ensures r.Some? ==> forall j :: 0 <= j < r.value ==> view[j].index != routeIndex
    ensures r.None? ==> forall j :: 0 <= j < |view| ==> view[j].index != routeIndex
  {
    if view == [] then None
    else if view[0].index == routeIndex then Some(0)
    else match FirstMatch(view[1..], routeIndex)
      case None => None
      case Some(m) => Some(m + 1)
  }

  /**
   * `get_model_index_from_route_index` on one direction's view: a linear scan that
   * returns the first position whose route index equals the query, compared as `u32`.
   */
  method ModelIndexFromRouteIndex(view: seq<Route>, routeIndex: int32) returns (r: Option<nat>)
    ensures r == FirstMatch(view, AsU32(routeIndex))
  {
    var i := 0;
    while i < |view|
      invariant 0 <= i <= |view|
      invariant forall j :: 0 <= j < i ==> view[j].index != AsU32(routeIndex)
    {
      if view[i].index == AsU32(routeIndex) {
        return Some(i);
      }
      i := i + 1;
    }
    return None;
  }

  /**
   * The position a direction's active route ends at after a filtered "Route" point query:
   * every object pod whose route index is found in the view moves it to the match, so the
   * last such pod wins; without any match it stays at `current`.
   */
  function RouteIndexAfter(view: seq<Route>, pods: seq<Pod>, current: nat): nat
    requires AllPods(pods, IndexedPod)
  {
    if pods == [] then current
    else
      var init := pods[..|pods| - 1];
      assert AllPods(init, IndexedPod);
      var prev := RouteIndexAfter(view, init, current);
      var last := pods[|pods| - 1];
      if last.Object? then FirstMatch(view, AsU32(IndexOf(last))).GetOr(prev) else prev
  }

  /** Whether no object pod names a route present in the view. */
  predicate NoRouteMatch(view: seq<Route>, pods: seq<Pod>)
    requires AllPods(pods, IndexedPod)
  {
    forall j :: 0 <= j < |pods| && pods[j].Object? ==> FirstMatch(view, AsU32(IndexOf(pods[j]))).None?
  }

  /** Without a match the active position is left as it was. */
  lemma {:induction false} RouteIndexUnchangedWithoutMatch(view: seq<Route>, pods: seq<Pod>, current: nat)
    requires AllPods(pods, IndexedPod)
    requires NoRouteMatch(view, pods)
    ensures RouteIndexAfter(view, pods, current) == current
  {
    if pods != [] {
      var init := pods[..|pods| - 1];
      assert AllPods(init, IndexedPod);
      assert NoRouteMatch(view, init) by {
        forall j | 0 <= j < |init| && init[j].Object?
          ensures FirstMatch(view, AsU32(IndexOf(init[j]))).None?
        {
          assert init[j] == pods[j];
        }
      }
      RouteIndexUnchangedWithoutMatch(view, init, current);
    }
  }

  /**
   * With a match, the active position is that of the last object pod whose route is in
   * the view: the first position in the view carrying that pod's route index.
   */
  lemma {:induction false} RouteIndexFollowsLastMatch(view: seq<Route>, pods: seq<Pod>, current: nat, j: nat)
    requires AllPods(pods, IndexedPod)
    requires j < |pods| && pods[j].Object? && FirstMatch(view, AsU32(IndexOf(pods[j]))).Some?
    requires NoRouteMatch(view, pods[j + 1..])
    ensures RouteIndexAfter(view, pods, current) == FirstMatch(view, AsU32(IndexOf(pods[j]))).value
  {
    var init := pods[..|pods| - 1];
    assert AllPods(init, IndexedPod);
    if j < |pods| - 1 {
      assert pods[|pods| - 1] == pods[j + 1..][|pods| - 1 - (j + 1)];
      var tail, fullTail := init[j + 1..], pods[j + 1..];
      assert NoRouteMatch(view, tail) by {
        forall l | 0 <= l < |tail| && tail[l].Object?
          ensures FirstMatch(view, AsU32(IndexOf(tail[l]))).None?
        {
          assert tail[l] == fullTail[l];
        }
      }
      assert init[j] == pods[j];
      RouteIndexFollowsLastMatch(view, init, current, j);
    }
  }

  /**
   * The device object. `viewOf(d, routes)` is the filtered view of the route list for
   * direction `d`, a projection the route filter model computes and this model does not
   * look inside.
   */
  class Device {
    const viewOf: (Direction, seq<Route>) -> seq<Route>
    var name: Option<string>
    var iconName: string
    var profileIndex: uint32
    var routeIndexInput: nat
    var routeIndexOutput: nat
    var profiles: seq<Profile>
    var routes: seq<Route>
    /** Outbound calls and signals, oldest first. */
    var log: seq<Event>

    /**
     * `constructed`: names the device, picks its icon, requests the profile list, adopts
     * the active profile when the point query reports one, and requests the route list.
     */
    constructor (properties: map<string, string>, viewOf: (Direction, seq<Route>) -> seq<Route>,
                 profileQuery: Option<seq<Pod>>)
      requires "device.description" in properties
      requires ProfileQuery(profileQuery)
      ensures this.viewOf == viewOf
      ensures name == Some(properties["device.description"])
      ensures iconName == if "device.icon-name" in properties then properties["device.icon-name"]
                          else "soundcard-symbolic"
      ensures profileIndex == if CurrentProfileIndex(profileQuery).Some?
                              then AsU32(CurrentProfileIndex(profileQuery).value) else 0
      ensures profiles == [] && routes == [] && routeIndexInput == 0 && routeIndexOutput == 0
      ensures log == [EnumRequest("EnumProfile"), EnumRequest("EnumRoute")]
    {
      this.viewOf := viewOf;
      name, iconName, profileIndex := None, "", 0;
      routeIndexInput, routeIndexOutput := 0, 0;
      profiles, routes, log := [], [], [];
      new;
      LabelSetName(properties);
      UpdateIconName(properties);
      UpdateProfiles();
      var index := GetCurrentProfileIndex(profileQuery);
      if index.Some? {
        profileIndex := AsU32(index.value);
      }
      UpdateRoutes();
    }

    /** `label_set_name`: the name is the device description, which must be present. */
    method LabelSetName(properties: map<string, string>)
      requires "device.description" in properties
      modifies this`name
      ensures name == Some(properties["device.description"])
    {
      name := Some(properties["device.description"]);
    }

    /** `update_icon_name`: the device's icon property, or "soundcard-symbolic" without one. */
    method UpdateIconName(properties: map<string, string>)
      modifies this`iconName
      ensures iconName == if "device.icon-name" in properties then properties["device.icon-name"]
                          else "soundcard-symbolic"
    {
      if "device.icon-name" in properties {
        iconName := properties["device.icon-name"];
      } else {
        iconName := "soundcard-symbolic";
      }
    }

    /** `update_profiles`: issues the asynchronous "EnumProfile" enumeration. */
    method UpdateProfiles()
      modifies this`log
      ensures log == old(log) + [EnumRequest("EnumProfile")]
    {
      log := log + [EnumRequest("EnumProfile")];
    }

    /**
     * The "EnumProfile" callback. On `Ok(Some(..))` it emits "pre-update-profile",
     * replaces the whole list by the decoded object pods (splice: all old entries
     * removed, all new ones inserted), stores the active profile from the point query
     * directly, then emits "post-update-profile". On an error or an empty result
     * nothing changes. The source unwraps the point query's answer, so one is required.
     */
    method OnEnumProfile(res: EnumResult, profileQuery: Option<seq<Pod>>)
      requires res.Done? && res.pods.Some? ==>
               AllPods(res.pods.value, ProfilePod) &&
               ProfileQuery(profileQuery) && CurrentProfileIndex(profileQuery).Some?
      modifies this`profiles, this`profileIndex, this`log
      ensures !(res.Done? && res.pods.Some?) ==>
              profiles == old(profiles) && profileIndex == old(profileIndex) && log == old(log)
      ensures res.Done? && res.pods.Some? ==>
              profiles == DecodeProfiles(res.pods.value) &&
              profileIndex == AsU32(CurrentProfileIndex(profileQuery).value) &&
              log == old(log) + [Emit("pre-update-profile"),
                                 ItemsChanged(0, |old(profiles)|, |profiles|),
                                 Emit("post-update-profile")]
    {
      if res.Done? && res.pods.Some? {
        var pods := res.pods.value;
        var removed := |profiles|;
        log := log + [Emit("pre-update-profile")];
        var built: seq<Profile> := [];
        var i := 0;
        while i < |pods|
          invariant 0 <= i <= |pods|
          invariant AllPods(pods[..i], ProfilePod)
          invariant built == DecodeProfiles(pods[..i])
        {
          assert pods[..i + 1][..i] == pods[..i];
          assert AllPods(pods[..i + 1], ProfilePod);
          if pods[i].Object? {
            built := built + [DecodeProfile(pods[i])];
          }
          i := i + 1;
        }
        assert pods[..i] == pods;
        profiles := built;
        log := log + [ItemsChanged(0, removed, |built|)];
        var index := GetCurrentProfileIndex(profileQuery);
        profileIndex := AsU32(index.value);
        log := log + [Emit("post-update-profile")];
      }
    }

    /** `set_profile`: one "Profile" write carrying `{index}`; local state is not touched. */
    method SetProfile(index: int32)
      modifies this`log
      ensures log == old(log) + [SetParam("Profile", ProfilePayload(index))]
    {
      log := log + [SetParam("Profile", ProfilePayload(index))];
    }

    /** `update_routes`: issues the asynchronous "EnumRoute" enumeration. */
    method UpdateRoutes()
      modifies this`log
      ensures log == old(log) + [EnumRequest("EnumRoute")]
    {
      log := log + [EnumRequest("EnumRoute")];
    }

    /**
     * The "EnumRoute" callback: as for profiles, between "pre-update-route" and
     * "post-update-route", and after the replace both directions' active positions are
     * recomputed from their point queries against the new list.
     */
    method OnEnumRoute(res: EnumResult, inputQuery: Option<seq<Pod>>, outputQuery: Option<seq<Pod>>)
      requires res.Done? && res.pods.Some? ==>
               AllPods(res.pods.value, RoutePod) &&
               (inputQuery.Some? ==> AllPods(inputQuery.value, IndexedPod)) &&
               (outputQuery.Some? ==> AllPods(outputQuery.value, IndexedPod))
      modifies this`routes, this`routeIndexInput, this`routeIndexOutput, this`log
      ensures !(res.Done? && res.pods.Some?) ==>
              routes == old(routes) && log == old(log) &&
              routeIndexInput == old(routeIndexInput) && routeIndexOutput == old(routeIndexOutput)
      ensures res.Done? && res.pods.Some? ==>
              routes == DecodeRoutes(res.pods.value) &&
              routeIndexInput == (if inputQuery.Some?
                                  then RouteIndexAfter(viewOf(Input, routes), inputQuery.value, old(routeIndexInput))
                                  else old(routeIndexInput)) &&
              routeIndexOutput == (if outputQuery.Some?
                                   then RouteIndexAfter(viewOf(Output, routes), outputQuery.value, old(routeIndexOutput))
                                   else old(routeIndexOutput)) &&
              log == old(log) + [Emit("pre-update-route"),
                                 ItemsChanged(0, |old(routes)|, |routes|),
                                 Emit("post-update-route")]
    {
      if res.Done? && res.pods.Some? {
        var pods := res.pods.value;
        var removed := |routes|;
        log := log + [Emit("pre-update-route")];
        var built: seq<Route> := [];
        var i := 0;
        while i < |pods|
          invariant 0 <= i <= |pods|
          invariant AllPods(pods[..i], RoutePod)
          invariant built == DecodeRoutes(pods[..i])
        {
          assert pods[..i + 1][..i] == pods[..i];
          assert AllPods(pods[..i + 1], RoutePod);
          if pods[i].Object? {
            built := built + [DecodeRoute(pods[i])];
          }
          i := i + 1;
        }
        assert pods[..i] == pods;
        routes := built;
        log := log + [ItemsChanged(0, removed, |built|)];
        UpdateCurrentRouteIndex(inputQuery, outputQuery);
        log := log + [Emit("post-update-route")];
      }
    }

    /** `update_current_route_index`: the input direction first, then the output direction. */
    method UpdateCurrentRouteIndex(inputQuery: Option<seq<Pod>>, outputQuery: Option<seq<Pod>>)
      requires inputQuery.Some? ==> AllPods(inputQuery.value, IndexedPod)
      requires outputQuery.Some? ==> AllPods(outputQuery.value, IndexedPod)
      modifies this`routeIndexInput, this`routeIndexOutput
      ensures routeIndexInput == if inputQuery.Some?
                                 then RouteIndexAfter(viewOf(Input, routes), inputQuery.value, old(routeIndexInput))
                                 else old(routeIndexInput)
      ensures routeIndexOutput == if outputQuery.Some?
                                  then RouteIndexAfter(viewOf(Output, routes), outputQuery.value, old(routeIndexOutput))
                                  else old(routeIndexOutput)
    {
      UpdateCurrentRouteIndexForDirection(Input, inputQuery);
      UpdateCurrentRouteIndexForDirection(Output, outputQuery);
    }

    /**
     * `update_current_route_index_for_direction_sync`: for each object pod of the filtered
     * point query, a route index found in the direction's view moves that direction's
     * active position to the match; one that is not found leaves it alone. The other
     * direction is never touched.
     */
    method UpdateCurrentRouteIndexForDirection(direction: Direction, query: Option<seq<Pod>>)
      requires query.Some? ==> AllPods(query.value, IndexedPod)
      modifies this`routeIndexInput, this`routeIndexOutput
      ensures direction == Input ==> routeIndexOutput == old(routeIndexOutput)
      ensures direction == Output ==> routeIndexInput == old(routeIndexInput)
      ensures direction == Input ==>
              routeIndexInput == if query.Some?
                                 then RouteIndexAfter(viewOf(Input, routes), query.value, old(routeIndexInput))
                                 else old(routeIndexInput)
      ensures direction == Output ==>
              routeIndexOutput == if query.Some?
                                  then RouteIndexAfter(viewOf(Output, routes), query.value, old(routeIndexOutput))
                                  else old(routeIndexOutput)
    {
      if query.None? {
        return;
      }
      var pods := query.value;
      var view := viewOf(direction, routes);
      var i := 0;
      while i < |pods|
        invariant 0 <= i <= |pods|
        invariant AllPods(pods[..i], IndexedPod)
        invariant direction == Input ==> routeIndexOutput == old(routeIndexOutput)
        invariant direction == Output ==> routeIndexInput == old(routeIndexInput)
        invariant direction == Input ==> routeIndexInput == RouteIndexAfter(view, pods[..i], old(routeIndexInput))
        invariant direction == Output ==> routeIndexOutput == RouteIndexAfter(view, pods[..i], old(routeIndexOutput))
      {
        assert pods[..i + 1][..i] == pods[..i];
        assert AllPods(pods[..i + 1], IndexedPod);
        if pods[i].Object? {
          var modelIndex := ModelIndexFromRouteIndex(view, IndexOf(pods[i]));
          if modelIndex.Some? {
            if direction == Input {
              routeIndexInput := modelIndex.value;
            } else {
              routeIndexOutput := modelIndex.value;
            }
          }
        }
        i := i + 1;
      }
      assert pods[..i] == pods;
    }

    /** `set_route`: one "Route" write carrying `{index, device}`; local state is not touched. */
    method SetRoute(index: uint32, deviceIndex: int32)
      modifies this`log
      ensures log == old(log) + [SetParam("Route", RoutePayload(index, deviceIndex))]
    {
      log := log + [SetParam("Route", RoutePayload(index, deviceIndex))];
    }

    /**
     * The params-changed handler: "EnumProfile" requests the profile list, "Profile"
     * adopts the point query's index when there is one, "EnumRoute" requests the route
     * list, "Route" recomputes both active route positions; any other tag does nothing.
     */
    method ParamsChanged(what: string, profileQuery: Option<seq<Pod>>,
                         inputQuery: Option<seq<Pod>>, outputQuery: Option<seq<Pod>>)
      requires what == "Profile" ==> ProfileQuery(profileQuery)
      requires what == "Route" ==>
               (inputQuery.Some? ==> AllPods(inputQuery.value, IndexedPod)) &&
               (outputQuery.Some? ==> AllPods(outputQuery.value, IndexedPod))
      modifies this`profileIndex, this`routeIndexInput, this`routeIndexOutput, this`log
      ensures log == old(log) + (if what == "EnumProfile" then [EnumRequest("EnumProfile")]
                                 else if what == "EnumRoute" then [EnumRequest("EnumRoute")]
                                 else [])
      ensures profileIndex == if what == "Profile" && CurrentProfileIndex(profileQuery).Some?
                              then AsU32(CurrentProfileIndex(profileQuery).value)
                              else old(profileIndex)
      ensures routeIndexInput == if what == "Route" && inputQuery.Some?
                                 then RouteIndexAfter(viewOf(Input, routes), inputQuery.value, old(routeIndexInput))
                                 else old(routeIndexInput)
      ensures routeIndexOutput == if what == "Route" && outputQuery.Some?
                                  then RouteIndexAfter(viewOf(Output, routes), outputQuery.value, old(routeIndexOutput))
                                  else old(routeIndexOutput)
    {
      if what == "EnumProfile" {
        UpdateProfiles();
      } else if what == "Profile" {
        var index := GetCurrentProfileIndex(profileQuery);
        if index.Some? {
          profileIndex := AsU32(index.value);
        }
      } else if what == "EnumRoute" {
        UpdateRoutes();
      } else if what == "Route" {
        UpdateCurrentRouteIndex(inputQuery, outputQuery);
      }
    }
  }
}
