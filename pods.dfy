/**
 * The parameter codec: the abstract shape of the typed parameter objects ("pods") that
 * the audio graph delivers and accepts, the 32-bit integer types they carry, and the
 * small decoding helpers shared by the node and device objects.
 */
module Pods {
  import opened Wrappers

  newtype int32 = x: int | -0x8000_0000 <= x < 0x8000_0000
  newtype uint32 = x: int | 0 <= x < 0x1_0000_0000

  /** Rust's `x as u32` on an `i32`: the two's-complement reinterpretation. */
  function AsU32(x: int32): (r: uint32)
    ensures (r as int - x as int) % 0x1_0000_0000 == 0
  {
    if x < 0 then (x as int + 0x1_0000_0000) as uint32 else x as int as uint32
  }

  /** Rust's `x as i32` on a `u32`. */
  function AsI32(x: uint32): (r: int32)
    ensures (r as int - x as int) % 0x1_0000_0000 == 0
  {
    if x < 0x8000_0000 then x as int as int32 else (x as int - 0x1_0000_0000) as int32
  }

  /** One value inside a pod. Floats are modelled as reals. */
  datatype Value =
    | Int(i: int32)
    | Float(f: real)
    | Id(id: uint32)
    | Str(s: string)
    | Bool(b: bool)
    | FloatArray(floats: seq<real>)
    | IntArray(ints: seq<int32>)
      /** A choice container; its child (default value) is the first alternative. */
    | Choice(alternatives: seq<Value>)

  /** A pod is either an object, with named fields keyed by their short names, or not. */
  datatype Pod = Object(fields: map<string, Value>) | NonObject

  /** The outcome of an asynchronous enumeration: an error, or `Ok` of an optional iterator. */
  datatype EnumResult = Failed | Done(pods: Option<seq<Pod>>)

  /** `find_spa_property`: the field stored under `key`, if the pod is an object that has it. */
  function Field(p: Pod, key: string): (r: Option<Value>)
    ensures r.Some? <==> p.Object? && key in p.fields
    ensures r.Some? ==> r.value == p.fields[key]
  {
    if p.Object? && key in p.fields then Some(p.fields[key]) else None
  }

  /** `choice_child`: the child of a choice with at least one alternative, and nothing otherwise. */
  function ChoiceChild(v: Value): Option<Value> {
    if v.Choice? && |v.alternatives| > 0 then Some(v.alternatives[0]) else None
  }

  /** A value that `get_pod_maybe_choice` can unwrap without panicking. */
  predicate Unwrappable(v: Value) {
    v.Choice? ==> |v.alternatives| > 0
  }

  /** `get_pod_maybe_choice`: a choice is replaced by its child, any other value kept. */
  function MaybeChoice(v: Value): (r: Value)
    requires Unwrappable(v)
    ensures v.Choice? ==> Some(r) == ChoiceChild(v)
    ensures !v.Choice? ==> r == v
  {
    if v.Choice? then v.alternatives[0] else v
  }

  /**
   * The positions, in increasing order, of the object pods in `pods`: the pods an
   * enumeration callback decodes once it has skipped every non-object pod.
   */
  function ObjectPositions(pods: seq<Pod>): (ps: seq<nat>)
    ensures forall k :: 0 <= k < |ps| ==> ps[k] < |pods| && pods[ps[k]].Object?
    ensures forall k, l :: 0 <= k < l < |ps| ==> ps[k] < ps[l]
    ensures forall j :: 0 <= j < |pods| && pods[j].Object? ==> j in ps
  {
    if pods == [] then []
    else
      var ps := ObjectPositions(pods[..|pods| - 1]);
      if pods[|pods| - 1].Object? then ps + [|pods| - 1] else ps
  }

  /** The first object pod sits at `ObjectPositions(pods)[0]`, and nothing before it is one. */
  lemma FirstObjectPosition(pods: seq<Pod>, i: nat)
    requires i < |pods| && pods[i].Object?
    requires forall l :: 0 <= l < i ==> !pods[l].Object?
    ensures |ObjectPositions(pods)| > 0 && ObjectPositions(pods)[0] == i
  {
    var ps := ObjectPositions(pods);
    assert i in ps;
    var k :| 0 <= k < |ps| && ps[k] == i;
    if k != 0 {
      assert false;
    }
  }

  /** `props.get(key)` on a property dictionary. */
  function Lookup(props: map<string, string>, key: string): Option<string> {
    if key in props then Some(props[key]) else None
  }

  /** The value of the first key of `keys` that `props` holds: an `or_else` chain. */
  function FirstPresent(props: map<string, string>, keys: seq<string>): Option<string> {
    if keys == [] then None
    else if keys[0] in props then Some(props[keys[0]])
    else FirstPresent(props, keys[1..])
  }

  /** `FirstPresent` is `None` exactly when no key is present, else the first present key's value. */
  lemma {:induction false} FirstPresentIsFirst(props: map<string, string>, keys: seq<string>)
    ensures FirstPresent(props, keys).None? <==> forall k :: 0 <= k < |keys| ==> keys[k] !in props
    ensures forall k :: 0 <= k < |keys| && keys[k] in props && (forall j :: 0 <= j < k ==> keys[j] !in props) ==>
              FirstPresent(props, keys) == Some(props[keys[k]])
  {
    if keys != [] {
      var tail := keys[1..];
      FirstPresentIsFirst(props, tail);
      assert forall k :: 1 <= k < |keys| ==> keys[k] == tail[k - 1];
    }
  }

  /** The value of the last key of `keys` that `props` holds: each present key overwrites. */
  function LastPresent(props: map<string, string>, keys: seq<string>): Option<string> {
    if keys == [] then None
    else if keys[|keys| - 1] in props then Some(props[keys[|keys| - 1]])
    else LastPresent(props, keys[..|keys| - 1])
  }

  /** `LastPresent` is `None` exactly when no key is present, else the last present key's value. */
  lemma {:induction false} LastPresentIsLast(props: map<string, string>, keys: seq<string>)
    ensures LastPresent(props, keys).None? <==> forall k :: 0 <= k < |keys| ==> keys[k] !in props
    ensures forall k :: 0 <= k < |keys| && keys[k] in props && (forall j :: k < j < |keys| ==> keys[j] !in props) ==>
              LastPresent(props, keys) == Some(props[keys[k]])
  {
    if keys != [] {
      var init := keys[..|keys| - 1];
      LastPresentIsLast(props, init);
      assert forall k :: 0 <= k < |init| ==> init[k] == keys[k];
    }
  }

  /** One (name, value) property of an outbound object, in the order the builder adds them. */
  datatype Prop = Prop(key: string, value: Value)

  /** The properties of an object built with `SpaPodBuilder::new_object`. */
  type Payload = seq<Prop>

  /** The object pod a payload encodes: later properties with the same name win. */
  function PodOf(payload: Payload): (p: Pod)
    ensures p.Object?
    ensures forall key :: key in p.fields <==> exists k :: 0 <= k < |payload| && payload[k].key == key
  {
    if payload == [] then Object(map[])
    else
      var init, last := payload[..|payload| - 1], payload[|payload| - 1];
      assert forall k :: 0 <= k < |init| ==> init[k] == payload[k];
      Object(PodOf(init).fields[last.key := last.value])
  }

  /** A property that no later property of the same name overrides is the value the pod carries. */
  lemma {:induction false} PodOfLastWins(payload: Payload, k: nat)
    requires k < |payload|
    requires forall l :: k < l < |payload| ==> payload[l].key != payload[k].key
    ensures PodOf(payload).fields[payload[k].key] == payload[k].value
  {
    var init := payload[..|payload| - 1];
    if k < |payload| - 1 {
      assert init[k] == payload[k];
      forall l | k < l < |init| ensures init[l].key != init[k].key {
        assert init[l] == payload[l];
      }
      PodOfLastWins(init, k);
    }
  }

  /** The number of slots of the fixed channel-position array of an audio format. */
  const PositionSlots: nat := 64

  /**
   * Copies a channel-position vector into a fresh 64-slot array: slot k holds `vec[k]`
   * for k below the vector's length and 0 beyond. A longer vector would index out of
   * bounds in the source, so it is excluded.
   */
  method CopyPositions(vec: seq<uint32>) returns (a: array<uint32>)
    requires |vec| <= PositionSlots
    ensures a.Length == PositionSlots
    ensures forall k :: 0 <= k < |vec| ==> a[k] == vec[k]
    ensures forall k :: |vec| <= k < PositionSlots ==> a[k] == 0
  {
    a := new uint32[PositionSlots](_ => 0);
    var i := 0;
    while i < |vec|
      invariant 0 <= i <= |vec|
      invariant forall k :: 0 <= k < i ==> a[k] == vec[k]
      invariant forall k :: i <= k < PositionSlots ==> a[k] == 0
    {
      a[i] := vec[i];
      i := i + 1;
    }
  }

  predicate IsDigit(c: char) {
    '0' <= c <= '9'
  }

  predicate AllDigits(s: string) {
    forall k :: 0 <= k < |s| ==> IsDigit(s[k])
  }

  /** The number a string of decimal digits denotes. */
  function DigitsValue(s: string): nat
    requires AllDigits(s)
  {
    if s == [] then 0
    else 10 * DigitsValue(s[..|s| - 1]) + (s[|s| - 1] as int - '0' as int)
  }

  /** The decimal rendering of a natural number, as Rust's `Display` writes it. */
  function NatToString(n: nat): (s: string)
    ensures |s| > 0 && AllDigits(s)
    ensures n > 0 ==> s[0] != '0'
    ensures n == 0 ==> s == "0"
  {
    if n < 10 then ['0' + n as char]
    else NatToString(n / 10) + ['0' + (n % 10) as char]
  }

  /** The decimal rendering of an integer, with a leading '-' when it is negative. */
  function IntToString(x: int): (s: string)
    ensures |s| > 0
    ensures s[0] == '-' <==> x < 0
    ensures x < 0 ==> AllDigits(s[1..]) && DigitsValue(s[1..]) == -x
    ensures x >= 0 ==> AllDigits(s) && DigitsValue(s) == x
    ensures x > 0 ==> s[0] != '0'
    ensures x < 0 ==> |s| > 1 && s[1] != '0'
    ensures x == 0 ==> s == "0"
  {
    if x < 0 then
      NatToStringValue(-x);
      assert ("-" + NatToString(-x))[1..] == NatToString(-x);
      "-" + NatToString(-x)
    else
      NatToStringValue(x);
      assert IsDigit(NatToString(x)[0]);
      NatToString(x)
  }

  /** Reading back a rendered natural number gives the number. */
  lemma {:induction false} NatToStringValue(n: nat)
    ensures DigitsValue(NatToString(n)) == n
  {
    if n >= 10 {
      NatToStringValue(n / 10);
      var s := NatToString(n);
      assert s[..|s| - 1] == NatToString(n / 10);
    }
  }
}
