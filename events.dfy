/**
 * What a model object sends out: outbound parameter writes, asynchronous enumeration
 * requests, mixer sends and the signals whose order the source relies on. Each object
 * keeps the events it causes in an append-only log.
 */
module Events {
  import opened Pods

  /** Which value `send_volume_using_mixerapi` is asked to push. */
  datatype PropertyChanged = Volume | Mute | ChannelVolumes

  datatype Event =
      /** A `set_param(schema, 0, pod)` call carrying the object built from `payload`. */
    | SetParam(schema: string, payload: Payload)
      /** An asynchronous `enum_params(schema)` request; its callback arrives later. */
    | EnumRequest(schema: string)
      /** A `send_volume_using_mixerapi(what)` call of the mixer submodule. */
    | MixerSend(what: PropertyChanged)
      /** An `emit_by_name(signal)` of one of the object's own signals. */
    | Emit(signal: string)
      /** A list model's items-changed notification. */
    | ItemsChanged(position: nat, removed: nat, added: nat)
      /** A property-change notification for `property`. */
    | Notify(property: string)
      /** Blocking and unblocking the notify handler with id `handler`. */
    | Block(handler: nat)
    | Unblock(handler: nat)
      /** A notify handler for `property` connected under id `handler`. */
    | Connect(property: string, handler: nat)

  /** `n` copies of one event, in a row. */
  function Repeat(e: Event, n: nat): (r: seq<Event>)
    ensures |r| == n && forall k :: 0 <= k < n ==> r[k] == e
  {
    if n == 0 then [] else Repeat(e, n - 1) + [e]
  }
}
