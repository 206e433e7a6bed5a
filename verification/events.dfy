/**
 * The eight creation event slots the factory registers and the two
 * transmitters that adapt the hub's generic fire call to the listener
 * shapes. The hub's dispatch is external; a listener is an oracle.
 */
module Events {
  import opened Wrappers
  import opened Service

  function RequestSlot(k: Kind): string {
    KindName(k) + "-create-request"
  }

  function DoneSlot(k: Kind): string {
    KindName(k) + "-create-done"
  }

  /** The two transmitter shapes. */
  datatype Transmitter = CreateRequest | CreateDone

  /** The slots registered on a freshly built event object. */
  function StandardSlots(): map<string, Transmitter> {
    map[
      RequestSlot(Producer) := CreateRequest, DoneSlot(Producer) := CreateDone,
      RequestSlot(Filter) := CreateRequest, DoneSlot(Filter) := CreateDone,
      RequestSlot(Transition) := CreateRequest, DoneSlot(Transition) := CreateDone,
      RequestSlot(Consumer) := CreateRequest, DoneSlot(Consumer) := CreateDone
    ]
  }

  /**
   * A request listener: given the service name, the input and the current
   * content of the out-slot, it returns the new content of the out-slot
   * (leaving it as it was, or writing an object into it).
   */
  type RequestListener = (Option<string>, Input, Option<Obj>) -> Option<Obj>

  /** A done listener only observes; it is known by its identity. */
  type Observer = nat

  /** What a done listener is told. */
  datatype Notice = Notice(observer: Observer, service: Option<string>, input: Input, created: Option<Obj>)

  /** The listeners attached to the event object, per kind (at most one each). */
  datatype Hub = Hub(request: Kind -> Option<RequestListener>, done: Kind -> Option<Observer>)

  /** What one creation fires and consults, in order. */
  datatype Signal =
    | Requested(kind: Kind, service: Option<string>)
    | RepositoryAsked(kind: Kind, service: Option<string>)
    | Done(kind: Kind, service: Option<string>, created: Option<Obj>, notice: Option<Notice>)

  /** The request transmitter: with no listener the out-slot is left as it was. */
  function TransmitCreateRequest(listener: Option<RequestListener>, service: Option<string>, input: Input, slot: Option<Obj>): (r: Option<Obj>)
    ensures listener.None? ==> r == slot
    ensures listener.Some? ==> r == listener.value(service, input, slot)
  {
    if listener.None? then slot else listener.value(service, input, slot)
  }

  /**
   * The done transmitter: with no listener nothing is delivered; otherwise
   * the listener receives the three arguments unchanged, in order.
   */
  function TransmitCreateDone(listener: Option<Observer>, service: Option<string>, input: Input, created: Option<Obj>): (r: Option<Notice>)
    ensures r.None? <==> listener.None?
    ensures r.Some? ==> r.value.observer == listener.value
    ensures r.Some? ==> r.value.service == service && r.value.input == input && r.value.created == created
  {
    if listener.None? then None else Some(Notice(listener.value, service, input, created))
  }

  /** Each kind has its own pair of slots, the request one bound to the request transmitter, the done one to the done transmitter; there are exactly eight. */
  lemma StandardSlotsShape()
    ensures forall k: Kind :: RequestSlot(k) in StandardSlots() && StandardSlots()[RequestSlot(k)] == CreateRequest
    ensures forall k: Kind :: DoneSlot(k) in StandardSlots() && StandardSlots()[DoneSlot(k)] == CreateDone
    ensures |StandardSlots()| == 8
  {
    var keys := {RequestSlot(Producer), DoneSlot(Producer), RequestSlot(Filter), DoneSlot(Filter),
                 RequestSlot(Transition), DoneSlot(Transition), RequestSlot(Consumer), DoneSlot(Consumer)};
    assert RequestSlot(Producer)[0] != RequestSlot(Consumer)[0];
    assert DoneSlot(Producer)[0] != DoneSlot(Consumer)[0];
    assert StandardSlots().Keys == keys;
  }
}
