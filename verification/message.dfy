/** The typed message envelope exchanged between clients (message.go). */
module Messages {
  import opened Wrappers

  newtype Byte = x: int | 0 <= x < 256

  type Bytes = seq<Byte>

  /** A message: a caller-chosen type string and an already encoded payload. */
  datatype Message = Message(kind: string, data: Bytes)

  /** Outcome of `NewMessage`, mirroring Go's `(*Message, error)` return pair. */
  datatype Constructed<+E> = Constructed(msg: Option<Message>, err: Option<E>)

  /**
   * Builds a message of the given type whose payload is the encoding of `v`.
   * The JSON encoder is a foreign call, so it is a parameter that may fail.
   */
  function NewMessage<V, E>(messageType: string, v: V, marshal: V -> Result<Bytes, E>): (r: Constructed<E>)
    ensures r.msg.Some? <==> r.err.None?
    ensures marshal(v).Success? ==> r.msg == Some(Message(messageType, marshal(v).value))
    ensures marshal(v).Failure? ==> r.msg == None && r.err == Some(marshal(v).error)
  {
    match marshal(v)
    case Failure(e) => Constructed(None, Some(e))
    case Success(b) => Constructed(Some(Message(messageType, b)), None)
  }

  /** On success the message carries the given type and exactly the encoder's bytes. */
  lemma NewMessageSuccess<V, E>(messageType: string, v: V, marshal: V -> Result<Bytes, E>)
    requires NewMessage(messageType, v, marshal).err.None?
    ensures marshal(v).Success?
    ensures NewMessage(messageType, v, marshal).msg.Some?
    ensures NewMessage(messageType, v, marshal).msg.value.kind == messageType
    ensures NewMessage(messageType, v, marshal).msg.value.data == marshal(v).value
  {
  }

  /** Two values with the same encoding give the same message: the payload is all that is kept of `v`. */
  lemma NewMessageDependsOnlyOnEncoding<V, E>(messageType: string, v1: V, v2: V, marshal: V -> Result<Bytes, E>)
    requires marshal(v1) == marshal(v2)
    ensures NewMessage(messageType, v1, marshal) == NewMessage(messageType, v2, marshal)
  {
  }
}
