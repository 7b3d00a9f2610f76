/**
 * The replication protocol's message family: `NetworkMessage` and its
 * subclasses `RedirectMessage`, `Heartbeat`, `TransitioningMessage`,
 * `SnapshotRequest` and `SnapshotResponse`, as one tagged value. The
 * settable properties become functions that return the updated message.
 */
module NetworkMessages {
  import opened ClrTypes

  /** The object stored in `Payload`, together with its runtime type. */
  datatype Payload =
    | Null
    | BoxedInt(boxed: int32)
    | ByteArray(bytes: seq<byte>)
    | OtherObject(typeName: string)

  /** The message's runtime class; only `RedirectMessage` adds state of its own. */
  datatype Kind =
    | Base
    | Redirect(host: Option<string>, port: int32)
    | Heartbeat
    | Transitioning
    | SnapshotRequest
    | SnapshotResponse

  /** Why a cast of `Payload` fails: unboxing null, or the wrong runtime type. */
  datatype CastFault = NullReference | InvalidCast

  datatype NetworkMessage = NetworkMessage(
    kind: Kind,
    requiresAcknowledgement: bool,
    payload: Payload,
    error: Option<Exception>)
  {
    /** `Succeeded`: the message carries no error, whatever its kind or payload. */
    predicate Succeeded() {
      error == None
    }

    function WithRequiresAcknowledgement(b: bool): (m: NetworkMessage)
      ensures m.requiresAcknowledgement == b
      ensures m.kind == kind && m.payload == payload && m.error == error
      ensures m.Succeeded() == Succeeded()
    {
      this.(requiresAcknowledgement := b)
    }

    function WithPayload(p: Payload): (m: NetworkMessage)
      ensures m.payload == p
      ensures m.kind == kind && m.requiresAcknowledgement == requiresAcknowledgement && m.error == error
      ensures m.Succeeded() == Succeeded()
    {
      this.(payload := p)
    }

    /** Assigning `Error` alone decides `Succeeded`. */
    function WithError(e: Option<Exception>): (m: NetworkMessage)
      ensures m.error == e
      ensures m.kind == kind && m.requiresAcknowledgement == requiresAcknowledgement && m.payload == payload
      ensures m.Succeeded() <==> e == None
    {
      this.(error := e)
    }

    /** `RedirectMessage.Host`'s setter. */
    function WithHost(h: Option<string>): (m: NetworkMessage)
      requires kind.Redirect?
      ensures m.kind == Redirect(h, kind.port)
      ensures m.requiresAcknowledgement == requiresAcknowledgement && m.payload == payload && m.error == error
      ensures m.Succeeded() == Succeeded()
    {
      this.(kind := kind.(host := h))
    }

    /** `RedirectMessage.Port`'s setter. */
    function WithPort(p: int32): (m: NetworkMessage)
      requires kind.Redirect?
      ensures m.kind == Redirect(kind.host, p)
      ensures m.requiresAcknowledgement == requiresAcknowledgement && m.payload == payload && m.error == error
      ensures m.Succeeded() == Succeeded()
    {
      this.(kind := kind.(port := p))
    }

    /**
     * `TransitioningMessage.WaitTime`: the unboxing cast `(int)Payload`,
     * which fails unless `Payload` still holds a boxed int.
     */
    function WaitTime(): (r: Result<int32, CastFault>)
      requires kind.Transitioning?
      ensures r.Success? <==> payload.BoxedInt?
      ensures r.Success? ==> r.value == payload.boxed
      ensures payload.Null? ==> r == Failure(NullReference)
      ensures !payload.Null? && !payload.BoxedInt? ==> r == Failure(InvalidCast)
    {
      match payload
      case BoxedInt(i) => Success(i)
      case Null => Failure(NullReference)
      case _ => Failure(InvalidCast)
    }

    /**
     * `SnapshotResponse.Snapshot`: the reference cast `(byte[])Payload`. A
     * null payload gives a null array; any other non-array fails the cast.
     */
    function Snapshot(): (r: Result<Option<seq<byte>>, CastFault>)
      requires kind.SnapshotResponse?
      ensures r.Success? <==> payload.Null? || payload.ByteArray?
      ensures r == Success(None) <==> payload.Null?
      ensures payload.ByteArray? ==> r == Success(Some(payload.bytes))
      ensures !payload.Null? && !payload.ByteArray? ==> r == Failure(InvalidCast)
    {
      match payload
      case Null => Success(None)
      case ByteArray(b) => Success(Some(b))
      case _ => Failure(InvalidCast)
    }
  }

  /**
   * A message of the given class as its parameterless constructor leaves
   * it: every auto-property at its default (false, null, null, and for a
   * redirect a null host and port 0). `TransitioningMessage` has no such
   * constructor; it is built by `NewTransitioning`.
   */
  function NewMessage(kind: Kind): (m: NetworkMessage)
    requires kind.Redirect? ==> kind == Redirect(None, 0)
    requires !kind.Transitioning?
    ensures m.kind == kind && m.payload == Null
    ensures m.Succeeded() && !m.requiresAcknowledgement
  {
    NetworkMessage(kind, false, Null, None)
  }

  /** `new TransitioningMessage(waitTime)`: the wait time boxed into `Payload`. */
  function NewTransitioning(waitTime: int32): (m: NetworkMessage)
    ensures m.kind.Transitioning?
    ensures m.Succeeded() && !m.requiresAcknowledgement
    ensures m.WaitTime() == Success(waitTime)
  {
    NetworkMessage(Transitioning, false, BoxedInt(waitTime), None)
  }

  /** Every message kind, the snapshot messages included, follows the base class's rule. */
  lemma SucceededIffNoError(m: NetworkMessage, e: Exception)
    ensures m.Succeeded() <==> m.error == None
    ensures !m.WithError(Some(e)).Succeeded()
    ensures m.WithError(None).Succeeded()
  {}

  /** `new TransitioningMessage(w).WaitTime == w`, and replacing the payload with a non-int breaks it. */
  lemma WaitTimeRoundTrip(w: int32, p: Payload)
    ensures NewTransitioning(w).WaitTime() == Success(w)
    ensures !p.BoxedInt? ==> NewTransitioning(w).WithPayload(p).WaitTime().Failure?
  {}

  /** `Snapshot` gives back exactly the bytes stored with `Payload`. */
  lemma SnapshotRoundTrip(m: NetworkMessage, bytes: seq<byte>)
    requires m.kind.SnapshotResponse?
    ensures m.WithPayload(ByteArray(bytes)).Snapshot() == Success(Some(bytes))
    ensures m.WithPayload(Null).Snapshot() == Success(None)
  {}
}
