/** Error values, and which of them stop a message's redelivery.
  * pkg/mq/mq.go and the error wrapping of internal/controller. */
module Errors {
  import opened Prelude

  /** What the Kubernetes API answers besides success. */
  datatype Reason = NotFound | AlreadyExists | Conflict | Fault

  datatype Error =
    | Api(reason: Reason)
    | Text(text: string)
    | Wrapped(inner: Error)
    | Marked(inner: Error)

  /** mq.Permanent: nil stays nil. */
  function Permanent(e: Option<Error>): Option<Error> {
    if e.None? then None else Some(Marked(e.value))
  }

  /** mq.IsPermanent: the mark is found anywhere down the chain. */
  predicate IsPermanent(e: Error) {
    match e
    case Marked(_) => true
    case Wrapped(inner) => IsPermanent(inner)
    case _ => false
  }

  function Chain(e: Error): seq<Error> {
    match e
    case Wrapped(inner) => [e] + Chain(inner)
    case Marked(inner) => [e] + Chain(inner)
    case _ => [e]
  }

  /** What the broker does with a message, from what its handler returned. */
  datatype Verdict = Ack | Reject | Requeue

  function VerdictOf(returned: Option<Error>): Verdict {
    if returned.None? then Ack else if IsPermanent(returned.value) then Reject else Requeue
  }

  /** Wrapping with %w neither adds nor hides the mark: a returned error rejects its
    * message exactly when the mark is somewhere in its chain. */
  lemma {:induction false} MarkIsSeenThroughWrapping(e: Error)
    ensures VerdictOf(Some(e)) == Reject <==> exists m :: m in Chain(e) && m.Marked?
    ensures VerdictOf(Some(Wrapped(e))) == VerdictOf(Some(e))
    ensures VerdictOf(Permanent(Some(e))) == Reject
  {
    match e
    case Wrapped(inner) =>
      MarkIsSeenThroughWrapping(inner);
      assert Chain(e) == [e] + Chain(inner);
    case Marked(inner) =>
      assert e in Chain(e);
    case _ =>
  }
}
