/** The listener delegate, seen from the dispatcher: an opaque collaborator
    whose only observable behaviour here is the sequence of calls it receives
    and the answers it gives back. Its client/listener store is not modelled. */
module Delegate {
  import opened NotificationTypes

  /** One operation requested of the delegate, with the arguments passed. */
  datatype Request =
    | RegisterClient
    | UnregisterClient(executor: Executor, client: string)
    | AddListener(executor: Executor, backend: Backend, command: Command)
    | RemoveListener(executor: Executor, client: string, handle: string)
    | Refresh(client: string)
    | ListListeners(client: string)

  /** What the delegate gave back: register yields a client id, addListener
      and list yield a value, the other operations nothing. */
  datatype Answer = Void | ClientId(id: string) | Value(value: Opaque)

  datatype Call = Call(request: Request, answer: Answer)

  /** The kind of answer each delegate operation returns. */
  predicate Answers(request: Request, answer: Answer) {
    match request
    case RegisterClient => answer.ClientId?
    case AddListener(_, _, _) => answer.Value?
    case ListListeners(_) => answer.Value?
    case _ => answer.Void?
  }

  /** `after` is `before` with exactly one more call, made with `request` and
      answered with the kind of answer that operation gives. */
  predicate Delegated(before: seq<Call>, after: seq<Call>, request: Request) {
    && |after| == |before| + 1
    && after[..|before|] == before
    && after[|before|].request == request
    && Answers(request, after[|before|].answer)
  }

  class NotificationListenerDelegate {
    /** Every call received so far, oldest first. */
    var log: seq<Call>

    constructor ()
      ensures log == []
    {
      log := [];
    }

    method Register() returns (id: string)
      modifies this
      ensures log == old(log) + [Call(RegisterClient, ClientId(id))]
    {
      id := Numeral(|log|);
      log := log + [Call(RegisterClient, ClientId(id))];
    }

    method Unregister(executor: Executor, client: string)
      modifies this
      ensures log == old(log) + [Call(UnregisterClient(executor, client), Void)]
    {
      log := log + [Call(UnregisterClient(executor, client), Void)];
    }

    method AddListener(executor: Executor, backend: Backend, command: Command) returns (result: Opaque)
      modifies this
      ensures log == old(log) + [Call(Request.AddListener(executor, backend, command), Value(result))]
    {
      result := Opaque(|log|);
      log := log + [Call(Request.AddListener(executor, backend, command), Value(result))];
    }

    method RemoveListener(executor: Executor, client: string, handle: string)
      modifies this
      ensures log == old(log) + [Call(Request.RemoveListener(executor, client, handle), Void)]
    {
      log := log + [Call(Request.RemoveListener(executor, client, handle), Void)];
    }

    method Refresh(client: string)
      modifies this
      ensures log == old(log) + [Call(Request.Refresh(client), Void)]
    {
      log := log + [Call(Request.Refresh(client), Void)];
    }

    method List(client: string) returns (result: Opaque)
      modifies this
      ensures log == old(log) + [Call(ListListeners(client), Value(result))]
    {
      result := Opaque(|log|);
      log := log + [Call(ListListeners(client), Value(result))];
    }
  }

  /** Decimal digits of `n`; the stand-in delegate uses them as client ids. */
  function Numeral(n: nat): string
    decreases n
  {
    if n < 10 then ["0123456789"[n]] else Numeral(n / 10) + ["0123456789"[n % 10]]
  }
}
