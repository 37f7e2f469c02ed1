/** The dispatch layer's call request, reduced to what the bind itineraries use:
    an operation with positional arguments, declared resource locks, a weight,
    the asynchronous and archive flags, descriptive tags, the ids it depends on
    and the lifecycle callbacks registered per outcome. */
module CallRequests {

  /** Resource types that appear in lock declarations and in tags. */
  datatype ResourceType = ConsumerType | RepositoryType | RepositoryDistributorType | ConsumerBindingType

  /** The operation a resource lock requests. */
  datatype LockOp = Create | Read | Update | Delete

  /** Resource type -> resource id -> requested operation. */
  type Resources = map<ResourceType, map<string, LockOp>>

  /** Options handed through to the agent; never interpreted here. */
  type Options = map<string, string>

  /** A positional argument of a call. */
  datatype Arg = Str(s: string) | Opts(options: Options) | Flag(b: bool)

  /** The manager operations a call request may invoke: the bind manager's
      bind, unbind and delete, and the agent manager's bind and unbind. */
  datatype Op = ManagerBind | ManagerUnbind | ManagerDelete | AgentBind | AgentUnbind

  /** Observability tags: a resource reference or an action label. */
  datatype Tag = ResourceTag(rtype: ResourceType, rid: string) | ActionTag(action: string)

  /** The two lifecycle outcomes callbacks are registered for. */
  datatype LifeCycle = Success | Failure

  /** The lifecycle handlers the coordinator can invoke, by name. */
  datatype Callback = BindSucceededCallback | BindFailedCallback | UnbindSucceededCallback | UnbindFailedCallback

  /** Weight of a call request built without an explicit weight. */
  const DefaultWeight: nat := 0

  /** The value of a call request: everything the coordinator receives. */
  datatype Call = Call(
    id: nat,
    op: Op,
    args: seq<Arg>,
    resources: Resources,
    weight: nat,
    asynchronous: bool,
    archive: bool,
    tags: seq<Tag>,
    dependencies: seq<nat>,
    onSuccess: seq<Callback>,
    onFailure: seq<Callback>)
  {
    /** The callbacks registered for one outcome, in registration order. */
    function Callbacks(kind: LifeCycle): seq<Callback> {
      if kind == Success then onSuccess else onFailure
    }
  }

  /** Hands out call request ids; each construction takes the next one. */
  class IdSource {
    var next: nat

    constructor (start: nat)
      ensures next == start
    {
      next := start;
    }
  }

  class CallRequest {
    const id: nat
    const op: Op
    const args: seq<Arg>
    const resources: Resources
    const weight: nat
    const asynchronous: bool
    const archive: bool
    const tags: seq<Tag>
    var dependencies: seq<nat>
    var successCallbacks: seq<Callback>
    var failureCallbacks: seq<Callback>

    /** The request as a value. */
    function Value(): Call
      reads this
    {
      Call(id, op, args, resources, weight, asynchronous, archive, tags,
           dependencies, successCallbacks, failureCallbacks)
    }

    /** A new request takes the next id; it depends on nothing and has no
        callbacks yet. Omitted options default to no locks, the default
        weight, synchronous, not archived and no tags. */
    constructor (ids: IdSource, op: Op, args: seq<Arg>, resources: Resources := map[],
                 weight: nat := DefaultWeight, asynchronous: bool := false,
                 archive: bool := false, tags: seq<Tag> := [])
      modifies ids
      ensures ids.next == old(ids.next) + 1
      ensures Value() == Call(old(ids.next), op, args, resources, weight, asynchronous,
                              archive, tags, [], [], [])
    {
      id := ids.next;
      this.op := op;
      this.args := args;
      this.resources := resources;
      this.weight := weight;
      this.asynchronous := asynchronous;
      this.archive := archive;
      this.tags := tags;
      dependencies := [];
      successCallbacks := [];
      failureCallbacks := [];
      new;
      ids.next := ids.next + 1;
    }

    /** Records that this request may start only after the one with the given id. */
    method DependsOn(callRequestId: nat)
      modifies this
      ensures Value() == old(Value()).(dependencies := old(dependencies) + [callRequestId])
    {
      dependencies := dependencies + [callRequestId];
    }

    /** Appends a handler to the list for one outcome; the other list is unchanged. */
    method AddLifeCycleCallback(kind: LifeCycle, callback: Callback)
      modifies this
      ensures Value().Callbacks(kind) == old(Value()).Callbacks(kind) + [callback]
      ensures kind == Success ==> Value() == old(Value()).(onSuccess := old(successCallbacks) + [callback])
      ensures kind == Failure ==> Value() == old(Value()).(onFailure := old(failureCallbacks) + [callback])
    {
      if kind == Success {
        successCallbacks := successCallbacks + [callback];
      } else {
        failureCallbacks := failureCallbacks + [callback];
      }
    }
  }

  /** The values of a list of call requests, in order. */
  function Values(requests: seq<CallRequest>): (s: seq<Call>)
    reads requests
    ensures |s| == |requests|
    ensures forall i :: 0 <= i < |requests| ==> s[i] == requests[i].Value()
  {
    if requests == [] then []
    else Values(requests[..|requests| - 1]) + [requests[|requests| - 1].Value()]
  }
}
