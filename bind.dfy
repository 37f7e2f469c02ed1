/** The binding protocol's itineraries: the lifecycle handlers that turn an
    agent's completion report into a bind manager action, and the three builders
    (bind, graceful unbind, forced unbind) with the plans they follow. */
module Bind {
  import opened CallRequests
  import opened Itineraries

  datatype Result<T, E> = Ok(value: T) | Err(error: E)

  // -- lifecycle handlers ------------------------------------------------------

  /** The bind manager's action-tracking calls. */
  datatype ActionKind = ActionSucceeded | ActionFailed

  /** One call of action_succeeded or action_failed on the bind manager. */
  datatype ManagerAction = ManagerAction(kind: ActionKind, consumerId: Arg, repoId: Arg,
                                         distributorId: Arg, actionId: nat)

  /** Why a handler raises instead of calling the manager: the request's
      arguments do not unpack into four values, or the report has no
      'succeeded' entry. */
  datatype HandlerError = ArgsNotUnpackable | SucceededMissing

  /** The completion report; `result` is the agent's dispatch report. */
  datatype CallReport = CallReport(result: map<string, bool>)

  const SucceededKey: string := "succeeded"

  /** The success handler: the dispatch report's 'succeeded' flag decides
      between action_succeeded and action_failed, both for the request's
      consumer, repository and distributor and with the request's id as action id. */
  function BindSucceeded(callRequest: Call, callReport: CallReport): (r: Result<ManagerAction, HandlerError>)
    ensures r.Err? <==> |callRequest.args| != 4 || SucceededKey !in callReport.result
    ensures |callRequest.args| != 4 ==> r == Err(ArgsNotUnpackable)
    ensures |callRequest.args| == 4 && SucceededKey !in callReport.result ==> r == Err(SucceededMissing)
    ensures r.Ok? ==> (r.value.kind == ActionSucceeded <==> callReport.result[SucceededKey])
    ensures r.Ok? ==>
      r.value.consumerId == callRequest.args[0] && r.value.repoId == callRequest.args[1] &&
      r.value.distributorId == callRequest.args[2] && r.value.actionId == callRequest.id
  {
    if |callRequest.args| != 4 then Err(ArgsNotUnpackable)
    else if SucceededKey !in callReport.result then Err(SucceededMissing)
    else
      var kind := if callReport.result[SucceededKey] then ActionSucceeded else ActionFailed;
      Ok(ManagerAction(kind, callRequest.args[0], callRequest.args[1], callRequest.args[2], callRequest.id))
  }

  /** The failure handler: always action_failed, whatever the report says. */
  function BindFailed(callRequest: Call, callReport: CallReport): (r: Result<ManagerAction, HandlerError>)
    ensures r.Err? <==> |callRequest.args| != 4
    ensures r.Err? ==> r == Err(ArgsNotUnpackable)
    ensures r.Ok? ==> r.value.kind == ActionFailed
    ensures r.Ok? ==>
      r.value.consumerId == callRequest.args[0] && r.value.repoId == callRequest.args[1] &&
      r.value.distributorId == callRequest.args[2] && r.value.actionId == callRequest.id
  {
    if |callRequest.args| != 4 then Err(ArgsNotUnpackable)
    else Ok(ManagerAction(ActionFailed, callRequest.args[0], callRequest.args[1], callRequest.args[2], callRequest.id))
  }

  /** The handler behind each callback name; the unbind names are aliases of
      the bind handlers. */
  function Handle(callback: Callback, callRequest: Call, callReport: CallReport): Result<ManagerAction, HandlerError> {
    match callback
    case BindSucceededCallback | UnbindSucceededCallback => BindSucceeded(callRequest, callReport)
    case BindFailedCallback | UnbindFailedCallback => BindFailed(callRequest, callReport)
  }

  /** What the handlers registered on a request for one outcome do, in
      registration order. */
  function Fire(callRequest: Call, kind: LifeCycle, callReport: CallReport): seq<Result<ManagerAction, HandlerError>> {
    var callbacks := callRequest.Callbacks(kind);
    seq(|callbacks|, i requires 0 <= i < |callbacks| => Handle(callbacks[i], callRequest, callReport))
  }

  lemma UnbindHandlersAreBindHandlers(callRequest: Call, callReport: CallReport)
    ensures Handle(UnbindSucceededCallback, callRequest, callReport) == Handle(BindSucceededCallback, callRequest, callReport)
    ensures Handle(UnbindFailedCallback, callRequest, callReport) == Handle(BindFailedCallback, callRequest, callReport)
  {
  }

  /** A success report whose 'succeeded' flag is false is handled exactly like
      an explicit failure, and the failure handler ignores the report. */
  lemma FalseSuccessIsFailure(callRequest: Call, report: CallReport, other: CallReport)
    requires SucceededKey in report.result && !report.result[SucceededKey]
    ensures BindSucceeded(callRequest, report) == BindFailed(callRequest, report)
    ensures BindFailed(callRequest, report) == BindFailed(callRequest, other)
  {
  }

  // -- shared pieces of the itineraries ----------------------------------------

  /** Arguments of a bind manager call: the binding's three ids. */
  function SyncArgs(consumerId: string, repoId: string, distributorId: string): seq<Arg> {
    [Str(consumerId), Str(repoId), Str(distributorId)]
  }

  /** Arguments of an agent manager call: the three ids and the options. */
  function AgentArgs(consumerId: string, repoId: string, distributorId: string, options: Options): seq<Arg> {
    [Str(consumerId), Str(repoId), Str(distributorId), Opts(options)]
  }

  /** Resource tags for the three entities of a binding. */
  function EntityTags(consumerId: string, repoId: string, distributorId: string): seq<Tag> {
    [ResourceTag(ConsumerType, consumerId), ResourceTag(RepositoryType, repoId),
     ResourceTag(RepositoryDistributorType, distributorId)]
  }

  /** A read lock on the consumer alone. */
  function ConsumerLock(consumerId: string): Resources {
    map[ConsumerType := map[consumerId := Read]]
  }

  // -- the plans the builders follow -------------------------------------------

  /** Create the binding, then have the agent bind. */
  function BindPlan(consumerId: string, repoId: string, distributorId: string, options: Options, first: nat): (s: seq<Call>)
    ensures |s| == 2 && ChainFrom(s, first)
    ensures ValidItinerary(s) && ReadLocksOnly(s) && CallbacksOnlyOnAsync(s)
  {
    var locks := map[ConsumerType := map[consumerId := Read],
                     RepositoryType := map[repoId := Read],
                     RepositoryDistributorType := map[distributorId := Read]];
    var s := [
      Call(first, ManagerBind, SyncArgs(consumerId, repoId, distributorId), locks, 0, false, false,
           EntityTags(consumerId, repoId, distributorId) + [ActionTag("bind")], [], [], []),
      Call(first + 1, AgentBind, AgentArgs(consumerId, repoId, distributorId, options), map[], 0, true, true,
           EntityTags(consumerId, repoId, distributorId) + [ActionTag("agent.bind")], [first],
           [BindSucceededCallback], [BindFailedCallback])
    ];
    ChainIsValid(s, first);
    s
  }

  /** Mark the binding deleted, have the agent unbind, then delete the binding.
      `bindId` is the stored binding's id, used only in the delete request's tag. */
  function UnbindPlan(consumerId: string, repoId: string, distributorId: string, options: Options,
                      bindId: string, first: nat): (s: seq<Call>)
    ensures |s| == 3 && ChainFrom(s, first)
    ensures ValidItinerary(s) && ReadLocksOnly(s) && CallbacksOnlyOnAsync(s)
  {
    var s := [
      Call(first, ManagerUnbind, SyncArgs(consumerId, repoId, distributorId), ConsumerLock(consumerId),
           DefaultWeight, false, false, EntityTags(consumerId, repoId, distributorId) + [ActionTag("unbind")],
           [], [], []),
      Call(first + 1, AgentUnbind, AgentArgs(consumerId, repoId, distributorId, options), map[], 0, true, true,
           EntityTags(consumerId, repoId, distributorId) + [ActionTag("agent.unbind")], [first],
           [UnbindSucceededCallback], [UnbindFailedCallback]),
      Call(first + 2, ManagerDelete, SyncArgs(consumerId, repoId, distributorId), ConsumerLock(consumerId),
           DefaultWeight, false, false, [ResourceTag(ConsumerBindingType, bindId), ActionTag("delete")],
           [first + 1], [], [])
    ];
    ChainIsValid(s, first);
    s
  }

  /** Delete the binding at once (force), then tell the agent to unbind; no
      handler is registered since no binding record is left to update. */
  function ForcedUnbindPlan(consumerId: string, repoId: string, distributorId: string, options: Options,
                            first: nat): (s: seq<Call>)
    ensures |s| == 2 && ChainFrom(s, first)
    ensures ValidItinerary(s) && ReadLocksOnly(s)
    ensures forall i :: 0 <= i < |s| ==> s[i].onSuccess == [] && s[i].onFailure == []
  {
    var s := [
      Call(first, ManagerDelete, SyncArgs(consumerId, repoId, distributorId) + [Flag(true)],
           ConsumerLock(consumerId), DefaultWeight, false, false,
           EntityTags(consumerId, repoId, distributorId) + [ActionTag("unbind")], [], [], []),
      Call(first + 1, AgentUnbind, AgentArgs(consumerId, repoId, distributorId, options), map[], 0, true, true,
           EntityTags(consumerId, repoId, distributorId) + [ActionTag("agent.unbind")], [first], [], [])
    ];
    ChainIsValid(s, first);
    s
  }

  // -- the builders ------------------------------------------------------------

  method BindItinerary(ids: IdSource, consumerId: string, repoId: string, distributorId: string, options: Options)
    returns (callRequests: seq<CallRequest>)
    modifies ids
    ensures ids.next == old(ids.next) + |callRequests|
    ensures forall i :: 0 <= i < |callRequests| ==> fresh(callRequests[i])
    ensures Values(callRequests) == BindPlan(consumerId, repoId, distributorId, options, old(ids.next))
  {
    ghost var plan := BindPlan(consumerId, repoId, distributorId, options, ids.next);
    callRequests := [];

    // bind
    var resources := map[ConsumerType := map[consumerId := Read],
                         RepositoryType := map[repoId := Read],
                         RepositoryDistributorType := map[distributorId := Read]];
    var tags := EntityTags(consumerId, repoId, distributorId) + [ActionTag("bind")];
    var args := SyncArgs(consumerId, repoId, distributorId);
    var bindRequest := new CallRequest(ids, ManagerBind, args, resources := resources, weight := 0, tags := tags);
    callRequests := callRequests + [bindRequest];

    // notify agent
    tags := EntityTags(consumerId, repoId, distributorId) + [ActionTag("agent.bind")];
    args := AgentArgs(consumerId, repoId, distributorId, options);
    var agentRequest := new CallRequest(ids, AgentBind, args, weight := 0, asynchronous := true,
                                        archive := true, tags := tags);
    agentRequest.AddLifeCycleCallback(Success, BindSucceededCallback);
    agentRequest.AddLifeCycleCallback(Failure, BindFailedCallback);
    callRequests := callRequests + [agentRequest];
    agentRequest.DependsOn(bindRequest.id);

    assert callRequests == [bindRequest, agentRequest];
    assert bindRequest.Value() == plan[0];
    assert agentRequest.Value() == plan[1];
  }

  method UnbindItinerary(ids: IdSource, consumerId: string, repoId: string, distributorId: string, options: Options,
                         bindId: string)
    returns (callRequests: seq<CallRequest>)
    modifies ids
    ensures ids.next == old(ids.next) + |callRequests|
    ensures forall i :: 0 <= i < |callRequests| ==> fresh(callRequests[i])
    ensures Values(callRequests) == UnbindPlan(consumerId, repoId, distributorId, options, bindId, old(ids.next))
  {
    ghost var plan := UnbindPlan(consumerId, repoId, distributorId, options, bindId, ids.next);
    callRequests := [];

    // unbind
    var resources := ConsumerLock(consumerId);
    var tags := EntityTags(consumerId, repoId, distributorId) + [ActionTag("unbind")];
    var args := SyncArgs(consumerId, repoId, distributorId);
    var unbindRequest := new CallRequest(ids, ManagerUnbind, args, resources := resources, tags := tags);
    callRequests := callRequests + [unbindRequest];

    // notify agent
    tags := EntityTags(consumerId, repoId, distributorId) + [ActionTag("agent.unbind")];
    args := AgentArgs(consumerId, repoId, distributorId, options);
    var agentRequest := new CallRequest(ids, AgentUnbind, args, weight := 0, asynchronous := true,
                                        archive := true, tags := tags);
    agentRequest.AddLifeCycleCallback(Success, UnbindSucceededCallback);
    agentRequest.AddLifeCycleCallback(Failure, UnbindFailedCallback);
    callRequests := callRequests + [agentRequest];
    agentRequest.DependsOn(unbindRequest.id);

    // delete the binding
    resources := ConsumerLock(consumerId);
    tags := [ResourceTag(ConsumerBindingType, bindId), ActionTag("delete")];
    args := SyncArgs(consumerId, repoId, distributorId);
    var deleteRequest := new CallRequest(ids, ManagerDelete, args, resources := resources, tags := tags);
    callRequests := callRequests + [deleteRequest];
    deleteRequest.DependsOn(agentRequest.id);

    assert callRequests == [unbindRequest, agentRequest, deleteRequest];
    assert unbindRequest.Value() == plan[0];
    assert agentRequest.Value() == plan[1];
    assert deleteRequest.Value() == plan[2];
  }

  method ForcedUnbindItinerary(ids: IdSource, consumerId: string, repoId: string, distributorId: string,
                               options: Options)
    returns (callRequests: seq<CallRequest>)
    modifies ids
    ensures ids.next == old(ids.next) + |callRequests|
    ensures forall i :: 0 <= i < |callRequests| ==> fresh(callRequests[i])
    ensures Values(callRequests) == ForcedUnbindPlan(consumerId, repoId, distributorId, options, old(ids.next))
  {
    ghost var plan := ForcedUnbindPlan(consumerId, repoId, distributorId, options, ids.next);
    callRequests := [];

    // delete the binding (forced)
    var resources := ConsumerLock(consumerId);
    var tags := EntityTags(consumerId, repoId, distributorId) + [ActionTag("unbind")];
    var args := SyncArgs(consumerId, repoId, distributorId) + [Flag(true)];
    var deleteRequest := new CallRequest(ids, ManagerDelete, args, resources := resources, tags := tags);
    callRequests := callRequests + [deleteRequest];

    // notify agent
    tags := EntityTags(consumerId, repoId, distributorId) + [ActionTag("agent.unbind")];
    args := AgentArgs(consumerId, repoId, distributorId, options);
    var agentRequest := new CallRequest(ids, AgentUnbind, args, weight := 0, asynchronous := true,
                                        archive := true, tags := tags);
    callRequests := callRequests + [agentRequest];
    agentRequest.DependsOn(deleteRequest.id);

    assert callRequests == [deleteRequest, agentRequest];
    assert deleteRequest.Value() == plan[0];
    assert agentRequest.Value() == plan[1];
  }

  // -- properties of the itineraries -------------------------------------------

  lemma BindItineraryShape(consumerId: string, repoId: string, distributorId: string, options: Options, first: nat)
    ensures var s := BindPlan(consumerId, repoId, distributorId, options, first);
      |s| == 2 && s[0].op == ManagerBind && s[1].op == AgentBind &&
      s[0].dependencies == [] && s[1].dependencies == [s[0].id] && s[0].id != s[1].id
  {
  }

  /** The bind request read-locks all three entities and is a weightless
      synchronous call; the agent request locks nothing and is weightless,
      asynchronous and archived. */
  lemma BindLocksAndFlags(consumerId: string, repoId: string, distributorId: string, options: Options, first: nat)
    ensures var s := BindPlan(consumerId, repoId, distributorId, options, first);
      s[0].resources == map[ConsumerType := map[consumerId := Read],
                            RepositoryType := map[repoId := Read],
                            RepositoryDistributorType := map[distributorId := Read]] &&
      s[0].weight == 0 && !s[0].asynchronous && !s[0].archive &&
      s[1].resources == map[] && s[1].weight == 0 && s[1].asynchronous && s[1].archive
  {
  }

  /** The agent request of the bind and of the graceful unbind itinerary has
      exactly one handler per outcome; no other request has any. */
  lemma AgentCallbacks(consumerId: string, repoId: string, distributorId: string, options: Options,
                       bindId: string, first: nat)
    ensures var s := BindPlan(consumerId, repoId, distributorId, options, first);
      s[1].onSuccess == [BindSucceededCallback] && s[1].onFailure == [BindFailedCallback] &&
      s[0].onSuccess == [] && s[0].onFailure == []
    ensures var s := UnbindPlan(consumerId, repoId, distributorId, options, bindId, first);
      s[1].onSuccess == [UnbindSucceededCallback] && s[1].onFailure == [UnbindFailedCallback] &&
      s[0].onSuccess == s[0].onFailure == s[2].onSuccess == s[2].onFailure == []
  {
  }

  /** Graceful unbind is the chain unbind -> agent -> delete; the unbind and
      delete requests read-lock only the consumer and the delete passes no
      force flag. */
  lemma UnbindItineraryShape(consumerId: string, repoId: string, distributorId: string, options: Options,
                             bindId: string, first: nat)
    ensures var s := UnbindPlan(consumerId, repoId, distributorId, options, bindId, first);
      |s| == 3 && s[0].op == ManagerUnbind && s[1].op == AgentUnbind && s[2].op == ManagerDelete &&
      s[0].dependencies == [] && s[1].dependencies == [s[0].id] && s[2].dependencies == [s[1].id] &&
      s[0].resources == s[2].resources == map[ConsumerType := map[consumerId := Read]] &&
      s[1].resources == map[] && s[1].asynchronous && s[1].archive &&
      !s[0].asynchronous && !s[2].asynchronous &&
      s[2].args == [Str(consumerId), Str(repoId), Str(distributorId)]
  {
  }

  /** Forced unbind deletes with force, then has the agent unbind with no
      handler registered. */
  lemma ForcedUnbindShape(consumerId: string, repoId: string, distributorId: string, options: Options, first: nat)
    ensures var s := ForcedUnbindPlan(consumerId, repoId, distributorId, options, first);
      |s| == 2 && s[0].op == ManagerDelete && s[1].op == AgentUnbind &&
      s[0].args == [Str(consumerId), Str(repoId), Str(distributorId), Flag(true)] &&
      s[0].resources == map[ConsumerType := map[consumerId := Read]] && !s[0].asynchronous &&
      s[1].asynchronous && s[1].archive && s[1].resources == map[] &&
      s[0].dependencies == [] && s[1].dependencies == [s[0].id] &&
      s[1].onSuccess == [] && s[1].onFailure == []
  {
  }

  /** Bind manager requests carry (consumer, repo, distributor), the forced
      delete adds True; agent requests carry the three ids and the options,
      passed through unchanged. */
  lemma ArgumentTuples(consumerId: string, repoId: string, distributorId: string, options: Options,
                       bindId: string, first: nat)
    ensures var ids := [Str(consumerId), Str(repoId), Str(distributorId)];
      var b := BindPlan(consumerId, repoId, distributorId, options, first);
      var u := UnbindPlan(consumerId, repoId, distributorId, options, bindId, first);
      var f := ForcedUnbindPlan(consumerId, repoId, distributorId, options, first);
      b[0].args == u[0].args == u[2].args == ids && f[0].args == ids + [Flag(true)] &&
      b[1].args == u[1].args == f[1].args == ids + [Opts(options)]
  {
  }

  // -- agent completion, from itinerary to manager action ----------------------

  /** The manager actions the coordinator causes when the bind itinerary's agent
      request completes: a failure always marks the action failed; a success
      marks it succeeded or failed as the report's flag says. */
  lemma BindAgentCompletion(consumerId: string, repoId: string, distributorId: string, options: Options,
                            first: nat, report: CallReport)
    ensures var agent := BindPlan(consumerId, repoId, distributorId, options, first)[1];
      var tracked := ManagerAction(ActionFailed, Str(consumerId), Str(repoId), Str(distributorId), first + 1);
      Fire(agent, Failure, report) == [Ok(tracked)] &&
      (SucceededKey !in report.result ==> Fire(agent, Success, report) == [Err(SucceededMissing)]) &&
      (SucceededKey in report.result && report.result[SucceededKey] ==>
         Fire(agent, Success, report) == [Ok(tracked.(kind := ActionSucceeded))]) &&
      (SucceededKey in report.result && !report.result[SucceededKey] ==>
         Fire(agent, Success, report) == [Ok(tracked)])
  {
    var agent := BindPlan(consumerId, repoId, distributorId, options, first)[1];
    assert agent.Callbacks(Failure) == [BindFailedCallback];
    assert agent.Callbacks(Success) == [BindSucceededCallback];
  }

  /** The same for the graceful unbind itinerary's agent request. */
  lemma UnbindAgentCompletion(consumerId: string, repoId: string, distributorId: string, options: Options,
                              bindId: string, first: nat, report: CallReport)
    ensures var agent := UnbindPlan(consumerId, repoId, distributorId, options, bindId, first)[1];
      var tracked := ManagerAction(ActionFailed, Str(consumerId), Str(repoId), Str(distributorId), first + 1);
      Fire(agent, Failure, report) == [Ok(tracked)] &&
      (SucceededKey !in report.result ==> Fire(agent, Success, report) == [Err(SucceededMissing)]) &&
      (SucceededKey in report.result && report.result[SucceededKey] ==>
         Fire(agent, Success, report) == [Ok(tracked.(kind := ActionSucceeded))]) &&
      (SucceededKey in report.result && !report.result[SucceededKey] ==>
         Fire(agent, Success, report) == [Ok(tracked)])
  {
    var agent := UnbindPlan(consumerId, repoId, distributorId, options, bindId, first)[1];
    assert agent.Callbacks(Failure) == [UnbindFailedCallback];
    assert agent.Callbacks(Success) == [UnbindSucceededCallback];
  }

  /** No request of a forced unbind causes any manager action on completion. */
  lemma ForcedUnbindFiresNothing(consumerId: string, repoId: string, distributorId: string, options: Options,
                                 first: nat, kind: LifeCycle, report: CallReport)
    ensures var s := ForcedUnbindPlan(consumerId, repoId, distributorId, options, first);
      forall i :: 0 <= i < |s| ==> Fire(s[i], kind, report) == []
  {
  }

  // -- building again ----------------------------------------------------------

  lemma {:induction false} ChainIds(s: seq<Call>, first: nat)
    requires ChainFrom(s, first)
    ensures forall x :: x in Ids(s) <==> first <= x < first + |s|
  {
    forall x: nat | first <= x < first + |s| ensures x in Ids(s) {
      assert s[x - first].id == x;
    }
  }

  /** Building the bind itinerary again from a later id gives the same
      itinerary with every id shifted, and once the first build's ids are
      used up the two share no id. */
  lemma BindRebuild(consumerId: string, repoId: string, distributorId: string, options: Options, first: nat, k: nat)
    ensures BindPlan(consumerId, repoId, distributorId, options, first + k)
         == Shifted(BindPlan(consumerId, repoId, distributorId, options, first), k)
    ensures k >= 2 ==>
      Ids(BindPlan(consumerId, repoId, distributorId, options, first))
      !! Ids(BindPlan(consumerId, repoId, distributorId, options, first + k))
  {
    var a := BindPlan(consumerId, repoId, distributorId, options, first);
    var b := BindPlan(consumerId, repoId, distributorId, options, first + k);
    ChainIds(a, first);
    ChainIds(b, first + k);
    var shifted := Shifted(a, k);
    assert shifted[0].dependencies == [];
    assert shifted[1].dependencies == [first + k + 0];
    assert shifted == b;
  }

  lemma UnbindRebuild(consumerId: string, repoId: string, distributorId: string, options: Options,
                      bindId: string, first: nat, k: nat)
    ensures UnbindPlan(consumerId, repoId, distributorId, options, bindId, first + k)
         == Shifted(UnbindPlan(consumerId, repoId, distributorId, options, bindId, first), k)
    ensures k >= 3 ==>
      Ids(UnbindPlan(consumerId, repoId, distributorId, options, bindId, first))
      !! Ids(UnbindPlan(consumerId, repoId, distributorId, options, bindId, first + k))
  {
    var a := UnbindPlan(consumerId, repoId, distributorId, options, bindId, first);
    var b := UnbindPlan(consumerId, repoId, distributorId, options, bindId, first + k);
    ChainIds(a, first);
    ChainIds(b, first + k);
    var shifted := Shifted(a, k);
    assert shifted[0].dependencies == [];
    assert shifted[1].dependencies == [first + k + 0];
    assert shifted[2].dependencies == [first + k + 1];
    assert shifted == b;
  }

  lemma ForcedUnbindRebuild(consumerId: string, repoId: string, distributorId: string, options: Options,
                            first: nat, k: nat)
    ensures ForcedUnbindPlan(consumerId, repoId, distributorId, options, first + k)
         == Shifted(ForcedUnbindPlan(consumerId, repoId, distributorId, options, first), k)
    ensures k >= 2 ==>
      Ids(ForcedUnbindPlan(consumerId, repoId, distributorId, options, first))
      !! Ids(ForcedUnbindPlan(consumerId, repoId, distributorId, options, first + k))
  {
    var a := ForcedUnbindPlan(consumerId, repoId, distributorId, options, first);
    var b := ForcedUnbindPlan(consumerId, repoId, distributorId, options, first + k);
    ChainIds(a, first);
    ChainIds(b, first + k);
    var shifted := Shifted(a, k);
    assert shifted[0].dependencies == [];
    assert shifted[1].dependencies == [first + k + 0];
    assert shifted == b;
  }
}
