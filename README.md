# Binding itineraries

A Dafny model of the binding protocol's itineraries in Pulp's server
(`platform/src/pulp/server/itineraries/bind.py`). A binding ties a consumer
to a repository's distributor. The server records the binding and then has
the consumer's agent act on it asynchronously. Each protocol is submitted to
the dispatch coordinator as one itinerary: an ordered list of call requests.
Each request names a manager operation and its positional arguments, and
carries resource locks, a weight, the asynchronous and archive flags, tags,
the ids it depends on and lifecycle callbacks per outcome.

- `call_request.dfy` (module `CallRequests`): a small call request model.
  `CallRequest` is a class. Its descriptive fields are constants. Its
  dependencies and callback lists are fields that `DependsOn` and
  `AddLifeCycleCallback` append to. Its constructor takes the next id from an
  `IdSource` counter. `Call` is a request's value. Manager operations,
  lock operations, resource types and callback names are closed datatypes.
- `itinerary.dfy` (module `Itineraries`): what makes an itinerary well formed.
  `ValidItinerary` is the incremental view: each appended request has a fresh
  id and depends only on requests already present. `Topological` is the
  global view: ids are unique and every dependency points backwards.
  `ChainFrom` is the shape all three builders produce.
- `bind.dfy` (module `Bind`): the four lifecycle handlers as functions from a
  request and a completion report to a bind manager action. It also has the
  three plans (`BindPlan`, `UnbindPlan`, `ForcedUnbindPlan`), the builder
  methods that construct and mutate `CallRequest` objects step by step, and
  the lemmas about them.

Each builder method is proved to produce exactly its plan (`Values(callRequests)
== …Plan(…, old(ids.next))`). Each plan is proved to be a valid, read-locked
chain. Lemmas state the shape, locks, flags, arguments and callbacks of every
node. They also state what the coordinator's firing of the registered handlers
does for each outcome. Building again gives the same itinerary with shifted
ids, and the two builds share no id.

## Model

| member | source | states |
|---|---|---|
| CallRequests.CallRequest.constructor | platform/src/pulp/server/itineraries/bind.py:103-108 | a new request takes the next id, stores the given operation, arguments, locks, weight, flags and tags; omitted options default to no locks, default weight, synchronous, not archived, no tags; no dependencies or callbacks yet |
| CallRequests.CallRequest.DependsOn | platform/src/pulp/server/itineraries/bind.py:146 | appends the given id to the dependencies and changes nothing else |
| CallRequests.CallRequest.AddLifeCycleCallback | platform/src/pulp/server/itineraries/bind.py:136-142 | appends the handler to the list of the given outcome only; the other list and all other fields are unchanged |
| Itineraries.ValidIffTopological | platform/src/pulp/server/itineraries/bind.py:194-267 | building by appending requests with fresh ids that depend only on earlier ones is equivalent to unique ids plus every dependency naming an earlier request (the list order is a topological order) |
| Itineraries.ChainIsValid | platform/src/pulp/server/itineraries/bind.py:234-267 | a chain with consecutive ids where each request depends exactly on its predecessor is a valid itinerary |
| Bind.BindSucceeded | platform/src/pulp/server/itineraries/bind.py:25-37 | with four unpackable arguments and a 'succeeded' entry, emits exactly one action on (args[0], args[1], args[2], request id): action_succeeded iff the flag is true, action_failed otherwise; raises when the arguments do not unpack or the entry is missing |
| Bind.BindFailed | platform/src/pulp/server/itineraries/bind.py:39-47 | emits action_failed on (args[0], args[1], args[2], request id) whenever the arguments unpack into four values, and raises otherwise |
| Bind.UnbindHandlersAreBindHandlers | platform/src/pulp/server/itineraries/bind.py:49-52 | the unbind-succeeded and unbind-failed handlers behave exactly as the bind ones |
| Bind.FalseSuccessIsFailure | platform/src/pulp/server/itineraries/bind.py:34-47 | a success report whose flag is false has the same effect as an explicit failure, and the failure handler's effect does not depend on the report |
| Bind.BindPlan | platform/src/pulp/server/itineraries/bind.py:58-148 | the bind plan has two requests forming a chain from the first id, is a valid itinerary, requests only read locks, and registers callbacks only on the asynchronous request |
| Bind.UnbindPlan | platform/src/pulp/server/itineraries/bind.py:151-269 | the graceful unbind plan has three requests forming a chain, is valid, requests only read locks, and registers callbacks only on the asynchronous request |
| Bind.ForcedUnbindPlan | platform/src/pulp/server/itineraries/bind.py:272-356 | the forced unbind plan has two requests forming a chain, is valid, requests only read locks, and registers no callback on any request |
| Bind.BindItinerary | platform/src/pulp/server/itineraries/bind.py:58-148 | the builder returns fresh request objects whose values are exactly the bind plan starting at the counter's id, and advances the counter by the number of requests |
| Bind.UnbindItinerary | platform/src/pulp/server/itineraries/bind.py:151-269 | the builder returns fresh request objects whose values are exactly the graceful unbind plan, and advances the counter by the number of requests |
| Bind.ForcedUnbindItinerary | platform/src/pulp/server/itineraries/bind.py:272-356 | the builder returns fresh request objects whose values are exactly the forced unbind plan, and advances the counter by the number of requests |
| Bind.BindItineraryShape | platform/src/pulp/server/itineraries/bind.py:103-148 | two requests, a bind manager bind then an agent bind, and the agent request's dependencies are exactly the bind request's id |
| Bind.BindLocksAndFlags | platform/src/pulp/server/itineraries/bind.py:81-134 | the bind request read-locks the consumer, repository and distributor ids, weighs 0 and is synchronous and not archived; the agent request locks nothing, weighs 0, and is asynchronous and archived |
| Bind.AgentCallbacks | platform/src/pulp/server/itineraries/bind.py:136-232 | the agent request has exactly (bind_succeeded, bind_failed) in the bind itinerary and (unbind_succeeded, unbind_failed) in the graceful unbind; every other request has none |
| Bind.UnbindItineraryShape | platform/src/pulp/server/itineraries/bind.py:176-267 | three requests chained unbind -> agent unbind -> delete; unbind and delete read-lock only the consumer; the agent request is asynchronous and archived; the delete's arguments are the three ids with no force flag |
| Bind.ForcedUnbindShape | platform/src/pulp/server/itineraries/bind.py:312-354 | two requests: a delete with arguments (consumer, repo, distributor, True) locking the consumer, then an asynchronous archived agent unbind that depends on it and has no lifecycle callbacks |
| Bind.ArgumentTuples | platform/src/pulp/server/itineraries/bind.py:97-341 | every bind manager request carries (consumer, repo, distributor), the forced delete additionally True, and every agent request carries (consumer, repo, distributor, options) with the options unchanged |
| Bind.BindAgentCompletion | platform/src/pulp/server/itineraries/bind.py:136-142 | when the bind agent request fails the only effect is action_failed for the binding and that request's id; when it succeeds the only effect is action_succeeded if the report's flag is true, action_failed if false, and an error if the flag is missing |
| Bind.UnbindAgentCompletion | platform/src/pulp/server/itineraries/bind.py:226-232 | the same outcome-to-action mapping for the graceful unbind's agent request |
| Bind.ForcedUnbindFiresNothing | platform/src/pulp/server/itineraries/bind.py:343-354 | no request of the forced unbind causes any manager action on either outcome |
| Bind.BindRebuild | platform/src/pulp/server/itineraries/bind.py:103-146 | building the bind itinerary from a later id gives the same itinerary with every id and dependency shifted, and two builds at least two ids apart share no id |
| Bind.UnbindRebuild | platform/src/pulp/server/itineraries/bind.py:194-267 | the same for the graceful unbind itinerary, with three ids per build |
| Bind.ForcedUnbindRebuild | platform/src/pulp/server/itineraries/bind.py:319-354 | the same for the forced unbind itinerary, with two ids per build |

## Left out

- Manager lookups through the process-wide factory are not modelled. A request names its manager operation through the `Op` datatype.
- `bind_manager.get_bind` (bind.py:240-241) is a database read. The model does not perform it. `UnbindItinerary` takes the stored binding's id as the parameter `bindId` instead. That id appears only in the delete request's tag. A failing lookup, which raises in the source, is not modelled.
- Tags are structured values (`ResourceTag`, `ActionTag`). The strings that `resource_tag` and `action_tag` render are not modelled, because that code is not part of this model.
- The dispatch coordinator is left out: scheduling, lock enforcement, asynchronous completion delivery and its concurrency. `Fire` only says which registered handlers run for an outcome, and in what order. The source's dependencies wait for any terminal state of the predecessor, not only success. The model records the edges but does not execute them.
- The call request class lies outside bind.py and is not part of this model. Only the fields that bind.py uses are modelled. Each request gets a unique id when it is built; the model draws ids from a counter. `DefaultWeight` is the weight a request gets when the builder passes none, and the model assumes it is 0. bind.py points the other way: it passes `weight=0` explicitly at bind.py:107, 131, 221 and 346, but no weight for the unbind, delete and forced delete requests at bind.py:194-198, 259-263 and 319-323. An explicit 0 would be needless if the default were already 0, so those three requests may really weigh more. No lemma states the weight of a request built without one. The other constructor defaults the model assumes are: synchronous, not archived, no resources and no tags. `BindLocksAndFlags`, `UnbindItineraryShape` and `ForcedUnbindShape` rely on these defaults when they state `!asynchronous` or `!archive` for requests built without those arguments.
- Options are modelled as `map<string, string>`. Each handler takes the request's value, the request being frozen once handed to the coordinator. The dispatch report's 'succeeded' entry is a boolean. Python truthiness of other values, and a report result that is not a dictionary, are not modelled.
- Exceptions raised inside the manager calls (`action_succeeded`, `action_failed` and the bound operations) are not modelled.
- Logging is not modelled.
- The error code catalogue (`common/pulp/common/error_codes.py`) is static data that bind.py does not use, so it is not modelled.
