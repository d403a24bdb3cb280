# Staged group actions of a Service

This project models the lifecycle orchestration of a `Service`, a node of a
service tree in the ManageIQ application (`app/models/service.rb`). A verb
(`start`, `stop`, `suspend`, `shutdown_guest`) is not run in one call stack.
It is cut into stages, one per group of attached resources:

- the verb raises its request event, if it has one, and puts the first stage
  on the durable work queue (`MiqQueue`);
- `queue_group_action` builds the queue record: the stage handler name
  `process_group_action`, the role `ems_operations`, the dedup key
  `<underscored class name>_<id>`, the arguments `[action, group_idx,
  direction]`, a delivery delay only when it is positive, and the zone of the
  first VM of the subtree;
- when the queue delivers a stage, `process_group_action` sends the action to
  every resource of the group that responds to it, skips the others, and logs
  and swallows each resource's `StandardError`. It then asks the mixin for the next
  group: if there is one, the same action and direction are queued for it with
  the mixin's delay; if not, the run's final event is raised (`service_started`
  for start, `service_stopped` for stop, nothing otherwise).

The durable queue, the event bus, the log and the resources' own behaviour are
outside the service. Each is a sequence that the `Service` object only appends
to: `queue` (records put on the queue), `events`, `log`, and `calls` (the
invocations made on resources). The mixin that partitions the tree into groups
(`each_group_resource`, `next_group_index`, `last_group_index`,
`delay_for_action`) is not part of this model. Its answers are supplied with
the service as a `GroupPlan` value. The run-level lemmas assume only what the
stage scheduler needs of it (`StageRun.WalksInDirection`): indices start at 0,
and each next index lies in `[0, last_group_index]`, strictly further in the
walk's direction.

Files:

- `service_types.dfy`: resources, queue records, events, log lines, errors,
  the `GroupPlan` view of the mixin.
- `task_key.dfy`: the dedup key. It covers `String#underscore` on class names
  and `Integer#to_s`.
- `group_dispatch.dfy`: what one stage does to its group, as functions, with
  the isolation lemmas.
- `stage_run.dfy`: the sequence of groups a whole run visits, with ordering
  lemmas.
- `service.dfy`: the `Service` class with the verbs, the stage handler,
  `queue_group_action`, the event helpers and `add_resource`.

What the code does at the ends of a run and around the queue record:

- A stop run ends with `service_stopped`, and a start run with
  `service_started`; other actions end with no event
  (`app/models/service.rb:185-190`).
- `validate_resources` has its body commented out, so queueing a stage checks
  nothing about the resources (`app/models/service.rb:169-174`).
- A stage with a non-positive delay carries no `deliver_on` at all
  (`app/models/service.rb:162`).
- `start` begins at group 0 walking up; `stop`, `suspend` and `shutdown_guest`
  begin at `last_group_index` walking down (`app/models/service.rb:107-123`).

Two Ruby edge cases are modelled as error paths:

- A service resource whose resource is missing makes `rsc.id` raise. That
  error is rescued: it is logged and nothing is invoked.
- When the first VM has no management system or zone, the zone lookup raises
  out of `queue_group_action` and nothing is queued. In a stage, the
  dispatch has already happened by then.

## Model

| member | source | states |
|---|---|---|
| `Services.Service.Start` | app/models/service.rb:107-110 | raises its request event `RequestEvent("start")`, request_service_start, then queues exactly one stage `["start", 0, 1]` with no delivery delay (or raises, queueing nothing, when the first VM's zone cannot be read) |
| `Services.Service.Stop` | app/models/service.rb:112-115 | raises its request event `RequestEvent("stop")`, request_service_stop, then queues one stage `["stop", last_group_index, -1]` with no delay |
| `Services.Service.Suspend` | app/models/service.rb:117-119 | raises no event (`RequestEvent("suspend")` is none); queues one stage `["suspend", last_group_index, -1]` with no delay |
| `Services.Service.ShutdownGuest` | app/models/service.rb:121-123 | raises no event (`RequestEvent("shutdown_guest")` is none); queues one stage `["shutdown_guest", last_group_index, -1]` with no delay |
| `Services.Service.DispatchGroup` | app/models/service.rb:126-139 | the invocations made are exactly `Invoked` of the group and the lines logged exactly `DispatchLog` of the group; nothing else changes |
| `Services.Service.ProcessGroupAction` | app/models/service.rb:125-148 | dispatches the group whatever its resources do; with no next group, queues nothing and raises the action's final event; otherwise raises no event and queues exactly one stage with the next index, the same action and direction, and `delay_for_action(next, action)` |
| `Services.Service.QueueGroupAction` | app/models/service.rb:150-167 | appends one record with the stage handler, the role, the dedup key, args `[action, group_idx, direction]`, `deliver_on` only when the delay is positive and the first VM's zone (`ZoneHint`, none without VMs); raises and appends nothing when that zone cannot be read; keeps every queued record a stage record of this service (`Valid`) |
| `Services.Service.RaiseFinalProcessEvent` | app/models/service.rb:185-190 | appends service_started for "start", service_stopped for "stop", and nothing for any other action |
| `Services.FinalProcessEvent` | app/models/service.rb:185-190 | the final event is service_started exactly for "start", service_stopped exactly for "stop", and none exactly for every other action |
| `Services.RequestEvent` | app/models/service.rb:107-123 | the request event is request_service_start exactly for "start", request_service_stop exactly for "stop", and none exactly for suspend, shutdown_guest and every other action |
| `Services.RequestAndFinalEventsPair` | app/models/service.rb:185-206 | an action has a final event exactly when its verb raises a request event, and they pair up: request_service_start with service_started, request_service_stop with service_stopped |
| `Services.Service.RaiseEvmEvent` | app/models/service.rb:192-210 | appends the named event to the event log and changes nothing else |
| `Services.Service.RaiseRequestStartEvent` | app/models/service.rb:192-194 | appends request_service_start |
| `Services.Service.RaiseStartedEvent` | app/models/service.rb:196-198 | appends service_started |
| `Services.Service.RaiseRequestStopEvent` | app/models/service.rb:200-202 | appends request_service_stop |
| `Services.Service.RaiseStoppedEvent` | app/models/service.rb:204-206 | appends service_stopped |
| `Services.Service.RaiseProvisionedEvent` | app/models/service.rb:208-210 | appends service_provisioned |
| `Services.Service.AddResource` | app/models/service.rb:49-54 | fails with an error and attaches nothing exactly when the resource is a VM already connected to a service; otherwise attaches it |
| `Services.Service.ServiceId` | app/models/service.rb:60-62 | nil exactly for a root; otherwise the id of the parent (the last ancestor) |
| `Services.Service.HasParent` | app/models/service.rb:65-67 | true exactly when the service is not a root, which is exactly when `service_id` is set |
| `Services.Service.DeliverRun` | app/models/service.rb:141-147 | when each queued stage is delivered once, the run processes the groups of `RunFrom` in order, makes their invocations and writes their log lines in that order, queues one stage per later group with the same action and direction, and ends with the action's final event |
| `GroupDispatch.InvokedExactlyResponders` | app/models/service.rb:130-135 | an action is invoked on a resource of the group if and only if that resource exists and responds to it |
| `GroupDispatch.InvokedIgnoresFailures` | app/models/service.rb:127-138 | which resources raise never changes which resources are invoked or their order: one failure does not stop the others |
| `GroupDispatch.EveryFailureLogged` | app/models/service.rb:136-137 | a stage logs exactly one error line per resource that is missing or whose invocation raises |
| `StageRun.RunIsMonotone` | app/models/service.rb:141-147 | every group of a run lies in `[0, last_group_index]` and the run moves strictly in its direction |
| `StageRun.RunIsShort` | app/models/service.rb:141-147 | a run has at most as many stages as there are groups left in its direction |
| `StageRun.RunOrder` | app/models/service.rb:107-123 | a start run begins at group 0 and ascends, a stop-class run begins at `last_group_index` and descends, and no run exceeds `last_group_index + 1` stages |
| `TaskKey.TaskIdDeterminesService` | app/models/service.rb:159 | two services of one class with the same dedup key have the same id |
| `TaskKey.TaskIdShape` | app/models/service.rb:159 | the key `TaskId(class name, id)` is the lower-case class part, `_`, then the decimal digits of the id, which read back as the id |
| `TaskKey.DecimalRoundTrip` | app/models/service.rb:159 | reading back the decimal rendering of an id gives the id |
| `TaskKey.DecimalString` | app/models/service.rb:159 | the rendering of an id is a non-empty string of decimal digits |
| `TaskKey.Underscore` | app/models/service.rb:159 | the underscored class name has no upper-case letter |
| `TaskKey.UnderscoreLength` | app/models/service.rb:159 | the underscored name is as long as the name plus its number of word starts (an upper-case letter right after a lower-case letter or a digit): one `_` per word start |
| `TaskKey.UnderscoreWithoutBoundaries` | app/models/service.rb:159 | a name without word starts is only lower-cased |
| `TaskKey.UnderscorePrefix` | app/models/service.rb:159 | underscoring a prefix of a name gives a prefix of the underscored name |
| `TaskKey.UnderscorePlacement` | app/models/service.rb:159 | the lower-cased `s[i]` sits at `i` plus the number of word starts up to `i`; it is preceded by `_` when `i` starts a word and by the lower-cased `s[i - 1]` otherwise |
| `TaskKey.UnderscoreOnlyAddsSeparators` | app/models/service.rb:159 | with its underscores removed, the underscored name is the lower-cased name: underscoring only inserts separators |

## Left out

- `MiqQueue.put`, `MiqEvent.raise_evm_event` and `_log` are appends to sequences. Queue persistence, the event bus and log message text are not modelled.
- `deliver_on` holds the delay in seconds rather than a wall-clock instant.
- `each_group_resource`, `next_group_index`, `last_group_index` and `delay_for_action` come from ServiceMixin, which is not part of this model. Their answers are supplied as a `GroupPlan`, and so is `DEFAULT_PROCESS_DELAY_BETWEEN_GROUPS`, which only that mixin reads.
- StageRun.RunOrder: the stated order holds only for a `GroupPlan` that satisfies `WalksInDirection`, since the mixin's own guarantees are not visible here. The same holds for `RunIsMonotone`, `RunIsShort` and `DeliverRun`.
- Services.Service.DeliverRun: covers only services whose first VM's zone can be read. Otherwise a run stalls at its first hand-off, and `ProcessGroupAction` states that case.
- Services.Service.DispatchGroup: every failure of a resource is a `StandardError`, which `rescue => err` catches. An exception outside `StandardError` (`NotImplementedError`, `Interrupt`) escapes the block and aborts the stage, leaving later resources of the group uninvoked. That case is not modelled.
- Services.Service.ProcessGroupAction: an exception that escapes the dispatch would also skip the hand-off, so neither the next stage nor the final event would follow. The model has no such exception, so every stage hands off.
- GroupDispatch.InvokedIgnoresFailures: the isolation it states holds for rescued failures (`StandardError`) only. A failure outside `StandardError` would end the fan-out at that resource.
- TaskKey.Underscore: implements only ActiveSupport's rule that puts `_` between a lower-case letter or digit and an upper-case letter, then lower-cases. Where the separators go is stated by `UnderscoreLength` and `UnderscorePlacement`. The acronym rule, `::` → `/` and `-` → `_` are not modelled.
- Services.Service.AddResource: the inherited `add_resource` (ServiceMixin) is modelled as appending one attachment. Its `options`, its lookup of existing rows and its database writes are not modelled. The VM's current service is an input, and attaching does not update that input. The attachments are not linked to the `GroupPlan`.
- `validate_resources` is a no-op (its body is commented out), so it has no member.
- The ORM and ancestry queries are not modelled. This covers `descendants`, `subtree`, `direct_vms`, `all_vms`, `vms`, `v_total_vms` and the deprecated `indirect_*` methods. The subtree's VMs are a snapshot given to the service, and the ancestry is a list of ids.
- Tenancy is not modelled: `set_tenant_from_group` and `tenant_identity`.
- Reconfiguration is not modelled: `validate_reconfigure`, `reconfigure_resource_action`, `request_class` and `request_type`.
- Associations and virtual columns are not modelled.
- The log's resource name (`rsc_name`) and the service name are not modelled. Log lines carry the resource's kind and id.
- Concurrency, at-least-once delivery and deduplication of queued stages are the queue's concern and are not modelled.
- Changes to the tree while a run is in flight are not modelled.
- Ids are natural numbers. An unsaved service (nil id) is not modelled.
- `app/presenters/tree_builder_configuration_manager_configured_systems.rb` and `app/controllers/container_topology_controller.rb` are UI and controller code and are not part of this model.
