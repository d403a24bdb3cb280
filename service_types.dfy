/** Values shared by the staged group-action orchestration of a Service:
    the resources a group fans out over, the records handed to the durable
    work queue, the lifecycle events, and the view of the service tree that
    the Service gets from its mixin. */
module ServiceTypes {

  datatype Option<+T> = None | Some(value: T)

  /** An action is a method name sent to resources (`:start`, `:stop`, ...).
      Any name can travel through a queued stage, not only the four verbs. */
  type ActionName = string

  /** The events a Service raises on the event bus. */
  datatype EventName =
    | RequestServiceStart
    | ServiceStarted
    | RequestServiceStop
    | ServiceStopped
    | ServiceProvisioned

  /** The class of an attached resource, as far as this model needs it:
      `Vm` is what `kind_of?(Vm)` accepts; a template is a VmOrTemplate
      that is not a Vm. */
  datatype ResourceKind =
    | Vm
    | Template
    | NestedService
    | OtherResource(className: string)

  /** The identity of a resource (`rsc.class.name` and `rsc.id`). */
  datatype ResourceRef = ResourceRef(kind: ResourceKind, id: nat)

  /** An attached resource. `responds` is the set of actions the resource
      answers `respond_to?` for; `raises` the actions whose invocation
      raises a `StandardError`; `service` is the service a VM is currently
      connected to. */
  datatype Resource = Resource(
    kind: ResourceKind,
    id: nat,
    service: Option<nat>,
    responds: set<ActionName>,
    raises: set<ActionName>)
  {
    function Ref(): ResourceRef { ResourceRef(kind, id) }
  }

  /** A service_resources row; its `resource` is missing when the row
      points at a resource that no longer exists. */
  datatype ServiceResource = ServiceResource(resource: Option<Resource>)

  /** A VM of the service's subtree, with the name of the zone of its
      management system (None when the VM has no management system or the
      system has no zone). */
  datatype VmPlacement = VmPlacement(id: nat, zoneName: Option<string>)

  /** The `args` of a stage: `[action, group_idx, direction]`. */
  datatype StageArgs = StageArgs(action: ActionName, groupIdx: int, direction: int)

  /** The hash passed to MiqQueue.put. `deliverOn` keeps the delay in
      seconds after the put (the wall-clock instant is not modelled). */
  datatype QueueRecord = QueueRecord(
    className: string,
    instanceId: nat,
    methodName: string,
    role: string,
    taskId: string,
    args: StageArgs,
    deliverOn: Option<int>,
    zone: Option<string>)

  /** One invocation `rsc.send(action)` made on a resource. */
  datatype Call = Call(target: ResourceRef, action: ActionName)

  /** What a stage writes to the log for each resource of its group. */
  datatype LogEntry =
    | Processing(action: ActionName, target: ResourceRef, groupIdx: int)
    | Skipping(action: ActionName, target: ResourceRef, groupIdx: int)
    | ResourceError(groupIdx: int, culprit: Option<ResourceRef>)

  /** The exceptions that leave a Service method. */
  datatype Error =
    | VmAlreadyConnected(vm: ResourceRef)
    | NoZoneForFirstVm

  /** A Service method either returns normally or raises. */
  datatype Status = Ok | Raised(error: Error)

  /** What the Service learns from its mixin about its groups:
      `each_group_resource`, `next_group_index`, `last_group_index` and
      `delay_for_action`. Their implementations are not part of this model,
      so they are carried as values supplied with the service. */
  datatype GroupPlan = GroupPlan(
    eachGroupResource: int -> seq<ServiceResource>,
    nextGroupIndex: (int, int) -> Option<int>,
    lastGroupIndex: int,
    delayForAction: (int, ActionName) -> int)
}
