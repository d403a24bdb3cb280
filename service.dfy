/** A Service: one node of a service tree, and the staged group-action
    orchestration it drives. A lifecycle verb raises its request event and
    puts the first stage on the durable queue; each delivered stage fans the
    action out over one group of resources and then either queues the next
    stage or raises the run's final event.

    The durable queue, the event bus, the resources' own invocations and the
    log are outside the service; each is modelled as a sequence that the
    service only appends to. */
module Services {
  import opened ServiceTypes
  import opened TaskKey
  import opened GroupDispatch
  import opened StageRun

  const StageHandler := "process_group_action"
  const StageRole := "ems_operations"

  /** The event that ends a run of `action`: a start run ends with
      service_started, a stop run with service_stopped, any other action
      with no event. */
  function FinalProcessEvent(action: ActionName): (e: Option<EventName>)
    ensures e == Some(ServiceStarted) <==> action == "start"
    ensures e == Some(ServiceStopped) <==> action == "stop"
    ensures e.None? <==> action != "start" && action != "stop"
  {
    if action == "start" then Some(ServiceStarted)
    else if action == "stop" then Some(ServiceStopped)
    else None
  }

  function AsEvents(e: Option<EventName>): seq<EventName>
  {
    match e
    case None => []
    case Some(name) => [name]
  }

  /** The event a verb raises when it is invoked, before anything is
      queued; suspend and shutdown_guest raise none. */
  function RequestEvent(action: ActionName): (e: Option<EventName>)
    ensures e == Some(RequestServiceStart) <==> action == "start"
    ensures e == Some(RequestServiceStop) <==> action == "stop"
    ensures e.None? <==> action != "start" && action != "stop"
  {
    if action == "start" then Some(RequestServiceStart)
    else if action == "stop" then Some(RequestServiceStop)
    else None
  }

  /** A run ends with an event exactly when it began with a request event,
      and the pair matches: request_service_start is answered by
      service_started and request_service_stop by service_stopped. */
  lemma RequestAndFinalEventsPair(action: ActionName)
    ensures RequestEvent(action).Some? <==> FinalProcessEvent(action).Some?
    ensures RequestEvent(action) == Some(RequestServiceStart) <==> FinalProcessEvent(action) == Some(ServiceStarted)
    ensures RequestEvent(action) == Some(RequestServiceStop) <==> FinalProcessEvent(action) == Some(ServiceStopped)
    ensures FinalProcessEvent(action) != Some(RequestServiceStart) && FinalProcessEvent(action) != Some(RequestServiceStop)
  {
  }

  class Service {
    const id: nat
    /** `self.class.name`; a subclass of Service has its own name. */
    const className: string
    /** The ids of the ancestors, root first (the ancestry column). */
    const ancestry: seq<nat>
    /** The mixin's view of this service's groups. */
    const plan: GroupPlan
    /** `vms`: the VMs of the subtree, in the order the query returns them. */
    const vms: seq<VmPlacement>

    /** The service_resources rows attached through add_resource. */
    var attachments: seq<ServiceResource>
    /** The records this service has put on the durable queue. */
    var queue: seq<QueueRecord>
    /** The events this service has raised. */
    var events: seq<EventName>
    /** The invocations its stages have made on resources. */
    var calls: seq<Call>
    /** The lines its stages have logged. */
    var log: seq<LogEntry>

    /** Every record this service has queued is a stage of this service:
        it is addressed to this instance, carries the stage handler, the
        role and the dedup key, a delivery delay only when one is due, and
        the zone of the first VM. */
    ghost predicate Valid()
      reads this
    {
      forall rec :: rec in queue ==> IsStageRecord(rec)
    }

    constructor (id: nat, className: string, ancestry: seq<nat>, plan: GroupPlan, vms: seq<VmPlacement>)
      ensures this.id == id && this.className == className && this.ancestry == ancestry
      ensures this.plan == plan && this.vms == vms
      ensures attachments == [] && queue == [] && events == [] && calls == [] && log == []
      ensures Valid()
    {
      this.id, this.className, this.ancestry, this.plan, this.vms := id, className, ancestry, plan, vms;
      attachments, queue, events, calls, log := [], [], [], [], [];
    }

    predicate IsRoot()
    {
      ancestry == []
    }

    function ParentId(): Option<nat>
    {
      if ancestry == [] then None else Some(ancestry[|ancestry| - 1])
    }

    /** `service_id` is the parent's id, and is nil for a root. */
    function ServiceId(): (r: Option<nat>)
      ensures r.None? <==> IsRoot()
      ensures r.Some? ==> r.value == ancestry[|ancestry| - 1]
    {
      ParentId()
    }

    /** `has_parent?`: a service has a parent exactly when it is not a root,
        which is exactly when its service_id is set. */
    function HasParent(): (r: bool)
      ensures r <==> !IsRoot()
      ensures r <==> ServiceId().Some?
    {
      !IsRoot()
    }

    /** The mixin's helpers, as this service sees them. */
    function EachGroupResource(groupIdx: int): seq<ServiceResource>
    {
      plan.eachGroupResource(groupIdx)
    }

    function NextGroupIndex(groupIdx: int, direction: int): Option<int>
    {
      plan.nextGroupIndex(groupIdx, direction)
    }

    function LastGroupIndex(): int
    {
      plan.lastGroupIndex
    }

    function DelayForAction(groupIdx: int, action: ActionName): int
    {
      plan.delayForAction(groupIdx, action)
    }

    /** The first VM of the subtree, if any, has a zone to route to. */
    predicate ZoneResolvable()
    {
      |vms| == 0 || vms[0].zoneName.Some?
    }

    /** The zone hint of a stage: the first VM's zone, none without VMs. */
    function ZoneHint(): Option<string>
    {
      if |vms| == 0 then None else vms[0].zoneName
    }

    /** The fixed part of every stage record of this service. */
    predicate IsStageRecord(rec: QueueRecord)
    {
      && rec.className == className
      && rec.instanceId == id
      && rec.methodName == StageHandler
      && rec.role == StageRole
      && rec.taskId == TaskId(className, id)
      && (rec.deliverOn.Some? ==> rec.deliverOn.value > 0)
      && rec.zone == ZoneHint()
    }

    /** The queue grew by one stage record of this service carrying `args`,
        to be delivered `deliverDelay` seconds later when that is positive
        and at once otherwise. */
    twostate predicate AppendedStage(args: StageArgs, deliverDelay: int)
      reads this
    {
      && |queue| == |old(queue)| + 1
      && queue[..|old(queue)|] == old(queue)
      && IsStageRecord(queue[|queue| - 1])
      && queue[|queue| - 1].args == args
      && queue[|queue| - 1].deliverOn == (if deliverDelay > 0 then Some(deliverDelay) else None)
    }

    /** The outcome of queueing a stage: it is queued when the first VM's
        zone can be read; otherwise the lookup raises and nothing is
        queued. */
    twostate predicate QueuedStage(args: StageArgs, deliverDelay: int, st: Status)
      reads this
    {
      && (st.Ok? <==> ZoneResolvable())
      && (st.Raised? ==> st == Raised(NoZoneForFirstVm) && queue == old(queue))
      && (st.Ok? ==> AppendedStage(args, deliverDelay))
    }

    /** `queue_group_action`: build the stage record and put it on the
        durable queue. Validation of the resources does nothing. */
    method QueueGroupAction(action: ActionName, groupIdx: int, direction: int, deliverDelay: int)
      returns (st: Status)
      requires Valid()
      modifies this`queue
      ensures Valid()
      ensures QueuedStage(StageArgs(action, groupIdx, direction), deliverDelay, st)
    {
      var rec := QueueRecord(className, id, StageHandler, StageRole, TaskId(className, id),
        StageArgs(action, groupIdx, direction), None, None);
      if deliverDelay > 0 {
        rec := rec.(deliverOn := Some(deliverDelay));
      }
      if |vms| > 0 {
        var firstVm := vms[0];
        if firstVm.zoneName.None? {
          return Raised(NoZoneForFirstVm);
        }
        rec := rec.(zone := firstVm.zoneName);
      }
      queue := queue + [rec];
      st := Ok;
    }

    /** `MiqEvent.raise_evm_event(self, name)`. */
    method RaiseEvmEvent(name: EventName)
      modifies this`events
      ensures events == old(events) + [name]
    {
      events := events + [name];
    }

    method RaiseRequestStartEvent()
      modifies this`events
      ensures events == old(events) + [RequestServiceStart]
    {
      RaiseEvmEvent(RequestServiceStart);
    }

    method RaiseStartedEvent()
      modifies this`events
      ensures events == old(events) + [ServiceStarted]
    {
      RaiseEvmEvent(ServiceStarted);
    }

    method RaiseRequestStopEvent()
      modifies this`events
      ensures events == old(events) + [RequestServiceStop]
    {
      RaiseEvmEvent(RequestServiceStop);
    }

    method RaiseStoppedEvent()
      modifies this`events
      ensures events == old(events) + [ServiceStopped]
    {
      RaiseEvmEvent(ServiceStopped);
    }

    method RaiseProvisionedEvent()
      modifies this`events
      ensures events == old(events) + [ServiceProvisioned]
    {
      RaiseEvmEvent(ServiceProvisioned);
    }

    /** `raise_final_process_event`: the event that ends a run of
        `action`, if that action has one. */
    method RaiseFinalProcessEvent(action: ActionName)
      modifies this`events
      ensures events == old(events) + AsEvents(FinalProcessEvent(action))
    {
      if action == "start" {
        RaiseStartedEvent();
      } else if action == "stop" {
        RaiseStoppedEvent();
      }
    }

    /** `start`: request, then queue the first stage at group 0, walking
        up, for immediate delivery. */
    method Start() returns (st: Status)
      requires Valid()
      modifies this`queue, this`events
      ensures Valid()
      ensures events == old(events) + AsEvents(RequestEvent("start"))
      ensures QueuedStage(StageArgs("start", 0, 1), 0, st)
    {
      RaiseRequestStartEvent();
      st := QueueGroupAction("start", 0, 1, 0);
    }

    /** `stop`: request, then queue the first stage at the last group,
        walking down. */
    method Stop() returns (st: Status)
      requires Valid()
      modifies this`queue, this`events
      ensures Valid()
      ensures events == old(events) + AsEvents(RequestEvent("stop"))
      ensures QueuedStage(StageArgs("stop", LastGroupIndex(), -1), 0, st)
    {
      RaiseRequestStopEvent();
      st := QueueGroupAction("stop", LastGroupIndex(), -1, 0);
    }

    /** `suspend`: queue the first stage at the last group, walking down;
        no event. */
    method Suspend() returns (st: Status)
      requires Valid()
      modifies this`queue
      ensures Valid()
      ensures events == old(events) + AsEvents(RequestEvent("suspend"))
      ensures QueuedStage(StageArgs("suspend", LastGroupIndex(), -1), 0, st)
    {
      st := QueueGroupAction("suspend", LastGroupIndex(), -1, 0);
    }

    /** `shutdown_guest`: as suspend, with the shutdown_guest action. */
    method ShutdownGuest() returns (st: Status)
      requires Valid()
      modifies this`queue
      ensures Valid()
      ensures events == old(events) + AsEvents(RequestEvent("shutdown_guest"))
      ensures QueuedStage(StageArgs("shutdown_guest", LastGroupIndex(), -1), 0, st)
    {
      st := QueueGroupAction("shutdown_guest", LastGroupIndex(), -1, 0);
    }

    /** The `each_group_resource` block of `process_group_action`: every
        resource of the group is handled on its own. It is invoked when it
        responds to the action and skipped otherwise; a `StandardError`,
        raised by the invocation or by a missing resource, is logged and
        swallowed. */
    method DispatchGroup(action: ActionName, groupIdx: int)
      modifies this`calls, this`log
      ensures calls == old(calls) + Invoked(action, EachGroupResource(groupIdx))
      ensures log == old(log) + DispatchLog(action, groupIdx, EachGroupResource(groupIdx))
    {
      var group := EachGroupResource(groupIdx);
      var made: seq<Call> := [];
      var written: seq<LogEntry> := [];
      for k := 0 to |group|
        invariant made == Invoked(action, group[..k])
        invariant written == DispatchLog(action, groupIdx, group[..k])
        invariant calls == old(calls) && log == old(log)
      {
        DispatchOneMore(action, groupIdx, group, k);
        match group[k].resource
        case None =>
          // reading the id of a missing resource raises; the error is logged
          written := written + [ResourceError(groupIdx, None)];
        case Some(rsc) =>
          if action in rsc.responds {
            written := written + [Processing(action, rsc.Ref(), groupIdx)];
            made := made + [Call(rsc.Ref(), action)];
            if action in rsc.raises {
              written := written + [ResourceError(groupIdx, Some(rsc.Ref()))];
            }
          } else {
            written := written + [Skipping(action, rsc.Ref(), groupIdx)];
          }
      }
      assert group[..|group|] == group;
      assert made == Invoked(action, group) && written == DispatchLog(action, groupIdx, group);
      calls := calls + made;
      log := log + written;
    }

    /** `process_group_action`: one stage. The group is dispatched whatever
        its resources do; then the next stage is queued, with the mixin's
        delay for it, or the run's final event raised when there is no next
        group. */
    method ProcessGroupAction(action: ActionName, groupIdx: int, direction: int) returns (st: Status)
      requires Valid()
      modifies this`queue, this`events, this`calls, this`log
      ensures Valid()
      ensures calls == old(calls) + Invoked(action, EachGroupResource(groupIdx))
      ensures log == old(log) + DispatchLog(action, groupIdx, EachGroupResource(groupIdx))
      ensures NextGroupIndex(groupIdx, direction).None? ==>
        && st == Ok
        && queue == old(queue)
        && events == old(events) + AsEvents(FinalProcessEvent(action))
      ensures NextGroupIndex(groupIdx, direction).Some? ==>
        var next := NextGroupIndex(groupIdx, direction).value;
        && events == old(events)
        && QueuedStage(StageArgs(action, next, direction), DelayForAction(next, action), st)
    {
      DispatchGroup(action, groupIdx);

      var next := NextGroupIndex(groupIdx, direction);
      if next.None? {
        RaiseFinalProcessEvent(action);
        st := Ok;
      } else {
        st := QueueGroupAction(action, next.value, direction, DelayForAction(next.value, action));
      }
    }

    /** A whole run as the durable queue drives it: the stage at
        `groupIdx` is processed, and then each stage it queues is delivered
        once, in order, until a stage finds no next group. The run visits
        the groups of `RunFrom`, makes their invocations and writes their log
        lines in that order, queues one stage per later group with the same
        action and direction, and ends with the action's final event. */
    method DeliverRun(action: ActionName, groupIdx: int, direction: int) returns (st: Status)
      requires Valid() && WalksInDirection(plan) && IsDirection(direction)
      requires 0 <= groupIdx <= LastGroupIndex()
      requires ZoneResolvable()
      modifies this`queue, this`events, this`calls, this`log
      ensures Valid() && st == Ok
      ensures var run := RunFrom(plan, groupIdx, direction);
        && calls == old(calls) + InvokedAlong(plan, action, run)
        && log == old(log) + DispatchLogAlong(plan, action, run)
        && events == old(events) + AsEvents(FinalProcessEvent(action))
        && StagesQueued(old(queue), queue, action, run[1..], direction)
      decreases Remaining(plan, groupIdx, direction)
    {
      RunStep(plan, groupIdx, direction);
      AlongRunStep(plan, action, groupIdx, direction);
      ghost var c0, l0 := calls, log;
      ghost var stageCalls := Invoked(action, EachGroupResource(groupIdx));
      ghost var stageLog := DispatchLog(action, groupIdx, EachGroupResource(groupIdx));
      var next := NextGroupIndex(groupIdx, direction);
      st := ProcessGroupAction(action, groupIdx, direction);
      if next.Some? {
        ghost var q1, c1, l1 := queue, calls, log;
        ghost var rest := RunFrom(plan, next.value, direction);
        assert StagesQueued(old(queue), q1, action, [next.value], direction);
        // deliver the stage that was just queued
        var stage := queue[|queue| - 1];
        assert stage.args == StageArgs(action, next.value, direction);
        st := DeliverRun(stage.args.action, stage.args.groupIdx, stage.args.direction);
        StagesQueuedChain(old(queue), q1, queue, action, next.value, rest[1..], direction);
        assert [next.value] + rest[1..] == rest;
        AppendAssoc(c0, stageCalls, InvokedAlong(plan, action, rest));
        AppendAssoc(l0, stageLog, DispatchLogAlong(plan, action, rest));
      }
    }

    /** `add_resource`: a VM that is already connected to a service is
        refused and nothing is attached; any other resource is attached. */
    method AddResource(rsc: Resource) returns (st: Status)
      modifies this`attachments
      ensures st.Raised? <==> rsc.kind == Vm && rsc.service.Some?
      ensures st.Raised? ==> st.error == VmAlreadyConnected(rsc.Ref()) && attachments == old(attachments)
      ensures st.Ok? ==> attachments == old(attachments) + [ServiceResource(Some(rsc))]
    {
      if rsc.kind == Vm && rsc.service.Some? {
        return Raised(VmAlreadyConnected(rsc.Ref()));
      }
      attachments := attachments + [ServiceResource(Some(rsc))];
      st := Ok;
    }
  }
}
