/** What one stage does to the resources of its group: each resource is
    handled on its own; a resource that does not respond to the action is
    skipped, one whose invocation raises a `StandardError` is logged and the
    fan-out goes on, and a missing resource is logged as an error. */
module GroupDispatch {
  import opened ServiceTypes

  /** The resource of an attachment exists and responds to `action`. */
  predicate RespondsTo(sr: ServiceResource, action: ActionName)
  {
    sr.resource.Some? && action in sr.resource.value.responds
  }

  /** The attachment's resource is missing, or responds to `action` and
      raises when it is invoked. */
  predicate FailsOn(sr: ServiceResource, action: ActionName)
  {
    sr.resource.None? || (RespondsTo(sr, action) && action in sr.resource.value.raises)
  }

  /** The invocation one attachment gives rise to. */
  function CallsFor(action: ActionName, sr: ServiceResource): seq<Call>
  {
    if RespondsTo(sr, action) then [Call(sr.resource.value.Ref(), action)] else []
  }

  /** The invocations a stage makes over `group`, in group order. */
  function Invoked(action: ActionName, group: seq<ServiceResource>): seq<Call>
  {
    if group == [] then []
    else Invoked(action, group[..|group| - 1]) + CallsFor(action, group[|group| - 1])
  }

  /** The log lines one attachment gives rise to. */
  function EntriesFor(action: ActionName, groupIdx: int, sr: ServiceResource): seq<LogEntry>
  {
    match sr.resource
    case None => [ResourceError(groupIdx, None)]
    case Some(r) =>
      if action in r.responds then
        [Processing(action, r.Ref(), groupIdx)]
          + (if action in r.raises then [ResourceError(groupIdx, Some(r.Ref()))] else [])
      else [Skipping(action, r.Ref(), groupIdx)]
  }

  /** The log lines a stage writes over `group`, in group order. */
  function DispatchLog(action: ActionName, groupIdx: int, group: seq<ServiceResource>): seq<LogEntry>
  {
    if group == [] then []
    else DispatchLog(action, groupIdx, group[..|group| - 1]) + EntriesFor(action, groupIdx, group[|group| - 1])
  }

  /** Handling one more attachment extends the invocations and the log by
      that attachment's share. */
  lemma DispatchOneMore(action: ActionName, groupIdx: int, group: seq<ServiceResource>, k: int)
    requires 0 <= k < |group|
    ensures Invoked(action, group[..k + 1]) == Invoked(action, group[..k]) + CallsFor(action, group[k])
    ensures DispatchLog(action, groupIdx, group[..k + 1])
      == DispatchLog(action, groupIdx, group[..k]) + EntriesFor(action, groupIdx, group[k])
  {
    assert group[..k + 1][..k] == group[..k];
  }

  /** The `k`-th attachment of `group` responds to `action`, and `c` is
      its invocation. */
  predicate CallOn(group: seq<ServiceResource>, k: int, action: ActionName, c: Call)
  {
    0 <= k < |group| && RespondsTo(group[k], action)
    && c == Call(group[k].resource.value.Ref(), action)
  }

  /** An action is invoked on exactly the resources of the group that
      respond to it: a resource that does not is skipped, and no failure of
      another resource keeps one that does from being invoked. */
  lemma {:induction false} InvokedExactlyResponders(action: ActionName, group: seq<ServiceResource>, c: Call)
    ensures c in Invoked(action, group) <==> exists k :: CallOn(group, k, action, c)
  {
    if group != [] {
      var init, last := group[..|group| - 1], group[|group| - 1];
      InvokedExactlyResponders(action, init, c);
      if c in Invoked(action, group) {
        if c !in Invoked(action, init) {
          assert c in CallsFor(action, last);
          assert CallOn(group, |group| - 1, action, c);
        } else {
          var k :| CallOn(init, k, action, c);
          assert CallOn(group, k, action, c);
        }
      }
      if exists k :: CallOn(group, k, action, c) {
        var k :| CallOn(group, k, action, c);
        if k < |init| {
          assert CallOn(init, k, action, c);
        } else {
          assert c in CallsFor(action, last);
        }
      }
    }
  }

  /** Two groups that hold the same resources, differing at most in which
      invocations raise. */
  predicate SameButFailures(g1: seq<ServiceResource>, g2: seq<ServiceResource>)
  {
    |g1| == |g2| &&
    forall k :: 0 <= k < |g1| ==>
      g1[k].resource.Some? == g2[k].resource.Some? &&
      (g1[k].resource.Some? ==>
        g1[k].resource.value.kind == g2[k].resource.value.kind &&
        g1[k].resource.value.id == g2[k].resource.value.id &&
        g1[k].resource.value.responds == g2[k].resource.value.responds)
  }

  /** Which resources raise has no influence on which resources are
      invoked, or in what order. */
  lemma {:induction false} InvokedIgnoresFailures(action: ActionName, g1: seq<ServiceResource>, g2: seq<ServiceResource>)
    requires SameButFailures(g1, g2)
    ensures Invoked(action, g1) == Invoked(action, g2)
  {
    if g1 != [] {
      var n := |g1| - 1;
      assert SameButFailures(g1[..n], g2[..n]);
      InvokedIgnoresFailures(action, g1[..n], g2[..n]);
      assert CallsFor(action, g1[n]) == CallsFor(action, g2[n]);
    }
  }

  /** The number of error lines in a log. */
  function ErrorCount(log: seq<LogEntry>): nat
  {
    if log == [] then 0
    else ErrorCount(log[..|log| - 1]) + (if log[|log| - 1].ResourceError? then 1 else 0)
  }

  /** The number of resources of a group that fail on `action`. */
  function FailureCount(action: ActionName, group: seq<ServiceResource>): nat
  {
    if group == [] then 0
    else FailureCount(action, group[..|group| - 1]) + (if FailsOn(group[|group| - 1], action) then 1 else 0)
  }

  lemma {:induction false} ErrorCountAppend(a: seq<LogEntry>, b: seq<LogEntry>)
    ensures ErrorCount(a + b) == ErrorCount(a) + ErrorCount(b)
    decreases |b|
  {
    if b == [] {
      assert a + b == a;
    } else {
      assert (a + b)[..|a + b| - 1] == a + b[..|b| - 1];
      ErrorCountAppend(a, b[..|b| - 1]);
    }
  }

  /** Every failure is logged, and only failures are: a stage writes one
      error line per resource that is missing or raises. */
  lemma {:induction false} EveryFailureLogged(action: ActionName, groupIdx: int, group: seq<ServiceResource>)
    ensures ErrorCount(DispatchLog(action, groupIdx, group)) == FailureCount(action, group)
  {
    if group != [] {
      var init, last := group[..|group| - 1], group[|group| - 1];
      EveryFailureLogged(action, groupIdx, init);
      ErrorCountAppend(DispatchLog(action, groupIdx, init), EntriesFor(action, groupIdx, last));
      var e := EntriesFor(action, groupIdx, last);
      match last.resource
      case None =>
        assert ErrorCount(e) == ErrorCount([]) + 1;
      case Some(r) =>
        if action in r.responds {
          ErrorCountAppend([Processing(action, r.Ref(), groupIdx)],
            if action in r.raises then [ResourceError(groupIdx, Some(r.Ref()))] else []);
          assert ErrorCount([Processing(action, r.Ref(), groupIdx)]) == ErrorCount([]);
          if action in r.raises {
            assert ErrorCount([ResourceError(groupIdx, Some(r.Ref()))]) == ErrorCount([]) + 1;
          }
        } else {
          assert ErrorCount(e) == ErrorCount([]);
        }
    }
  }
}
