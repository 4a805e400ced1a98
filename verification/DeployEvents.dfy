/** Deploy events, and those of one namespace in one window: the "why" offered beside a workload's growth. */
module DeployEvents {
  import opened Text

  datatype DeployEvent = DeployEvent(namespace: string, name: string, reason: string, message: string, occurredAt: int)

  /** One row of `deploy_event`. */
  datatype EventRow = EventRow(tenant: int, clusterId: string, event: DeployEvent)

  predicate InWindow(row: EventRow, tenant: int, clusterId: string, since: int, until: int) {
    row.tenant == tenant && row.clusterId == clusterId && since <= row.event.occurredAt <= until
  }

  /** The `WHERE` clause, in table order. */
  function Occurred(table: seq<EventRow>, tenant: int, clusterId: string, since: int, until: int): seq<DeployEvent> {
    if table == [] then []
    else
      var front, row := Occurred(table[..|table| - 1], tenant, clusterId, since, until), table[|table| - 1];
      if InWindow(row, tenant, clusterId, since, until) then front + [row.event] else front
  }

  predicate Later(x: DeployEvent, y: DeployEvent) {
    x.occurredAt > y.occurredAt
  }

  lemma LaterIsOrder()
    ensures StrictWeakOrder(Later)
  {
    forall x, y, z ensures OrderedTriple(Later, x, y, z) {
    }
  }

  /** The selected events, most recent first. */
  ghost predicate IsRecent(table: seq<EventRow>, tenant: int, clusterId: string, since: int, until: int,
                           out: seq<DeployEvent>)
  {
    multiset(out) == multiset(Occurred(table, tenant, clusterId, since, until)) && NoInversion(out, Later)
  }

  /** Where the table has the event for this tenant and cluster in the window, both ends included. */
  ghost function Recorded(table: seq<EventRow>, tenant: int, clusterId: string, since: int, until: int, e: DeployEvent)
    : set<nat>
  {
    set i: nat | i < |table| && table[i].tenant == tenant && table[i].clusterId == clusterId && table[i].event == e
                 && since <= e.occurredAt <= until
  }

  lemma RecordedOneMore(table: seq<EventRow>, n: nat, tenant: int, clusterId: string, since: int, until: int,
                        e: DeployEvent)
    requires |table| == n + 1
    ensures |Recorded(table, tenant, clusterId, since, until, e)|
         == |Recorded(table[..n], tenant, clusterId, since, until, e)|
            + if table[n].event == e && InWindow(table[n], tenant, clusterId, since, until) then 1 else 0
  {
    var before := Recorded(table[..n], tenant, clusterId, since, until, e);
    assert n !in before;
    assert Recorded(table, tenant, clusterId, since, until, e)
        == if table[n].event == e && InWindow(table[n], tenant, clusterId, since, until) then before + {n} else before;
  }

  lemma {:induction false} OccurredAsRecorded(table: seq<EventRow>, tenant: int, clusterId: string, since: int,
                                              until: int, e: DeployEvent)
    ensures multiset(Occurred(table, tenant, clusterId, since, until))[e]
         == |Recorded(table, tenant, clusterId, since, until, e)|
  {
    if table == [] {
      assert Recorded(table, tenant, clusterId, since, until, e) == {};
    } else {
      hide Recorded, InWindow;
      var n := |table| - 1;
      OccurredAsRecorded(table[..n], tenant, clusterId, since, until, e);
      RecordedOneMore(table, n, tenant, clusterId, since, until, e);
    }
  }

  /** An answer lists each event as often as it was recorded in the window, most recent first. */
  lemma RecentAsRecorded(table: seq<EventRow>, tenant: int, clusterId: string, since: int, until: int,
                         out: seq<DeployEvent>)
    requires IsRecent(table, tenant, clusterId, since, until, out)
    ensures forall e :: multiset(out)[e] == |Recorded(table, tenant, clusterId, since, until, e)|
    ensures forall i, j | 0 <= i < j < |out| :: out[i].occurredAt >= out[j].occurredAt
  {
    hide Recorded, Occurred;
    forall e ensures multiset(out)[e] == |Recorded(table, tenant, clusterId, since, until, e)| {
      OccurredAsRecorded(table, tenant, clusterId, since, until, e);
    }
    forall i, j | 0 <= i < j < |out| ensures out[i].occurredAt >= out[j].occurredAt {
      assert !Later(out[j], out[i]);
    }
  }

  method RecentDeployEvents(table: seq<EventRow>, tenant: int, clusterId: string, since: int, until: int)
    returns (out: seq<DeployEvent>)
    ensures IsRecent(table, tenant, clusterId, since, until, out)
  {
    out := [];
    for i := 0 to |table|
      invariant out == Occurred(table[..i], tenant, clusterId, since, until)
    {
      assert table[..i + 1][..i] == table[..i];
      if InWindow(table[i], tenant, clusterId, since, until) {
        out := out + [table[i].event];
      }
    }
    assert table[..|table|] == table;
    LaterIsOrder();
    out := SortSlice(out, Later);
  }

  // ----- One namespace -----

  function InNamespace(events: seq<DeployEvent>, namespace: string): seq<DeployEvent> {
    if events == [] then []
    else
      var front, e := InNamespace(events[..|events| - 1], namespace), events[|events| - 1];
      if e.namespace == namespace then front + [e] else front
  }

  method SelectNamespace(events: seq<DeployEvent>, namespace: string) returns (related: seq<DeployEvent>)
    ensures related == InNamespace(events, namespace)
  {
    related := [];
    for i := 0 to |events|
      invariant related == InNamespace(events[..i], namespace)
    {
      assert events[..i + 1][..i] == events[..i];
      if events[i].namespace == namespace {
        related := related + [events[i]];
      }
    }
    assert events[..|events|] == events;
  }

  lemma {:induction false} NamespaceCount(events: seq<DeployEvent>, namespace: string, e: DeployEvent)
    ensures multiset(InNamespace(events, namespace))[e] == if e.namespace == namespace then multiset(events)[e] else 0
  {
    if events != [] {
      var front, last := events[..|events| - 1], events[|events| - 1];
      NamespaceCount(front, namespace, e);
      assert events == front + [last];
    }
  }

  lemma {:induction false} NamespaceOrder(events: seq<DeployEvent>, namespace: string)
    requires NoInversion(events, Later)
    ensures NoInversion(InNamespace(events, namespace), Later)
    ensures forall e | e in InNamespace(events, namespace) :: e in events
  {
    if events != [] {
      var front, last := events[..|events| - 1], events[|events| - 1];
      assert events == front + [last];
      NamespaceOrder(front, namespace);
      forall e | e in InNamespace(front, namespace) ensures !Later(last, e) {
        var k :| 0 <= k < |front| && front[k] == e;
        assert events[k] == e && events[|events| - 1] == last;
      }
    }
  }

  /** What a caller gets who selects a namespace from a window: each of its events as often as it was recorded, most
      recent first. */
  ghost predicate IsSelection(table: seq<EventRow>, tenant: int, clusterId: string, since: int, until: int,
                              namespace: string, out: seq<DeployEvent>)
  {
    && (forall e :: multiset(out)[e] ==
         if e.namespace == namespace then multiset(Occurred(table, tenant, clusterId, since, until))[e] else 0)
    && NoInversion(out, Later)
  }

  lemma SelectionAsRecorded(table: seq<EventRow>, tenant: int, clusterId: string, since: int, until: int,
                            namespace: string, out: seq<DeployEvent>)
    requires IsSelection(table, tenant, clusterId, since, until, namespace, out)
    ensures forall e ::
      multiset(out)[e] == if e.namespace == namespace then |Recorded(table, tenant, clusterId, since, until, e)| else 0
    ensures forall i, j | 0 <= i < j < |out| :: out[i].occurredAt >= out[j].occurredAt
  {
    hide Recorded, Occurred;
    forall e
      ensures multiset(out)[e]
           == if e.namespace == namespace then |Recorded(table, tenant, clusterId, since, until, e)| else 0
    {
      OccurredAsRecorded(table, tenant, clusterId, since, until, e);
    }
    forall i, j | 0 <= i < j < |out| ensures out[i].occurredAt >= out[j].occurredAt {
      assert !Later(out[j], out[i]);
    }
  }

  lemma SelectionOfRecent(table: seq<EventRow>, tenant: int, clusterId: string, since: int, until: int,
                          namespace: string, recent: seq<DeployEvent>)
    requires IsRecent(table, tenant, clusterId, since, until, recent)
    ensures IsSelection(table, tenant, clusterId, since, until, namespace, InNamespace(recent, namespace))
  {
    NamespaceOrder(recent, namespace);
    forall e ensures multiset(InNamespace(recent, namespace))[e] ==
                       if e.namespace == namespace then multiset(Occurred(table, tenant, clusterId, since, until))[e]
                       else 0
    {
      NamespaceCount(recent, namespace, e);
    }
  }
}
