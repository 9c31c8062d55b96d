/** Deployment of the declared queue policies to every connection's store (queue-controls.ts). */
module QueueControls {
  import opened Outcomes

  datatype Options = Options(globalConcurrency: Option<nat>, perKeyConcurrency: Option<nat>, rateLimit: Option<(nat, nat)>)

  datatype Record = Record(group: string, enabled: bool, revision: nat, options: Options)

  datatype Store = Store(controlled: bool, concurrency: bool, rateLimiting: bool, records: map<string, Record>)

  type Stores = map<string, Store>

  /** A registered queue that declares controls. */
  datatype Queue = Queue(connection: string, name: string, options: Options)

  datatype Mode = Validate | Reconcile

  datatype ControlsError = Unreachable | Capability | Operation | Ownership | Missing | Drift | WriteFailed

  datatype Report = Report(connection: string, created: seq<string>, updated: seq<string>, kept: seq<string>)

  /** The registry holds no two queues of one name on one connection. */
  ghost predicate Distinct(queues: seq<Queue>) {
    forall i, j | 0 <= i < j < |queues| :: queues[i].connection != queues[j].connection || queues[i].name != queues[j].name
  }

  // ----- the checks before the first write

  predicate Capable(store: Store, o: Options) {
    && store.controlled
    && (o.globalConcurrency.Some? || o.perKeyConcurrency.Some? ==> store.concurrency)
    && (o.rateLimit.Some? ==> store.rateLimiting)
  }

  predicate SamePolicy(r: Record, o: Options) {
    r.enabled && r.options == o
  }

  predicate Owned(store: Store, group: string, name: string) {
    name in store.records ==> store.records[name].group == group
  }

  predicate Deployable(stores: Stores, group: string, q: Queue) {
    q.connection in stores && Capable(stores[q.connection], q.options) && Owned(stores[q.connection], group, q.name)
  }

  /** The store holds exactly the declared policy of the queue. */
  predicate InForce(stores: Stores, q: Queue) {
    && q.connection in stores && q.name in stores[q.connection].records
    && var record := stores[q.connection].records[q.name];
       record.enabled && record.options == q.options
  }

  /** Why a queue does not pass: the first of the checks, in this order, that fails. */
  ghost predicate Explains(stores: Stores, group: string, mode: Mode, q: Queue, faults: Faults, error: ControlsError) {
    var known := q.connection in stores;
    var capable := known && Capable(stores[q.connection], q.options);
    var read := capable && q !in faults.unreadable;
    match error
    case Unreachable => !known
    case Capability => known && !capable
    case Operation => capable && q in faults.unreadable
    case Ownership => read && q.name in stores[q.connection].records && stores[q.connection].records[q.name].group != group
    case Missing => mode.Validate? && read && q.name !in stores[q.connection].records
    case Drift =>
      mode.Validate? && read && q.name in stores[q.connection].records
      && stores[q.connection].records[q.name].group == group && !InForce(stores, q)
    case WriteFailed => false
  }

  /** The first queue that does not pass, and why. */
  ghost predicate FailsFirst(
    stores: Stores, group: string, mode: Mode, queues: seq<Queue>, faults: Faults, error: ControlsError, k: nat)
  {
    k < |queues| && Passes(stores, group, mode, queues[..k], faults)
    && Explains(stores, group, mode, queues[k], faults, error)
  }

  ghost predicate AllDeployable(stores: Stores, group: string, queues: seq<Queue>) {
    forall q | q in queues :: Deployable(stores, group, q)
  }

  ghost predicate AllInForce(stores: Stores, queues: seq<Queue>) {
    forall q | q in queues :: InForce(stores, q)
  }

  // ----- what one store is assumed to do with the policies it is given

  /** A policy that is in force is kept with its revision; another one is replaced. */
  function Renewed(previous: Option<Record>, group: string, o: Options): Record {
    match previous
    case None => Record(group, true, 1, o)
    case Some(r) => if SamePolicy(r, o) then r else Record(group, true, r.revision + 1, o)
  }

  function Find(records: map<string, Record>, name: string): Option<Record> {
    if name in records then Some(records[name]) else None
  }

  function Reconciled(records: map<string, Record>, group: string, queues: seq<Queue>): map<string, Record> {
    if queues == [] then records
    else
      var before, q := Reconciled(records, group, queues[..|queues| - 1]), queues[|queues| - 1];
      before[q.name := Renewed(Find(before, q.name), group, q.options)]
  }

  function On(queues: seq<Queue>, connection: string): seq<Queue> {
    if queues == [] then []
    else
      var before, q := On(queues[..|queues| - 1], connection), queues[|queues| - 1];
      if q.connection == connection then before + [q] else before
  }

  /** The stores after the policies of these connections have been written. */
  function DeployedOn(stores: Stores, group: string, queues: seq<Queue>, connections: set<string>): Stores {
    map c | c in stores ::
      if c in connections then stores[c].(records := Reconciled(stores[c].records, group, On(queues, c))) else stores[c]
  }

  function Deployed(stores: Stores, group: string, queues: seq<Queue>): Stores {
    DeployedOn(stores, group, queues, stores.Keys)
  }

  /** The connections in the order their first queue was registered. */
  function Connections(queues: seq<Queue>): seq<string> {
    if queues == [] then []
    else
      var before, q := Connections(queues[..|queues| - 1]), queues[|queues| - 1];
      if q.connection in before then before else before + [q.connection]
  }

  // ----- the records, one by one

  lemma {:induction false} ReconciledRecord(records: map<string, Record>, group: string, queues: seq<Queue>, q: Queue)
    requires q in queues && NamesDistinct(queues)
    ensures q.name in Reconciled(records, group, queues)
    ensures Reconciled(records, group, queues)[q.name] == Renewed(Find(records, q.name), group, q.options)
  {
    var n := |queues| - 1;
    var init := queues[..n];
    if q in init {
      ReconciledRecord(records, group, init, q);
      var i :| 0 <= i < n && init[i] == q;
      assert queues[i].name != queues[n].name;
    } else {
      assert q == queues[n];
      forall k | k in init ensures k.name != q.name {
        var i :| 0 <= i < n && init[i] == k;
        assert queues[i].name != queues[n].name;
      }
      OtherRecords(records, group, init, q.name);
    }
  }

  lemma {:induction false} OtherRecords(records: map<string, Record>, group: string, queues: seq<Queue>, name: string)
    requires forall q | q in queues :: q.name != name
    ensures Find(Reconciled(records, group, queues), name) == Find(records, name)
  {
    if queues != [] {
      OtherRecords(records, group, queues[..|queues| - 1], name);
    }
  }

  lemma {:induction false} OnMembers(queues: seq<Queue>, connection: string, q: Queue)
    ensures q in On(queues, connection) <==> q in queues && q.connection == connection
  {
    if queues != [] {
      var init, last := queues[..|queues| - 1], queues[|queues| - 1];
      assert queues == init + [last];
      OnMembers(init, connection, q);
    }
  }

  ghost predicate NamesDistinct(queues: seq<Queue>) {
    forall i, j | 0 <= i < j < |queues| :: queues[i].name != queues[j].name
  }

  lemma {:induction false} OnDistinct(queues: seq<Queue>, connection: string)
    requires Distinct(queues)
    ensures NamesDistinct(On(queues, connection))
  {
    if queues != [] {
      var n := |queues| - 1;
      var init := queues[..n];
      assert forall i | 0 <= i < n :: init[i] == queues[i];
      OnDistinct(init, connection);
      if queues[n].connection == connection {
        forall k | k in On(init, connection) ensures k.name != queues[n].name {
          OnMembers(init, connection, k);
          var i :| 0 <= i < n && init[i] == k;
          assert queues[i].connection != queues[n].connection || queues[i].name != queues[n].name;
        }
        var before := On(init, connection);
        assert forall i | 0 <= i < |before| :: before[i] in before;
        assert On(queues, connection) == before + [queues[n]];
      }
    }
  }

  /** What a deployment leaves under each declared queue. */
  lemma DeployedRecord(stores: Stores, group: string, queues: seq<Queue>, connections: set<string>, q: Queue)
    requires Distinct(queues) && q in queues && q.connection in stores
    ensures
      var after := DeployedOn(stores, group, queues, connections)[q.connection].records;
      if q.connection in connections
      then q.name in after && after[q.name] == Renewed(Find(stores[q.connection].records, q.name), group, q.options)
      else after == stores[q.connection].records
  {
    OnMembers(queues, q.connection, q);
    OnDistinct(queues, q.connection);
    if q.connection in connections {
      ReconciledRecord(stores[q.connection].records, group, On(queues, q.connection), q);
    }
  }

  // ----- the theorems

  /** Nothing but the records of declared queues is ever written. */
  lemma DeploymentTouchesOnlyDeclared(
    stores: Stores, group: string, queues: seq<Queue>, connections: set<string>, connection: string, name: string)
    requires connection in stores && forall q | q in queues :: q.connection != connection || q.name != name
    ensures
      var after := DeployedOn(stores, group, queues, connections);
      && after.Keys == stores.Keys && Find(after[connection].records, name) == Find(stores[connection].records, name)
      && after[connection] == stores[connection].(records := after[connection].records)
  {
    forall q | q in On(queues, connection) ensures q.name != name { OnMembers(queues, connection, q); }
    OtherRecords(stores[connection].records, group, On(queues, connection), name);
  }

  /** After a deployment with no other writer, the same declarations and group pass every check of a
      validating start. */
  lemma DeployedPoliciesValidate(stores: Stores, group: string, queues: seq<Queue>)
    requires Distinct(queues) && AllDeployable(stores, group, queues)
    ensures AllDeployable(Deployed(stores, group, queues), group, queues)
    ensures AllInForce(Deployed(stores, group, queues), queues)
  {
    forall q | q in queues
      ensures Deployable(Deployed(stores, group, queues), group, q) && InForce(Deployed(stores, group, queues), q)
    {
      DeployedRecord(stores, group, queues, stores.Keys, q);
    }
  }

  /** Where every policy is in force already, a deployment changes nothing: every revision is kept. */
  lemma DeployingWhatIsInForce(stores: Stores, group: string, queues: seq<Queue>, connections: set<string>)
    requires Distinct(queues) && forall q | q in queues && q.connection in connections :: InForce(stores, q)
    ensures DeployedOn(stores, group, queues, connections) == stores
  {
    forall c | c in stores && c in connections
      ensures Reconciled(stores[c].records, group, On(queues, c)) == stores[c].records
    {
      forall q | q in On(queues, c) ensures q.name in stores[c].records && SamePolicy(stores[c].records[q.name], q.options) {
        OnMembers(queues, c, q);
      }
      ReconcilingWhatIsInForce(stores[c].records, group, On(queues, c));
    }
  }

  lemma {:induction false} ReconcilingWhatIsInForce(records: map<string, Record>, group: string, queues: seq<Queue>)
    requires forall q | q in queues :: q.name in records && SamePolicy(records[q.name], q.options)
    ensures Reconciled(records, group, queues) == records
  {
    if queues != [] {
      ReconcilingWhatIsInForce(records, group, queues[..|queues| - 1]);
      assert queues[|queues| - 1] in queues;
    }
  }

  /** So a second reconcile keeps every revision. */
  lemma DeployingTwiceIsDeployingOnce(stores: Stores, group: string, queues: seq<Queue>)
    requires Distinct(queues) && AllDeployable(stores, group, queues)
    ensures var once := Deployed(stores, group, queues); Deployed(once, group, queues) == once
  {
    DeployedPoliciesValidate(stores, group, queues);
    var once := Deployed(stores, group, queues);
    DeployingWhatIsInForce(once, group, queues, once.Keys);
  }

  /** And a reconcile that failed on the way, having written only some connections, is completed by
      the next one: the outcome is that of a single undisturbed run. */
  lemma DeployingResumes(stores: Stores, group: string, queues: seq<Queue>, some: set<string>)
    requires Distinct(queues) && AllDeployable(stores, group, queues)
    ensures Deployed(DeployedOn(stores, group, queues, some), group, queues) == Deployed(stores, group, queues)
    ensures AllDeployable(DeployedOn(stores, group, queues, some), group, queues)
  {
    var partial := DeployedOn(stores, group, queues, some);
    forall q | q in queues ensures Deployable(partial, group, q) {
      DeployedRecord(stores, group, queues, some, q);
    }
    forall c | c in stores
      ensures Reconciled(partial[c].records, group, On(queues, c)) == Reconciled(stores[c].records, group, On(queues, c))
    {
      if c in some {
        forall q | q in On(queues, c)
          ensures q.name in partial[c].records && SamePolicy(partial[c].records[q.name], q.options)
        {
          OnMembers(queues, c, q);
          DeployedRecord(stores, group, queues, some, q);
        }
        ReconcilingWhatIsInForce(partial[c].records, group, On(queues, c));
      }
    }
  }

  // ----- the coordinator

  /** Which calls fail besides what the stores decide: reads by queue; writes by connection, either
      before they run or with their reply lost after they ran. */
  datatype Faults = Faults(unreadable: set<Queue>, refused: set<string>, lost: set<string>)

  ghost predicate AllReadable(queues: seq<Queue>, faults: Faults) {
    forall q | q in queues :: q !in faults.unreadable
  }

  ghost predicate Passes(stores: Stores, group: string, mode: Mode, queues: seq<Queue>, faults: Faults) {
    && AllDeployable(stores, group, queues) && AllReadable(queues, faults)
    && (mode.Validate? ==> AllInForce(stores, queues))
  }

  lemma {:induction false} ConnectionsOf(queues: seq<Queue>, c: string)
    ensures c in Connections(queues) <==> exists q :: q in queues && q.connection == c
    ensures forall i, j | 0 <= i < j < |Connections(queues)| :: Connections(queues)[i] != Connections(queues)[j]
  {
    if queues != [] {
      var init, last := queues[..|queues| - 1], queues[|queues| - 1];
      assert queues == init + [last];
      ConnectionsOf(init, c);
      if exists q :: q in init && q.connection == c {
        var q :| q in init && q.connection == c;
        assert q in queues;
      }
      if last.connection == c { assert last in queues; }
    }
  }

  /** Of each queue the report says what became of it: its policy was created, kept because it was in
      force, or updated. */
  ghost predicate Reports(before: map<string, Record>, queues: seq<Queue>, report: Report) {
    NamesDistinct(queues) ==>
      && (forall q | q in queues ::
            && (q.name in report.created <==> q.name !in before)
            && (q.name in report.kept <==> q.name in before && before[q.name].enabled && before[q.name].options == q.options)
            && (q.name in report.updated <==> q.name in before && q.name !in report.kept))
      && (forall name | name in report.created || name in report.kept || name in report.updated :: Names(queues, name))
  }

  ghost predicate Names(queues: seq<Queue>, name: string) {
    exists q :: q in queues && q.name == name
  }

  lemma NothingReported(before: map<string, Record>, connection: string)
    ensures Reports(before, [], Report(connection, [], [], []))
  {
  }

  lemma OneMoreReported(
    before: map<string, Record>, group: string, queues: seq<Queue>, q: Queue, report: Report, next: Report)
    requires Reports(before, queues, report)
    requires
      var found := Find(Reconciled(before, group, queues), q.name);
      next ==
        if found.None? then report.(created := report.created + [q.name])
        else if Renewed(found, group, q.options) == found.value then report.(kept := report.kept + [q.name])
        else report.(updated := report.updated + [q.name])
    ensures Reports(before, queues + [q], next)
  {
    var longer := queues + [q];
    if NamesDistinct(longer) {
      assert NamesDistinct(queues) by {
        forall i, j | 0 <= i < j < |queues| ensures queues[i].name != queues[j].name {
          assert longer[i].name != longer[j].name;
        }
      }
      forall k | k in queues ensures k.name != q.name {
        var i :| 0 <= i < |queues| && queues[i] == k;
        assert longer[i].name != longer[|queues|].name;
      }
      assert !Names(queues, q.name);
      OtherRecords(before, group, queues, q.name);
      assert forall x :: x in longer <==> x in queues || x == q;
      forall name | Names(queues, name) || name == q.name ensures Names(longer, name) {
        if Names(queues, name) {
          var k :| k in queues && k.name == name;
          assert k in longer;
        } else {
          assert q in longer;
        }
      }
    }
  }

  /** The records of all connections: state that other processes see. */
  class PolicyStores {
    var stores: Stores

    constructor (stores: Stores)
      ensures this.stores == stores
    {
      this.stores := stores;
    }

    /** The store's own reconcile of one connection, all or nothing; a reply may be lost. */
    method ReconcileStore(connection: string, group: string, queues: seq<Queue>, faults: Faults) returns (r: Option<Report>)
      requires connection in stores
      modifies this
      ensures r.Some? <==> connection !in faults.refused && connection !in faults.lost
      ensures stores ==
        if connection in faults.refused then old(stores)
        else old(stores)[connection := old(stores[connection]).(
          records := Reconciled(old(stores[connection].records), group, queues))]
      ensures r.Some? ==>
        && r.value.connection == connection && Reports(old(stores[connection].records), queues, r.value)
        && |r.value.created| + |r.value.updated| + |r.value.kept| == |queues|
    {
      hide Reports, Renewed;
      if connection in faults.refused { return None; }
      NothingReported(stores[connection].records, connection);
      var records := stores[connection].records;
      var created, updated, kept: seq<string> := [], [], [];
      ghost var before := records;
      for i := 0 to |queues|
        invariant stores == old(stores) && records == Reconciled(before, group, queues[..i])
        invariant Reports(before, queues[..i], Report(connection, created, updated, kept))
        invariant |created| + |updated| + |kept| == i
      {
        var q := queues[i];
        assert queues[..i + 1] == queues[..i] + [q] && queues[..i + 1][..i] == queues[..i];
        var found := Find(records, q.name);
        var renewed := Renewed(found, group, q.options);
        ghost var sofar := Report(connection, created, updated, kept);
        if found.None? { created := created + [q.name]; }
        else if renewed == found.value { kept := kept + [q.name]; }
        else { updated := updated + [q.name]; }
        OneMoreReported(before, group, queues[..i], q, sofar, Report(connection, created, updated, kept));
        records := records[q.name := renewed];
      }
      assert queues[..|queues|] == queues;
      stores := stores[connection := stores[connection].(records := records)];
      if connection in faults.lost { return None; }
      return Some(Report(connection, created, updated, kept));
    }
  }

  class QueueControlsCoordinator {
    const group: string
    const policies: PolicyStores

    constructor (group: string, policies: PolicyStores)
      ensures this.group == group && this.policies == policies
    {
      this.group, this.policies := group, policies;
    }

    /** The checks of one queue, which read but never write. */
    method Check(q: Queue, mode: Mode, faults: Faults) returns (fault: Option<ControlsError>)
      ensures fault.None? <==>
        && Deployable(policies.stores, group, q) && q !in faults.unreadable
        && (mode.Validate? ==> InForce(policies.stores, q))
      ensures fault.Some? ==> Explains(policies.stores, group, mode, q, faults, fault.value)
    {
      if q.connection !in policies.stores { return Some(Unreachable); }
      var store := policies.stores[q.connection];
      if !Capable(store, q.options) { return Some(Capability); }
      if q in faults.unreadable { return Some(Operation); }
      var record := Find(store.records, q.name);
      if record.Some? && record.value.group != group { return Some(Ownership); }
      if mode.Validate? {
        if record.None? { return Some(Missing); }
        if !SamePolicy(record.value, q.options) { return Some(Drift); }
      }
      return None;
    }

    /** The first loop of `synchronize`: checks every queue and groups them by connection. */
    method CheckAll(mode: Mode, queues: seq<Queue>, faults: Faults)
      returns (fault: Option<ControlsError>, order: seq<string>, groups: map<string, seq<Queue>>)
      ensures fault.None? <==> Passes(policies.stores, group, mode, queues, faults)
      ensures fault.Some? ==> exists k :: FailsFirst(policies.stores, group, mode, queues, faults, fault.value, k)
      ensures fault.None? ==> order == Connections(queues) && Grouped(queues, groups)
    {
      hide Passes, Grouped, Deployable, InForce, On, Connections, Explains;
      order, groups := [], map[];
      NothingPasses(policies.stores, group, mode, faults);
      assert queues[..0] == [];
      for i := 0 to |queues|
        invariant Passes(policies.stores, group, mode, queues[..i], faults)
        invariant order == Connections(queues[..i]) && Grouped(queues[..i], groups)
      {
        var q := queues[i];
        fault := Check(q, mode, faults);
        assert queues[..i + 1] == queues[..i] + [q];
        OneMorePasses(policies.stores, group, mode, queues[..i], q, faults);
        if fault.Some? {
          if Passes(policies.stores, group, mode, queues, faults) {
            PrefixPasses(policies.stores, group, mode, queues, i + 1, faults);
          }
          assert FailsFirst(policies.stores, group, mode, queues, faults, fault.value, i);
          return;
        }
        GroupedStep(queues[..i], q, groups);
        if q.connection in groups {
          groups := groups[q.connection := groups[q.connection] + [q]];
        } else {
          assert [] + [q] == [q];
          groups := groups[q.connection := [q]];
          order := order + [q.connection];
        }
      }
      assert queues[..|queues|] == queues;
      fault := None;
    }

    /** The second loop of `synchronize`: one write for every connection, in order. */
    method WriteAll(queues: seq<Queue>, order: seq<string>, groups: map<string, seq<Queue>>, faults: Faults)
      returns (r: Result<seq<Report>, ControlsError>)
      requires order == Connections(queues) && Grouped(queues, groups)
      requires forall c | c in order :: c in policies.stores
      modifies policies
      ensures r.Success? ==>
        && policies.stores == DeployedOn(old(policies.stores), group, queues, Before(queues, |order|))
        && |r.value| == |order| && (forall k | 0 <= k < |order| :: r.value[k].connection == order[k])
        && (forall k | 0 <= k < |order| ::
              Reports(old(policies.stores)[order[k]].records, On(queues, order[k]), r.value[k]))
        && forall k | 0 <= k < |order| :: order[k] !in faults.refused + faults.lost
      ensures r.Failure? ==> exists k :: StoppedAt(old(policies.stores), policies.stores, group, queues, faults, k)
    {
      hide Reports, DeployedOn, Reconciled, On, Connections, Before;
      var reports: seq<Report> := [];
      ghost var first := policies.stores;
      NothingDeployed(policies.stores, group, queues);
      for k := 0 to |order|
        invariant policies.stores == DeployedOn(old(policies.stores), group, queues, Before(queues, k))
        invariant |reports| == k
        invariant forall i | 0 <= i < k :: reports[i].connection == order[i] && order[i] !in faults.refused + faults.lost
        invariant forall i | 0 <= i < k :: Reports(first[order[i]].records, On(queues, order[i]), reports[i])
      {
        var connection := order[k];
        assert connection in order;
        NotYetDeployed(first, group, queues, k);
        var report := policies.ReconcileStore(connection, group, groups[connection], faults);
        if report.None? {
          if connection !in faults.refused { OneMoreDeployed(old(policies.stores), group, queues, k); }
          assert StoppedAt(old(policies.stores), policies.stores, group, queues, faults, k);
          return Failure(WriteFailed);
        }
        OneMoreDeployed(old(policies.stores), group, queues, k);
        reports := reports + [report.value];
      }
      return Success(reports);
    }

    /** `synchronize`: every check of every queue comes before the first write.  A failed check and a
        validating run leave every store as it was; after the checks, only a failing write can stop
        the deployment, and then the connections before it, in order, have been written, its own if
        only the reply was lost, and no other. */
    method Synchronize(mode: Mode, queues: seq<Queue>, faults: Faults) returns (r: Result<seq<Report>, ControlsError>)
      modifies policies
      ensures !Passes(old(policies.stores), group, mode, queues, faults) ==>
        && r.Failure? && policies.stores == old(policies.stores)
        && exists k :: FailsFirst(old(policies.stores), group, mode, queues, faults, r.error, k)
      ensures mode.Validate? ==>
        && policies.stores == old(policies.stores)
        && (r.Success? <==> Passes(old(policies.stores), group, mode, queues, faults))
      ensures r.Success? && mode.Reconcile? ==>
        && policies.stores == Deployed(old(policies.stores), group, queues)
        && |r.value| == |Connections(queues)|
        && forall k | 0 <= k < |r.value| ::
             && r.value[k].connection == Connections(queues)[k]
             && Connections(queues)[k] !in faults.refused + faults.lost
             && Connections(queues)[k] in old(policies.stores)
             && Reports(old(policies.stores)[Connections(queues)[k]].records, On(queues, Connections(queues)[k]), r.value[k])
      ensures r.Failure? && Passes(old(policies.stores), group, mode, queues, faults) ==>
        exists k :: StoppedAt(old(policies.stores), policies.stores, group, queues, faults, k)
    {
      var fault, order, groups := CheckAll(mode, queues, faults);
      if fault.Some? { return Failure(fault.value); }
      if mode.Validate? { return Success([]); }
      EveryConnectionIsKnown(policies.stores, group, queues);
      r := WriteAll(queues, order, groups, faults);
      AllConnectionsDeployed(old(policies.stores), group, queues);
    }
  }

  lemma NothingPasses(stores: Stores, group: string, mode: Mode, faults: Faults)
    ensures Passes(stores, group, mode, [], faults) && Grouped([], map[]) && Connections([]) == []
  {
  }

  lemma OneMorePasses(stores: Stores, group: string, mode: Mode, queues: seq<Queue>, q: Queue, faults: Faults)
    ensures Passes(stores, group, mode, queues + [q], faults) <==>
      && Passes(stores, group, mode, queues, faults)
      && Deployable(stores, group, q) && q !in faults.unreadable && (mode.Validate? ==> InForce(stores, q))
  {
    hide Deployable, InForce;
    assert forall x :: x in queues + [q] <==> x in queues || x == q;
  }

  lemma PrefixPasses(stores: Stores, group: string, mode: Mode, queues: seq<Queue>, n: nat, faults: Faults)
    requires n <= |queues| && Passes(stores, group, mode, queues, faults)
    ensures Passes(stores, group, mode, queues[..n], faults)
  {
    hide Deployable, InForce;
    assert forall x | x in queues[..n] :: x in queues;
  }

  /** Every connection with its queues, as the first loop collects them. */
  ghost predicate Grouped(queues: seq<Queue>, groups: map<string, seq<Queue>>) {
    && (forall c :: c in groups <==> c in Connections(queues))
    && (forall c | c in groups :: groups[c] == On(queues, c))
  }

  lemma GroupedStep(queues: seq<Queue>, q: Queue, groups: map<string, seq<Queue>>)
    requires Grouped(queues, groups)
    ensures Grouped(queues + [q], groups[q.connection :=
      (if q.connection in groups then groups[q.connection] else []) + [q]])
    ensures Connections(queues + [q]) ==
      if q.connection in groups then Connections(queues) else Connections(queues) + [q.connection]
  {
    assert (queues + [q])[..|queues|] == queues;
    if q.connection !in groups {
      ConnectionsOf(queues, q.connection);
      forall k | k in queues ensures k.connection != q.connection {}
      NoneOn(queues, q.connection);
    }
  }

  lemma {:induction false} NoneOn(queues: seq<Queue>, c: string)
    requires forall q | q in queues :: q.connection != c
    ensures On(queues, c) == []
  {
    if queues != [] { NoneOn(queues[..|queues| - 1], c); }
  }

  /** The write to the k-th connection failed: those before it are deployed, it is itself if only
      the reply was lost, and no other is. */
  ghost predicate StoppedAt(before: Stores, after: Stores, group: string, queues: seq<Queue>, faults: Faults, k: nat) {
    && k < |Connections(queues)|
    && (Connections(queues)[k] in faults.refused || Connections(queues)[k] in faults.lost)
    && after ==
       DeployedOn(before, group, queues, Before(queues, if Connections(queues)[k] in faults.refused then k else k + 1))
  }

  lemma NothingDeployed(stores: Stores, group: string, queues: seq<Queue>)
    ensures DeployedOn(stores, group, queues, Before(queues, 0)) == stores
  {
  }

  lemma OneMoreDeployed(stores: Stores, group: string, queues: seq<Queue>, k: nat)
    requires k < |Connections(queues)| && Connections(queues)[k] in stores
    ensures
      var c := Connections(queues)[k];
      var some := DeployedOn(stores, group, queues, Before(queues, k));
      some[c := some[c].(records := Reconciled(some[c].records, group, On(queues, c)))] ==
      DeployedOn(stores, group, queues, Before(queues, k + 1))
  {
    var c := Connections(queues)[k];
    ConnectionsOf(queues, c);
    assert Before(queues, k + 1) == Before(queues, k) + {c};
    assert c !in Before(queues, k);
  }

  lemma NotYetDeployed(stores: Stores, group: string, queues: seq<Queue>, k: nat)
    requires k < |Connections(queues)| && Connections(queues)[k] in stores
    ensures Connections(queues)[k] in DeployedOn(stores, group, queues, Before(queues, k))
    ensures DeployedOn(stores, group, queues, Before(queues, k))[Connections(queues)[k]] == stores[Connections(queues)[k]]
  {
    ConnectionsOf(queues, Connections(queues)[k]);
    assert Connections(queues)[k] !in Before(queues, k);
  }

  lemma EveryConnectionIsKnown(stores: Stores, group: string, queues: seq<Queue>)
    requires AllDeployable(stores, group, queues)
    ensures forall c | c in Connections(queues) :: c in stores
  {
    forall c | c in Connections(queues) ensures c in stores {
      ConnectionsOf(queues, c);
    }
  }

  lemma AllConnectionsDeployed(stores: Stores, group: string, queues: seq<Queue>)
    ensures DeployedOn(stores, group, queues, Before(queues, |Connections(queues)|)) == Deployed(stores, group, queues)
  {
    forall c | c in stores && c !in Before(queues, |Connections(queues)|) ensures On(queues, c) == [] {
      ConnectionsOf(queues, c);
      NoneOn(queues, c);
    }
  }

  /** The connections written before the k-th. */
  function Before(queues: seq<Queue>, k: nat): set<string>
    requires k <= |Connections(queues)|
  {
    set i | 0 <= i < k :: Connections(queues)[i]
  }
}
