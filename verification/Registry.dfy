/** The registry of all queues of one application (mq.registry.ts). */
module Registry {
  import opened Outcomes
  import opened JobIdentities
  import opened QueueDefinitions

  /** A Nest provider: `queueClass` when its class extends QueueService, `instance` when its value is
      one; `singleton` when it is neither request-scoped nor transient, nor depends on such. */
  datatype Provider = Provider(queueClass: bool, instance: Option<nat>, singleton: bool)

  datatype RegistryError = NotSingleton | NotInitialized | BadQueue | DuplicateQueue | DuplicateJob

  /** What is declared by each instance. */
  type Classes = nat -> QueueClass

  predicate Candidate(p: Provider) {
    p.queueClass || p.instance.Some?
  }

  predicate Usable(p: Provider) {
    Candidate(p) ==> p.singleton && p.instance.Some?
  }

  /** The queue instances, each once, where first met. */
  function Instances(providers: seq<Provider>): seq<nat> {
    if providers == [] then []
    else
      var earlier, last := Instances(providers[..|providers| - 1]), providers[|providers| - 1];
      if last.instance.Some? && last.instance.value !in earlier then earlier + [last.instance.value] else earlier
  }

  /** The instances are exactly those some provider has, none twice. */
  lemma {:induction false} InstancesAreExact(providers: seq<Provider>, n: nat)
    ensures n in Instances(providers) <==> exists i | 0 <= i < |providers| :: providers[i].instance == Some(n)
    ensures forall i, j | 0 <= i < j < |Instances(providers)| :: Instances(providers)[i] != Instances(providers)[j]
  {
    if providers != [] {
      var init := providers[..|providers| - 1];
      InstancesAreExact(init, n);
      assert forall i | 0 <= i < |init| :: init[i] == providers[i];
      if exists i | 0 <= i < |init| :: init[i].instance == Some(n) {
        var i :| 0 <= i < |init| && init[i].instance == Some(n);
        assert providers[i].instance == Some(n);
      }
    }
  }

  /** What each rejection says of the providers. */
  ghost predicate Blames(providers: seq<Provider>, classes: Classes, policies: Policies, error: RegistryError) {
    match error
    case NotSingleton => exists p :: p in providers && Candidate(p) && !p.singleton
    case NotInitialized => exists p :: p in providers && Candidate(p) && p.singleton && p.instance.None?
    case BadQueue => exists n :: n in Instances(providers) && !WellDeclared(classes(n), policies)
    case DuplicateQueue =>
      exists a, b | a in Instances(providers) && b in Instances(providers) && a != b :: SameQueue(classes(a), classes(b))
    case DuplicateJob => false
  }

  predicate SameQueue(a: QueueClass, b: QueueClass) {
    a.metadata.Some? && a.metadata == b.metadata
  }

  ghost predicate AllDeclared(instances: seq<nat>, classes: Classes, policies: Policies) {
    forall i | 0 <= i < |instances| :: WellDeclared(classes(instances[i]), policies)
  }

  function Definitions(instances: seq<nat>, classes: Classes, policies: Policies): seq<QueueDefinition>
    requires AllDeclared(instances, classes, policies)
  {
    seq(|instances|, i requires 0 <= i < |instances| => Definition(classes(instances[i]), policies))
  }

  ghost predicate QueuesDistinct(queues: seq<QueueDefinition>) {
    forall i, j | 0 <= i < j < |queues| ::
      queues[i].connection != queues[j].connection || queues[i].name != queues[j].name
  }

  /** The providers can be registered: usable, well declared, and no two queues of the same name on
      the same connection. */
  ghost predicate Registrable(providers: seq<Provider>, classes: Classes, policies: Policies) {
    && (forall i | 0 <= i < |providers| :: Usable(providers[i]))
    && AllDeclared(Instances(providers), classes, policies)
    && QueuesDistinct(Definitions(Instances(providers), classes, policies))
  }

  function AllJobs(queues: seq<QueueDefinition>): seq<RegisteredJob> {
    if queues == [] then [] else AllJobs(queues[..|queues| - 1]) + queues[|queues| - 1].jobs
  }

  /** The map finds every job by its key, and nothing else. */
  ghost predicate Indexes(byIdentity: map<Text, RegisteredJob>, jobs: seq<RegisteredJob>) {
    && (forall job | job in jobs :: job.key in byIdentity && byIdentity[job.key] == job)
    && (forall key | key in byIdentity :: byIdentity[key] in jobs && byIdentity[key].key == key)
  }

  /** A definition as `getQueueDefinition` makes them. */
  ghost predicate Proper(q: QueueDefinition) {
    && (forall job | job in q.jobs ::
          job.identity.connection == q.connection && job.identity.queue == q.name && job.key == Key(job.identity))
    && (forall i, j | 0 <= i < j < |q.jobs| :: q.jobs[i].key != q.jobs[j].key)
  }

  lemma {:induction false} JobBelongs(queues: seq<QueueDefinition>, job: RegisteredJob)
    requires job in AllJobs(queues)
    ensures exists i | 0 <= i < |queues| :: job in queues[i].jobs
  {
    if job in AllJobs(queues[..|queues| - 1]) {
      JobBelongs(queues[..|queues| - 1], job);
      var i :| 0 <= i < |queues| - 1 && job in queues[..|queues| - 1][i].jobs;
      assert job in queues[i].jobs;
    }
  }

  /** A job of a queue cannot have the key of a job of another queue: once the queues are known to be
      distinct, no job can be a duplicate across them. */
  lemma JobsOfOtherQueues(queues: seq<QueueDefinition>, q: QueueDefinition, job: RegisteredJob)
    requires (forall i | 0 <= i < |queues| :: Proper(queues[i])) && Proper(q) && QueuesDistinct(queues + [q])
    requires job in q.jobs
    ensures forall other | other in AllJobs(queues) :: other.key != job.key
  {
    hide Key;
    forall other | other in AllJobs(queues) ensures other.key != job.key {
      JobBelongs(queues, other);
      var i :| 0 <= i < |queues| && other in queues[i].jobs;
      assert Proper(queues[i]);
      assert (queues + [q])[i] == queues[i] && (queues + [q])[|queues|] == q;
      KeysTellIdentitiesApart(other.identity, job.identity);
    }
  }

  lemma AllJobsStep(queues: seq<QueueDefinition>, q: QueueDefinition)
    ensures AllJobs(queues + [q]) == AllJobs(queues) + q.jobs
  {
    assert (queues + [q])[..|queues|] == queues;
  }

  lemma NextQueue(queues: seq<QueueDefinition>, q: QueueDefinition)
    requires QueuesDistinct(queues)
    ensures QueuesDistinct(queues + [q]) <==>
      forall i | 0 <= i < |queues| :: QueueKey(queues[i].connection, queues[i].name) != QueueKey(q.connection, q.name)
  {
    hide QueueKey;
    var more := queues + [q];
    forall i | 0 <= i < |queues|
      ensures QueueKey(queues[i].connection, queues[i].name) == QueueKey(q.connection, q.name) <==>
        more[i].connection == more[|queues|].connection && more[i].name == more[|queues|].name
    {
      QueueKeysTellApart(queues[i].connection, queues[i].name, q.connection, q.name);
    }
  }

  ghost predicate Gathered(
    providers: seq<Provider>, classes: Classes, policies: Policies, queues: seq<QueueDefinition>,
    jobs: map<Text, RegisteredJob>, order: seq<RegisteredJob>, instances: set<nat>, queueKeys: set<Text>)
  {
    && Registrable(providers, classes, policies)
    && queues == Definitions(Instances(providers), classes, policies)
    && (forall i | 0 <= i < |queues| :: Proper(queues[i]))
    && order == AllJobs(queues) && Indexes(jobs, order)
    && instances == (set n | n in Instances(providers))
    && queueKeys == set i | 0 <= i < |queues| :: QueueKey(queues[i].connection, queues[i].name)
  }

  lemma GatheredIsProper(
    providers: seq<Provider>, classes: Classes, policies: Policies, queues: seq<QueueDefinition>,
    jobs: map<Text, RegisteredJob>, order: seq<RegisteredJob>, instances: set<nat>, queueKeys: set<Text>)
    requires Gathered(providers, classes, policies, queues, jobs, order, instances, queueKeys)
    ensures forall i | 0 <= i < |queues| :: Proper(queues[i])
    ensures Registrable(providers, classes, policies)
    ensures order == AllJobs(queues) && Indexes(jobs, order)
    ensures queues == Definitions(Instances(providers), classes, policies)
  {
  }

  lemma NothingGathered(classes: Classes, policies: Policies)
    ensures Gathered([], classes, policies, [], map[], [], {}, {})
  {
  }

  lemma {:induction false} InstancesGrow(providers: seq<Provider>, i: nat)
    requires i <= |providers|
    ensures Instances(providers[..i]) <= Instances(providers)
    decreases |providers|
  {
    if i < |providers| {
      var init := providers[..|providers| - 1];
      InstancesGrow(init, i);
      assert init[..i] == providers[..i];
    } else {
      assert providers[..i] == providers;
    }
  }

  /** What is wrong with some of the providers is wrong with all of them. */
  lemma PrefixIsRegistrable(providers: seq<Provider>, i: nat, classes: Classes, policies: Policies)
    requires i <= |providers| && Registrable(providers, classes, policies)
    ensures Registrable(providers[..i], classes, policies)
  {
    InstancesGrow(providers, i);
    var few, all := Instances(providers[..i]), Instances(providers);
    assert forall k | 0 <= k < |few| :: few[k] == all[k];
    var fewer, queues := Definitions(few, classes, policies), Definitions(all, classes, policies);
    assert forall k | 0 <= k < |fewer| :: fewer[k] == queues[k];
  }

  lemma InstancesStep(providers: seq<Provider>, i: nat)
    requires i < |providers|
    ensures
      var p, earlier := providers[i], Instances(providers[..i]);
      Instances(providers[..i + 1]) ==
        if p.instance.Some? && p.instance.value !in earlier then earlier + [p.instance.value] else earlier
  {
    assert providers[..i + 1][..i] == providers[..i];
  }

  /** A provider that is no queue, or a queue already met, changes nothing. */
  lemma SkipsProvider(
    providers: seq<Provider>, i: nat, classes: Classes, policies: Policies, queues: seq<QueueDefinition>,
    jobs: map<Text, RegisteredJob>, order: seq<RegisteredJob>, instances: set<nat>, queueKeys: set<Text>)
    requires i < |providers|
    requires Gathered(providers[..i], classes, policies, queues, jobs, order, instances, queueKeys)
    requires var p := providers[i]; !Candidate(p) || (Usable(p) && p.instance.value in instances)
    ensures Gathered(providers[..i + 1], classes, policies, queues, jobs, order, instances, queueKeys)
  {
    InstancesStep(providers, i);
    SameInstances(providers, i, classes, policies);
    hide Proper, Indexes, QueueKey, Registrable, AllJobs, Definitions;
  }

  lemma SameInstances(providers: seq<Provider>, i: nat, classes: Classes, policies: Policies)
    requires i < |providers| && Registrable(providers[..i], classes, policies) && Usable(providers[i])
    requires Instances(providers[..i + 1]) == Instances(providers[..i])
    ensures Registrable(providers[..i + 1], classes, policies)
  {
    hide WellDeclared, QueuesDistinct, Instances;
    assert forall k | 0 <= k < i :: providers[..i + 1][k] == providers[..i][k];
  }

  lemma UnusableProvider(providers: seq<Provider>, i: nat, classes: Classes, policies: Policies)
    requires i < |providers| && !Usable(providers[i])
    ensures !Registrable(providers, classes, policies)
  {
  }

  /** A queue whose class is not well declared, or whose name is taken, spoils the whole. */
  lemma BadQueueSpoils(
    providers: seq<Provider>, i: nat, classes: Classes, policies: Policies, queues: seq<QueueDefinition>,
    jobs: map<Text, RegisteredJob>, order: seq<RegisteredJob>, instances: set<nat>, queueKeys: set<Text>)
    requires i < |providers|
    requires Gathered(providers[..i], classes, policies, queues, jobs, order, instances, queueKeys)
    requires providers[i].instance.Some? && providers[i].instance.value !in instances
    requires
      var q := classes(providers[i].instance.value);
      WellDeclared(q, policies) ==>
        var d := Definition(q, policies);
        QueueKey(d.connection, d.name) in queueKeys
    ensures !Registrable(providers, classes, policies)
  {
    hide Proper, Indexes, QueueKey;
    if Registrable(providers, classes, policies) {
      PrefixIsRegistrable(providers, i + 1, classes, policies);
      InstancesStep(providers, i);
      var more := Instances(providers[..i + 1]);
      var n := |more| - 1;
      assert WellDeclared(classes(more[n]), policies);
      var d := Definition(classes(more[n]), policies);
      var all := Definitions(more, classes, policies);
      assert all == queues + [d];
      NextQueue(queues, d);
    }
  }

  lemma AddsQueue(
    providers: seq<Provider>, i: nat, classes: Classes, policies: Policies, queues: seq<QueueDefinition>,
    jobs: map<Text, RegisteredJob>, order: seq<RegisteredJob>, instances: set<nat>, queueKeys: set<Text>,
    q: QueueDefinition)
    requires i < |providers| && Usable(providers[i])
    requires Gathered(providers[..i], classes, policies, queues, jobs, order, instances, queueKeys)
    requires providers[i].instance.Some? && providers[i].instance.value !in instances
    requires WellDeclared(classes(providers[i].instance.value), policies)
    requires q == Definition(classes(providers[i].instance.value), policies)
    requires QueueKey(q.connection, q.name) !in queueKeys
    ensures Proper(q) && QueuesDistinct(queues + [q]) && AllJobs(queues + [q]) == order + q.jobs
    ensures Registrable(providers[..i + 1], classes, policies)
    ensures queues + [q] == Definitions(Instances(providers[..i + 1]), classes, policies)
  {
    hide Indexes, QueueKey, WellDeclared, Definition;
    ProperDefinition(classes(providers[i].instance.value), policies);
    NextQueue(queues, q);
    AllJobsStep(queues, q);
    hide AllJobs, Proper, QueuesDistinct;
    RegistersOneMore(providers, i, classes, policies, q);
  }

  lemma ProperDefinition(q: QueueClass, policies: Policies)
    requires WellDeclared(q, policies)
    ensures Proper(Definition(q, policies))
  {
    JobsOfDefinition(q, policies);
  }

  lemma RegistersOneMore(
    providers: seq<Provider>, i: nat, classes: Classes, policies: Policies, q: QueueDefinition)
    requires i < |providers| && Usable(providers[i]) && providers[i].instance.Some?
    requires Registrable(providers[..i], classes, policies)
    requires providers[i].instance.value !in Instances(providers[..i])
    requires WellDeclared(classes(providers[i].instance.value), policies)
    requires q == Definition(classes(providers[i].instance.value), policies)
    requires QueuesDistinct(Definitions(Instances(providers[..i]), classes, policies) + [q])
    ensures Registrable(providers[..i + 1], classes, policies)
    ensures Definitions(Instances(providers[..i]), classes, policies) + [q] ==
      Definitions(Instances(providers[..i + 1]), classes, policies)
  {
    hide WellDeclared, Definition, QueuesDistinct, Instances;
    InstancesStep(providers, i);
    var few, more := Instances(providers[..i]), Instances(providers[..i + 1]);
    assert more == few + [providers[i].instance.value];
    assert AllDeclared(more, classes, policies);
    assert Definitions(few, classes, policies) + [q] == Definitions(more, classes, policies);
    assert forall k | 0 <= k < i :: providers[..i + 1][k] == providers[..i][k];
  }

  lemma GathersOn(
    providers: seq<Provider>, i: nat, classes: Classes, policies: Policies, queues: seq<QueueDefinition>,
    jobs: map<Text, RegisteredJob>, order: seq<RegisteredJob>, instances: set<nat>, queueKeys: set<Text>,
    q: QueueDefinition, more: map<Text, RegisteredJob>)
    requires i < |providers| && providers[i].instance.Some? && providers[i].instance.value !in instances
    requires Gathered(providers[..i], classes, policies, queues, jobs, order, instances, queueKeys)
    requires Registrable(providers[..i + 1], classes, policies) && Proper(q)
    requires queues + [q] == Definitions(Instances(providers[..i + 1]), classes, policies)
    requires AllJobs(queues + [q]) == order + q.jobs && Indexes(more, order + q.jobs)
    ensures Gathered(providers[..i + 1], classes, policies, queues + [q], more, order + q.jobs,
                     instances + {providers[i].instance.value}, queueKeys + {QueueKey(q.connection, q.name)})
  {
    hide Proper, Indexes, QueueKey, Registrable, Definitions, AllJobs;
    var all, n := queues + [q], |queues|;
    assert all[n] == q && forall k | 0 <= k < n :: all[k] == queues[k];
    KeysGrow(queues, q);
    var upTo := providers[..i + 1];
    assert (set k | k in Instances(upTo)) == instances + {providers[i].instance.value} by {
      InstancesStep(providers, i);
    }
  }

  lemma KeysGrow(queues: seq<QueueDefinition>, q: QueueDefinition)
    ensures
      var all := queues + [q];
      (set i | 0 <= i < |all| :: QueueKey(all[i].connection, all[i].name)) ==
      (set i | 0 <= i < |queues| :: QueueKey(queues[i].connection, queues[i].name)) + {QueueKey(q.connection, q.name)}
  {
    hide QueueKey;
    var all, n := queues + [q], |queues|;
    assert all[n] == q && forall k | 0 <= k < n :: all[k] == queues[k];
  }

  lemma KeyIsNew(queues: seq<QueueDefinition>, q: QueueDefinition, i: nat, jobs: map<Text, RegisteredJob>)
    requires (forall k | 0 <= k < |queues| :: Proper(queues[k])) && Proper(q) && QueuesDistinct(queues + [q])
    requires i < |q.jobs| && Indexes(jobs, AllJobs(queues) + q.jobs[..i])
    ensures q.jobs[i].key !in jobs
  {
    hide Key, QueuesDistinct, AllJobs;
    JobsOfOtherQueues(queues, q, q.jobs[i]);
  }

  lemma MetOnTheWay(providers: seq<Provider>, i: nat, n: nat)
    requires i < |providers| && (n in Instances(providers[..i]) || providers[i].instance == Some(n))
    ensures n in Instances(providers)
  {
    InstancesGrow(providers, i);
    if providers[i].instance == Some(n) { InstancesAreExact(providers, n); }
  }

  lemma BadQueueIsBlamed(providers: seq<Provider>, i: nat, classes: Classes, policies: Policies)
    requires i < |providers| && providers[i].instance.Some?
    requires !WellDeclared(classes(providers[i].instance.value), policies)
    ensures Blames(providers, classes, policies, BadQueue)
  {
    MetOnTheWay(providers, i, providers[i].instance.value);
  }

  /** A queue whose key is taken has the connection and name of a queue of another instance. */
  lemma DuplicateIsBlamed(
    providers: seq<Provider>, i: nat, classes: Classes, policies: Policies, queues: seq<QueueDefinition>,
    jobs: map<Text, RegisteredJob>, order: seq<RegisteredJob>, instances: set<nat>, queueKeys: set<Text>)
    requires i < |providers| && providers[i].instance.Some? && providers[i].instance.value !in instances
    requires Gathered(providers[..i], classes, policies, queues, jobs, order, instances, queueKeys)
    requires WellDeclared(classes(providers[i].instance.value), policies)
    requires
      var d := Definition(classes(providers[i].instance.value), policies);
      QueueKey(d.connection, d.name) in queueKeys
    ensures Blames(providers, classes, policies, DuplicateQueue)
  {
    hide Proper, Indexes, AllJobs, QueueKey;
    var few, b := Instances(providers[..i]), providers[i].instance.value;
    var d := Definition(classes(b), policies);
    var k :| 0 <= k < |queues| && QueueKey(queues[k].connection, queues[k].name) == QueueKey(d.connection, d.name);
    QueueKeysTellApart(queues[k].connection, queues[k].name, d.connection, d.name);
    var a := few[k];
    assert WellDeclared(classes(a), policies) && queues[k] == Definition(classes(a), policies);
    MetOnTheWay(providers, i, a);
    MetOnTheWay(providers, i, b);
    assert SameQueue(classes(a), classes(b));
  }

  class MqRegistry {
    var queueSnapshot: seq<QueueDefinition>
    var jobSnapshot: seq<RegisteredJob>
    var byIdentity: map<Text, RegisteredJob>
    var initialized: bool

    constructor ()
      ensures queueSnapshot == [] && jobSnapshot == [] && byIdentity == map[] && !initialized
    {
      queueSnapshot, jobSnapshot, byIdentity, initialized := [], [], map[], false;
    }

    method Get(identity: Text) returns (job: Option<RegisteredJob>)
      ensures job.Some? <==> identity in byIdentity
      ensures job.Some? ==> job.value == byIdentity[identity]
    {
      return if identity in byIdentity then Some(byIdentity[identity]) else None;
    }

    /** The inner loop over the jobs of one definition; its rejection can never happen. */
    method AddJobs(queues: seq<QueueDefinition>, q: QueueDefinition, jobs: map<Text, RegisteredJob>)
      returns (more: map<Text, RegisteredJob>, duplicate: bool)
      requires (forall i | 0 <= i < |queues| :: Proper(queues[i])) && Proper(q) && QueuesDistinct(queues + [q])
      requires Indexes(jobs, AllJobs(queues))
      ensures !duplicate && Indexes(more, AllJobs(queues + [q]))
    {
      hide Proper, QueuesDistinct, AllJobs, Key;
      more := jobs;
      AllJobsStep(queues, q);
      assert q.jobs[..0] == [] && AllJobs(queues) + [] == AllJobs(queues);
      for i := 0 to |q.jobs|
        invariant Indexes(more, AllJobs(queues) + q.jobs[..i])
      {
        var job := q.jobs[i];
        KeyIsNew(queues, q, i, more);
        if job.key in more { return more, true; }
        more := more[job.key := job];
        assert AllJobs(queues) + q.jobs[..i + 1] == AllJobs(queues) + q.jobs[..i] + [job];
      }
      assert q.jobs[..|q.jobs|] == q.jobs;
      return more, false;
    }

    /** `initialize`: publishes everything or nothing, and only once. */
    method Initialize(providers: seq<Provider>, classes: Classes, policies: Policies)
      returns (r: Result<(), RegistryError>)
      modifies this
      ensures r.Success? <==> old(initialized) || Registrable(providers, classes, policies)
      ensures r.Failure? ==> Blames(providers, classes, policies, r.error)
      ensures old(initialized) || r.Failure? ==>
        && queueSnapshot == old(queueSnapshot) && jobSnapshot == old(jobSnapshot)
        && byIdentity == old(byIdentity) && initialized == old(initialized)
      ensures r.Success? && !old(initialized) ==>
        && initialized
        && queueSnapshot == Definitions(Instances(providers), classes, policies)
        && jobSnapshot == AllJobs(queueSnapshot) && Indexes(byIdentity, jobSnapshot)
    {
      if initialized { return Success(()); }
      var gathered, jobs, order := Gather(providers, classes, policies);
      if gathered.Failure? { return Failure(gathered.error); }
      queueSnapshot := gathered.value;
      jobSnapshot := order;
      byIdentity := jobs;
      initialized := true;
      return Success(());
    }

    /** The loop over the providers, which only fills locals. */
    method Gather(providers: seq<Provider>, classes: Classes, policies: Policies)
      returns (r: Result<seq<QueueDefinition>, RegistryError>, jobs: map<Text, RegisteredJob>, order: seq<RegisteredJob>)
      ensures r.Success? <==> Registrable(providers, classes, policies)
      ensures r.Failure? ==> Blames(providers, classes, policies, r.error)
      ensures r.Success? ==>
        && r.value == Definitions(Instances(providers), classes, policies)
        && order == AllJobs(r.value) && Indexes(jobs, order)
    {
      hide Registrable, Indexes, AllJobs, Gathered, WellDeclared, Definition, QueueKey;
      var queues: seq<QueueDefinition> := [];
      var instances: set<nat> := {};
      var queueKeys: set<Text> := {};
      jobs, order := map[], [];
      NothingGathered(classes, policies);
      assert providers[..0] == [];
      for i := 0 to |providers|
        invariant Gathered(providers[..i], classes, policies, queues, jobs, order, instances, queueKeys)
      {
        var p := providers[i];
        if !Candidate(p) {
          SkipsProvider(providers, i, classes, policies, queues, jobs, order, instances, queueKeys);
          continue;
        }
        if !p.singleton || p.instance.None? {
          UnusableProvider(providers, i, classes, policies);
          assert p in providers;
          return Failure(if !p.singleton then NotSingleton else NotInitialized), jobs, order;
        }
        var instance := p.instance.value;
        if instance in instances {
          SkipsProvider(providers, i, classes, policies, queues, jobs, order, instances, queueKeys);
          continue;
        }
        var defined := GetQueueDefinition(classes(instance), policies);
        if defined.Failure? {
          BadQueueSpoils(providers, i, classes, policies, queues, jobs, order, instances, queueKeys);
          BadQueueIsBlamed(providers, i, classes, policies);
          return Failure(BadQueue), jobs, order;
        }
        var q := defined.value;
        var key := QueueKey(q.connection, q.name);
        if key in queueKeys {
          BadQueueSpoils(providers, i, classes, policies, queues, jobs, order, instances, queueKeys);
          DuplicateIsBlamed(providers, i, classes, policies, queues, jobs, order, instances, queueKeys);
          return Failure(DuplicateQueue), jobs, order;
        }
        AddsQueue(providers, i, classes, policies, queues, jobs, order, instances, queueKeys, q);
        GatheredIsProper(providers[..i], classes, policies, queues, jobs, order, instances, queueKeys);
        var more, duplicate := AddJobs(queues, q, jobs);
        if duplicate { return Failure(DuplicateJob), jobs, order; }
        GathersOn(providers, i, classes, policies, queues, jobs, order, instances, queueKeys, q, more);
        instances, queueKeys := instances + {instance}, queueKeys + {key};
        jobs, order, queues := more, order + q.jobs, queues + [q];
      }
      assert providers[..|providers|] == providers;
      GatheredIsProper(providers, classes, policies, queues, jobs, order, instances, queueKeys);
      return Success(queues), jobs, order;
    }

    method OnModuleDestroy()
      modifies this`queueSnapshot, this`jobSnapshot, this`byIdentity
      ensures queueSnapshot == [] && jobSnapshot == [] && byIdentity == map[]
    {
      queueSnapshot, jobSnapshot, byIdentity := [], [], map[];
    }
  }
}
