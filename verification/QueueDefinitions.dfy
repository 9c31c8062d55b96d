/** What a queue class declares, and the definition made of it (queue-definition.ts). */
module QueueDefinitions {
  import opened Outcomes
  import opened JobIdentities

  datatype Backoff = Custom(policy: Text, version: int) | BuiltIn(kind: nat)
  datatype Retry = Retry(attempts: int, backoff: Option<Backoff>)
  datatype Policy = Policy(retry: Retry, delayMs: int)

  datatype Declaration = Declaration(name: Text, version: int)

  /** What the instance holds under a declared property. */
  datatype Held = Nothing | Accessor | Unrelated | Contract(id: nat)

  datatype Property = Property(name: Text, job: Option<Declaration>, held: Held)

  datatype Metadata = Metadata(connection: Text, name: Text)

  /** `undeclared`: some own field holds a contract without a declaration; `schedulesFit`: every
      schedule is declared on a declared job. */
  datatype QueueClass = QueueClass(
    metadata: Option<Metadata>,
    schedulesFit: bool,
    undeclared: bool,
    properties: seq<Property>
  )

  datatype RegisteredJob = RegisteredJob(property: Text, identity: Identity, key: Text, policy: Policy, contract: nat)

  datatype QueueDefinition = QueueDefinition(connection: Text, name: Text, jobs: seq<RegisteredJob>)

  datatype DefinitionError = DefinitionError

  /** Resolves the effective policy of a property, or rejects its options. */
  type Policies = Property -> Option<Policy>

  // ----- what a correct class declares

  predicate PropertySound(p: Property, policies: Policies) {
    p.job.Some? && p.held.Contract? && policies(p).Some?
  }

  /** No two jobs of the class have the same name and version. */
  ghost predicate Distinct(properties: seq<Property>) {
    forall i, j | 0 <= i < j < |properties| && properties[i].job.Some? && properties[j].job.Some? ::
      properties[i].job != properties[j].job
  }

  ghost predicate WellDeclared(q: QueueClass, policies: Policies) {
    && q.metadata.Some? && q.schedulesFit && !q.undeclared && q.properties != []
    && (forall i | 0 <= i < |q.properties| :: PropertySound(q.properties[i], policies))
    && Distinct(q.properties)
  }

  function IdentityOf(m: Metadata, d: Declaration): Identity {
    Identity(m.connection, m.name, d.name, d.version)
  }

  function Registered(m: Metadata, p: Property, policies: Policies): RegisteredJob
    requires PropertySound(p, policies)
  {
    var identity := IdentityOf(m, p.job.value);
    RegisteredJob(p.name, identity, Key(identity), policies(p).value, p.held.id)
  }

  /** The jobs of the properties, in their order. */
  function Jobs(m: Metadata, properties: seq<Property>, policies: Policies): seq<RegisteredJob>
    requires forall i | 0 <= i < |properties| :: PropertySound(properties[i], policies)
  {
    seq(|properties|, i requires 0 <= i < |properties| => Registered(m, properties[i], policies))
  }

  function Definition(q: QueueClass, policies: Policies): QueueDefinition
    requires WellDeclared(q, policies)
  {
    QueueDefinition(q.metadata.value.connection, q.metadata.value.name, Jobs(q.metadata.value, q.properties, policies))
  }

  // ----- the loop over the declarations

  lemma SameKeyMeansSameJob(m: Metadata, a: Declaration, b: Declaration)
    ensures Key(IdentityOf(m, a)) == Key(IdentityOf(m, b)) <==> a == b
  {
    KeysTellIdentitiesApart(IdentityOf(m, a), IdentityOf(m, b));
  }

  /** `getQueueDefinition`: rejects a class exactly when it declares something unsound, or two jobs of
      the same name and version; the keys of the jobs are then all different. */
  method GetQueueDefinition(q: QueueClass, policies: Policies) returns (r: Result<QueueDefinition, DefinitionError>)
    ensures r.Success? <==> WellDeclared(q, policies)
    ensures r.Success? ==> r.value == Definition(q, policies)
  {
    if q.metadata.None? || !q.schedulesFit || q.undeclared { return Failure(DefinitionError); }
    var m := q.metadata.value;
    var jobs: seq<RegisteredJob> := [];
    var identities: set<Text> := {};
    for i := 0 to |q.properties|
      invariant forall k | 0 <= k < i :: PropertySound(q.properties[k], policies)
      invariant Distinct(q.properties[..i])
      invariant jobs == Jobs(m, q.properties[..i], policies)
      invariant identities == set k | 0 <= k < i :: Key(IdentityOf(m, q.properties[k].job.value))
    {
      hide Key;
      var p := q.properties[i];
      if p.job.None? { return Failure(DefinitionError); }
      if !p.held.Contract? { return Failure(DefinitionError); }
      var key := Key(IdentityOf(m, p.job.value));
      forall k | 0 <= k < i
        ensures Key(IdentityOf(m, q.properties[k].job.value)) == key <==> q.properties[k].job == p.job
      {
        SameKeyMeansSameJob(m, q.properties[k].job.value, p.job.value);
      }
      if key in identities { return Failure(DefinitionError); }
      identities := identities + {key};
      var policy := policies(p);
      if policy.None? { return Failure(DefinitionError); }
      jobs := jobs + [RegisteredJob(p.name, IdentityOf(m, p.job.value), key, policy.value, p.held.id)];
      assert q.properties[..i + 1] == q.properties[..i] + [p];
    }
    assert q.properties[..|q.properties|] == q.properties;
    if |jobs| == 0 { return Failure(DefinitionError); }
    return Success(QueueDefinition(m.connection, m.name, jobs));
  }

  /** A definition has the queue's names and one job for each property, in their order: the job is
      named and versioned as declared, has the policy resolved for the property and the contract held
      under it, and no two jobs have the same key. */
  lemma JobsOfDefinition(q: QueueClass, policies: Policies)
    requires WellDeclared(q, policies)
    ensures
      var d := Definition(q, policies);
      && Some(Metadata(d.connection, d.name)) == q.metadata && |d.jobs| == |q.properties|
      && (forall i | 0 <= i < |d.jobs| ::
            var job, p := d.jobs[i], q.properties[i];
            && job.property == p.name && Some(Declaration(job.identity.name, job.identity.version)) == p.job
            && Some(job.policy) == policies(p) && p.held == Contract(job.contract))
      && (forall job | job in d.jobs ::
            job.identity.connection == d.connection && job.identity.queue == d.name && job.key == Key(job.identity))
      && (forall i, j | 0 <= i < j < |d.jobs| :: d.jobs[i].key != d.jobs[j].key)
  {
    hide Key;
    var d, m := Definition(q, policies), q.metadata.value;
    forall i | 0 <= i < |d.jobs|
      ensures
        var job, p := d.jobs[i], q.properties[i];
        && job.property == p.name && Some(Declaration(job.identity.name, job.identity.version)) == p.job
        && Some(job.policy) == policies(p) && p.held == Contract(job.contract)
    {
      assert PropertySound(q.properties[i], policies);
    }
    forall i, j | 0 <= i < j < |d.jobs| ensures d.jobs[i].key != d.jobs[j].key {
      SameKeyMeansSameJob(m, q.properties[i].job.value, q.properties[j].job.value);
    }
  }
}
