/** The reference to a custom retry policy that a publication carries and a worker checks
    (retry-reference.ts). */
module RetryReferences {
  import opened Outcomes
  import opened JobIdentities
  import opened QueueDefinitions
  import J = JsonText

  /** "__better_nest_mq_retry" */
  const RETRY_REFERENCE: Text :=
    [0x5F, 0x5F, 0x62, 0x65, 0x74, 0x74, 0x65, 0x72, 0x5F, 0x6E, 0x65, 0x73, 0x74, 0x5F,
     0x6D, 0x71, 0x5F, 0x72, 0x65, 0x74, 0x72, 0x79]

  /** What a caller passes as metadata: string fields, or anything else. */
  datatype Raw = Fields(fields: map<Text, Text>) | NotStringData

  datatype RetryError = BadMetadata | ReservedField | PolicyDiffers | BadRetry

  /** The policy name and version a retry setting names, if it names one. */
  function Named(retry: Retry): Option<(Text, int)> {
    match retry.backoff
    case Some(Custom(policy, version)) => Some((policy, version))
    case _ => None
  }

  function ReferenceText(retry: Retry): Option<Text> {
    match retry.backoff
    case Some(Custom(policy, version)) => Some(J.TupleText([J.Str(policy), J.Int(version)]))
    case _ => None
  }

  function RetryReference(job: RegisteredJob): Option<Text> {
    ReferenceText(job.policy.retry)
  }

  function PublicationMetadata(job: RegisteredJob, metadata: Raw): Result<map<Text, Text>, RetryError> {
    if metadata.NotStringData? then Failure(BadMetadata)
    else if RETRY_REFERENCE in metadata.fields then Failure(ReservedField)
    else
      var reference := RetryReference(job);
      if reference.None? then Success(metadata.fields)
      else Success(metadata.fields[RETRY_REFERENCE := reference.value])
  }

  /** `assertRetryReference` does not throw. */
  predicate WorkerAccepts(job: RegisteredJob, metadata: map<Text, Text>) {
    (if RETRY_REFERENCE in metadata then Some(metadata[RETRY_REFERENCE]) else None) == RetryReference(job)
  }

  /** `publicationRetry`; `valid` stands for the validation of the numbers. */
  function PublicationRetry(job: RegisteredJob, override: Option<Retry>, valid: Retry -> bool): Result<Retry, RetryError> {
    var retry := if override.Some? then override.value else job.policy.retry;
    if !valid(retry) then Failure(BadRetry)
    else if ReferenceText(retry) != RetryReference(job) then Failure(PolicyDiffers)
    else Success(retry)
  }

  lemma ReferenceNamesThePolicy(a: Retry, b: Retry)
    ensures ReferenceText(a) == ReferenceText(b) <==> Named(a) == Named(b)
  {
    if Named(a).Some? && Named(b).Some? {
      var x, y := [J.Str(a.backoff.value.policy), J.Int(a.backoff.value.version)],
                  [J.Str(b.backoff.value.policy), J.Int(b.backoff.value.version)];
      J.TupleTextIsInjective(x, y);
      if x == y { assert x[0] == y[0] && x[1] == y[1]; }
    }
  }

  /** Whatever metadata accompanies a publication, a worker accepts it exactly when its own contract
      names the same custom policy and version as the publisher's, or neither names one. */
  lemma WorkerAcceptsExactlyTheSamePolicy(
    publisher: RegisteredJob, worker: RegisteredJob, metadata: Raw, published: map<Text, Text>)
    requires PublicationMetadata(publisher, metadata) == Success(published)
    ensures WorkerAccepts(worker, published) <==> Named(publisher.policy.retry) == Named(worker.policy.retry)
  {
    ReferenceNamesThePolicy(publisher.policy.retry, worker.policy.retry);
  }

  /** The caller's fields are published unchanged, and metadata is refused only for not being string
      data or for naming the reserved field. */
  lemma MetadataIsKept(job: RegisteredJob, metadata: Raw)
    ensures PublicationMetadata(job, metadata).Success? <==> metadata.Fields? && RETRY_REFERENCE !in metadata.fields
    ensures
      var r := PublicationMetadata(job, metadata);
      r.Success? ==> r.value - {RETRY_REFERENCE} == metadata.fields
  {
    var r := PublicationMetadata(job, metadata);
    if r.Success? {
      assert metadata.fields - {RETRY_REFERENCE} == metadata.fields;
      assert r.value - {RETRY_REFERENCE} == metadata.fields;
    }
  }

  /** An override for one message may change the numbers but not the named policy, so workers of the
      same contract accept it. */
  lemma OverrideKeepsThePolicy(job: RegisteredJob, override: Option<Retry>, valid: Retry -> bool)
    ensures
      var retry := if override.Some? then override.value else job.policy.retry;
      PublicationRetry(job, override, valid) ==
        if !valid(retry) then Failure(BadRetry)
        else if Named(retry) == Named(job.policy.retry) then Success(retry)
        else Failure(PolicyDiffers)
  {
    ReferenceNamesThePolicy(if override.Some? then override.value else job.policy.retry, job.policy.retry);
  }
}
