/** The admit / poison / drain / close gate that the transaction scope, the Kysely driver,
    the flow-result reader and the outbox retry adapter all keep.  A gate admits numbered
    operations while it is open, remembers the first failure, and once closed only drains. */
module Gates {
  import opened Outcomes

  datatype Gate<E> = Gate(accepting: bool, pending: set<nat>, failure: Option<E>) {
    function Poison(cause: E): Gate<E> {
      if failure.None? then this.(failure := Some(cause)) else this
    }

    /** A call on a closed gate is refused: it leaves no trace. */
    function Admit(id: nat): Gate<E> {
      if accepting then this.(pending := pending + {id}) else this
    }

    function Settle(id: nat, failed: Option<E>): Gate<E> {
      var noted := if failed.Some? then Poison(failed.value) else this;
      noted.(pending := pending - {id})
    }

    function Close(): Gate<E> {
      this.(accepting := false)
    }
  }

  function Open<E>(): Gate<E> {
    Gate(true, {}, None)
  }

  /** What can happen to a gate, in any order the event loop chooses. */
  datatype Use<E> = Call(id: nat) | Settled(id: nat, failed: Option<E>) | Poisoned(cause: E) | Closing

  function After<E>(g: Gate<E>, u: Use<E>): Gate<E> {
    match u
    case Call(id) => g.Admit(id)
    case Settled(id, failed) => g.Settle(id, failed)
    case Poisoned(cause) => g.Poison(cause)
    case Closing => g.Close()
  }

  function AfterAll<E>(g: Gate<E>, uses: seq<Use<E>>): Gate<E>
  {
    if uses == [] then g else After(AfterAll(g, uses[..|uses| - 1]), uses[|uses| - 1])
  }

  /** The failures a history records, oldest first: the reference for "the first failure". */
  function Failures<E>(uses: seq<Use<E>>): seq<E> {
    if uses == [] then []
    else
      var earlier := Failures(uses[..|uses| - 1]);
      match uses[|uses| - 1]
      case Settled(_, Some(cause)) => earlier + [cause]
      case Poisoned(cause) => earlier + [cause]
      case _ => earlier
  }

  /** Whatever happens later, the remembered failure is the first one recorded. */
  lemma {:induction false} FirstFailureIsRemembered<E>(uses: seq<Use<E>>)
    ensures var causes := Failures(uses);
            AfterAll(Open(), uses).failure == if causes == [] then None else Some(causes[0])
  {
    if uses != [] {
      FirstFailureIsRemembered(uses[..|uses| - 1]);
    }
  }

  /** A closed gate admits nothing: what is in flight can only shrink. */
  lemma {:induction false} ClosedGateOnlyDrains<E>(g: Gate<E>, uses: seq<Use<E>>)
    requires !g.accepting
    ensures !AfterAll(g, uses).accepting
    ensures AfterAll(g, uses).pending <= g.pending
  {
    if uses != [] {
      ClosedGateOnlyDrains(g, uses[..|uses| - 1]);
    }
  }

  /** Waiting for the operations in flight at the moment of closing is enough: when those have
      settled, nothing at all is in flight, and nothing ever will be. */
  lemma {:induction false} ClosingWaitsForEverything<E>(before: seq<Use<E>>, during: seq<Use<E>>, after: seq<Use<E>>)
    requires var closed := AfterAll(Open<E>(), before).Close();
             AfterAll(closed, during).pending !! closed.pending
    ensures var closed := AfterAll(Open<E>(), before).Close();
            && AfterAll(closed, during).pending == {}
            && AfterAll(AfterAll(closed, during), after).pending == {}
  {
    var closed := AfterAll(Open<E>(), before).Close();
    ClosedGateOnlyDrains(closed, during);
    ClosedGateOnlyDrains(AfterAll(closed, during), after);
  }
}
