/** Discovery of the flow services and the check of their nesting (flow-discovery.ts). */
module FlowDiscovery {
  import opened Outcomes
  import opened Graphs
  import opened JobIdentities

  datatype Entry = Entry(identity: Identity, controlled: bool, perKey: bool, delayMs: int)

  datatype Reference = Reference(queue: nat, property: string)

  datatype FlowOptions = FlowOptions(name: string, parent: Reference, children: seq<Reference>, policy: nat)

  datatype Phase = FanOut | Collect

  datatype PhaseMethod = PhaseMethod(name: string, phase: Phase)

  /** A Nest provider; `service` unless it is an alias or has no class. */
  datatype Provider = Provider(
    service: bool,
    options: Option<FlowOptions>,
    phases: seq<PhaseMethod>,
    worker: Option<string>,
    handlers: set<string>
  )

  datatype Flow = Flow(
    owner: string,
    options: FlowOptions,
    parent: Entry,
    children: seq<Entry>,
    fanOut: string,
    collect: string
  )

  datatype FlowError = Definition | UnknownIdentity

  type Entries = map<Reference, Entry>

  // ----- what a correct application declares

  predicate IsFlow(p: Provider) {
    p.service && p.options.Some?
  }

  function Methods(phases: seq<PhaseMethod>, phase: Phase): seq<string> {
    if phases == [] then []
    else
      var rest := Methods(phases[..|phases| - 1], phase);
      var last := phases[|phases| - 1];
      if last.phase == phase then rest + [last.name] else rest
  }

  ghost predicate ServiceSound(p: Provider) {
    && p.worker.Some? && p.handlers != {}
    && |Methods(p.phases, FanOut)| == 1 && |Methods(p.phases, Collect)| == 1
    && (forall m | m in p.phases :: m.name !in p.handlers)
  }

  /** What tells the children of one flow apart: the result resolver does not see their queues. */
  function ResultKey(e: Entry): Text {
    NameKey(e.identity)
  }

  ghost predicate ReferencesSound(o: FlowOptions, entries: Entries) {
    && o.parent in entries && !entries[o.parent].controlled
    && (forall i | 0 <= i < |o.children| :: o.children[i] in entries && ChildSound(entries[o.children[i]]))
    && (forall i, j | 0 <= i < j < |o.children| ::
          ResultKey(entries[o.children[i]]) != ResultKey(entries[o.children[j]]))
  }

  predicate ChildSound(child: Entry) {
    !child.perKey && child.delayMs == 0
  }

  ghost predicate Sound(p: Provider, entries: Entries, compiles: Flow -> bool) {
    if IsFlow(p) then
      ServiceSound(p) && ReferencesSound(p.options.value, entries) && compiles(Compiled(p, entries))
    else p.service ==> p.phases == []
  }

  function Compiled(p: Provider, entries: Entries): Flow
    requires IsFlow(p) && ServiceSound(p) && ReferencesSound(p.options.value, entries)
  {
    var o := p.options.value;
    Flow(p.worker.value, o, entries[o.parent], Resolved(o.children, entries),
         Methods(p.phases, FanOut)[0], Methods(p.phases, Collect)[0])
  }

  function Resolved(references: seq<Reference>, entries: Entries): seq<Entry>
    requires forall r | r in references :: r in entries
  {
    seq(|references|, i requires 0 <= i < |references| => entries[references[i]])
  }

  ghost predicate AllSound(providers: seq<Provider>, entries: Entries, compiles: Flow -> bool) {
    forall i | 0 <= i < |providers| :: Sound(providers[i], entries, compiles)
  }

  /** No two flows share a name or a parent job. */
  ghost predicate Distinct(providers: seq<Provider>, entries: Entries) {
    forall i, j | 0 <= i < j < |providers| && IsFlow(providers[i]) && IsFlow(providers[j]) ::
      Apart(providers[i].options.value, providers[j].options.value, entries)
  }

  predicate Apart(a: FlowOptions, b: FlowOptions, entries: Entries) {
    && a.name != b.name
    && (a.parent in entries && b.parent in entries ==> entries[a.parent].identity != entries[b.parent].identity)
  }

  /** The flows of the providers, in their order. */
  function FlowsOf(providers: seq<Provider>, entries: Entries, compiles: Flow -> bool): seq<Flow>
    requires AllSound(providers, entries, compiles)
  {
    if providers == [] then []
    else
      var init, last := providers[..|providers| - 1], providers[|providers| - 1];
      assert forall i | 0 <= i < |init| :: init[i] == providers[i];
      assert Sound(last, entries, compiles);
      var flows := FlowsOf(init, entries, compiles);
      if IsFlow(last) then flows + [Compiled(last, entries)] else flows
  }

  // ----- nesting

  /** A child of the first flow is the parent job of the second. */
  ghost predicate Nested(a: Flow, b: Flow) {
    exists c | c in a.children :: c.identity == b.parent.identity
  }

  /** Flows nested in one another all the way round. */
  ghost predicate NestingCycle(flows: seq<Flow>, p: seq<nat>) {
    && |p| > 1 && p[0] == p[|p| - 1] && (forall i | 0 <= i < |p| :: p[i] < |flows|)
    && forall i | 0 < i < |p| :: Nested(flows[p[i - 1]], flows[p[i]])
  }

  ghost predicate NestingAcyclic(flows: seq<Flow>) {
    forall p :: !NestingCycle(flows, p)
  }

  ghost predicate FlowsDistinct(flows: seq<Flow>) {
    forall i, j | 0 <= i < j < |flows| ::
      flows[i].options.name != flows[j].options.name && flows[i].parent.identity != flows[j].parent.identity
  }

  type Index = map<Identity, nat>

  ghost predicate IndexesParents(flows: seq<Flow>, byParent: Index) {
    && (forall i | 0 <= i < |flows| :: flows[i].parent.identity in byParent && byParent[flows[i].parent.identity] == i)
    && (forall key | key in byParent :: byParent[key] < |flows| && flows[byParent[key]].parent.identity == key)
  }

  /** Where a child leads: to the flow it is the parent of, or out of the graph. */
  function Target(flows: seq<Flow>, byParent: Index, child: Entry): nat {
    if child.identity in byParent then byParent[child.identity] else |flows|
  }

  function Nesting(flows: seq<Flow>, byParent: Index): Graph<nat> {
    map i: nat | 0 <= i < |flows| ::
      seq(|flows[i].children|, k requires 0 <= k < |flows[i].children| => Target(flows, byParent, flows[i].children[k]))
  }

  lemma EdgesAreNestings(flows: seq<Flow>, byParent: Index, i: nat, j: nat)
    requires IndexesParents(flows, byParent) && i < |flows| && j < |flows|
    ensures Edge(Nesting(flows, byParent), i, j) <==> Nested(flows[i], flows[j])
  {
    var g := Nesting(flows, byParent);
    if Edge(g, i, j) {
      var k :| 0 <= k < |g[i]| && g[i][k] == j;
      assert flows[i].children[k].identity == flows[j].parent.identity;
    }
    if Nested(flows[i], flows[j]) {
      var c :| c in flows[i].children && c.identity == flows[j].parent.identity;
      var k :| 0 <= k < |flows[i].children| && flows[i].children[k] == c;
      assert g[i][k] == j;
    }
  }

  lemma CyclesAreNestingCycles(flows: seq<Flow>, byParent: Index)
    requires IndexesParents(flows, byParent)
    ensures Acyclic(Nesting(flows, byParent)) <==> NestingAcyclic(flows)
  {
    var g := Nesting(flows, byParent);
    forall p: seq<nat> ensures IsCycle(g, p) <==> NestingCycle(flows, p) {
      if forall i | 0 <= i < |p| :: p[i] < |flows| {
        forall i | 0 < i < |p| ensures Edge(g, p[i - 1], p[i]) <==> Nested(flows[p[i - 1]], flows[p[i]]) {
          EdgesAreNestings(flows, byParent, p[i - 1], p[i]);
        }
      }
    }
  }

  // ----- the discovery

  /** The recursion over nested flows; the path holds the names of the flows being visited. */
  method Visit(flows: seq<Flow>, byParent: Index, i: nat, path: set<string>, ghost visiting: set<nat>)
    returns (ok: bool)
    requires FlowsDistinct(flows) && IndexesParents(flows, byParent) && i < |flows|
    requires forall k | k in visiting :: k < |flows|
    requires path == set k | k in visiting :: flows[k].options.name
    ensures ok <==> Accepts(Nesting(flows, byParent), i, visiting)
    decreases Nesting(flows, byParent).Keys - visiting
  {
    var flow := flows[i];
    assert flow.options.name in path <==> i in visiting;
    if flow.options.name in path { return false; }
    hide FlowsDistinct;
    var next := path + {flow.options.name};
    for k := 0 to |flow.children|
      invariant forall j | 0 <= j < k :: flow.children[j].identity in byParent ==>
        Accepts(Nesting(flows, byParent), byParent[flow.children[j].identity], visiting + {i})
    {
      var child := flow.children[k];
      if child.identity in byParent {
        ghost var g := Nesting(flows, byParent);
        assert g[i][k] == byParent[child.identity];
        var accepted := Visit(flows, byParent, byParent[child.identity], next, visiting + {i});
        if !accepted { return false; }
      }
    }
    return true;
  }

  lemma OneMoreParent(flows: seq<Flow>, byParent: Index, i: nat)
    requires FlowsDistinct(flows) && i < |flows| && IndexesParents(flows[..i], byParent)
    ensures IndexesParents(flows[..i + 1], byParent[flows[i].parent.identity := i])
  {
    var more, key := byParent[flows[i].parent.identity := i], flows[i].parent.identity;
    forall k | 0 <= k < i + 1 ensures flows[k].parent.identity in more && more[flows[k].parent.identity] == k {
      if k < i { assert flows[..i][k] == flows[k]; }
    }
    assert forall other | other in byParent :: flows[..i][byParent[other]] == flows[byParent[other]];
  }

  /** Every flow by the job it is the parent of. */
  method IndexParents(flows: seq<Flow>) returns (byParent: Index)
    requires FlowsDistinct(flows)
    ensures IndexesParents(flows, byParent)
  {
    byParent := map[];
    for i := 0 to |flows|
      invariant IndexesParents(flows[..i], byParent)
    {
      OneMoreParent(flows, byParent, i);
      byParent := byParent[flows[i].parent.identity := i];
    }
    assert flows[..|flows|] == flows;
  }

  /** A visit from every flow. */
  method CheckNesting(flows: seq<Flow>) returns (ok: bool)
    requires FlowsDistinct(flows)
    ensures ok <==> NestingAcyclic(flows)
  {
    hide FlowsDistinct, IndexesParents, Accepts, NestingAcyclic, Acyclic;
    var byParent := IndexParents(flows);
    CyclesAreNestingCycles(flows, byParent);
    AllAcceptMeansAcyclic(Nesting(flows, byParent));
    for i := 0 to |flows|
      invariant forall j: nat | j < i :: Accepts(Nesting(flows, byParent), j, {})
    {
      var accepted := Visit(flows, byParent, i, {}, {});
      if !accepted {
        assert i in Nesting(flows, byParent);
        return false;
      }
    }
    return true;
  }

  lemma {:induction false} FlowComesFrom(providers: seq<Provider>, entries: Entries, compiles: Flow -> bool, k: nat)
    returns (i: nat)
    requires AllSound(providers, entries, compiles) && k < |FlowsOf(providers, entries, compiles)|
    ensures i < |providers| && IsFlow(providers[i])
    ensures Sound(providers[i], entries, compiles)
    ensures FlowsOf(providers, entries, compiles)[k] == Compiled(providers[i], entries)
  {
    var n := |providers| - 1;
    var init := providers[..n];
    assert forall j | 0 <= j < |init| :: init[j] == providers[j];
    if k < |FlowsOf(init, entries, compiles)| {
      i := FlowComesFrom(init, entries, compiles, k);
    } else {
      i := n;
    }
    assert Sound(providers[i], entries, compiles);
  }

  lemma {:induction false} FlowsAreDistinct(providers: seq<Provider>, entries: Entries, compiles: Flow -> bool)
    requires AllSound(providers, entries, compiles) && Distinct(providers, entries)
    ensures FlowsDistinct(FlowsOf(providers, entries, compiles))
  {
    if providers != [] {
      var n := |providers| - 1;
      var init, flows := providers[..n], FlowsOf(providers, entries, compiles);
      assert forall j | 0 <= j < |init| :: init[j] == providers[j];
      FlowsAreDistinct(init, entries, compiles);
      var before := FlowsOf(init, entries, compiles);
      if IsFlow(providers[n]) {
        assert Sound(providers[n], entries, compiles);
        forall k | 0 <= k < |before|
          ensures flows[k].options.name != flows[|before|].options.name
          ensures flows[k].parent.identity != flows[|before|].parent.identity
        {
          var i := FlowComesFrom(init, entries, compiles, k);
          assert Apart(providers[i].options.value, providers[n].options.value, entries);
        }
      }
    }
  }

  /** `name` is the one method of the phase. */
  ghost predicate OnlyMethod(phases: seq<PhaseMethod>, phase: Phase, name: string) {
    exists k: nat ::
      k < |phases| && phases[k] == PhaseMethod(name, phase)
      && forall j | 0 <= j < |phases| && phases[j].phase == phase :: j == k
  }

  lemma {:induction false} MethodsAreExact(phases: seq<PhaseMethod>, phase: Phase) returns (at: seq<nat>)
    ensures |at| == |Methods(phases, phase)|
    ensures forall i | 0 <= i < |at| :: at[i] < |phases| && phases[at[i]] == PhaseMethod(Methods(phases, phase)[i], phase)
    ensures forall k: nat | k < |phases| && phases[k].phase == phase :: k in at
  {
    at := [];
    if phases != [] {
      var init := phases[..|phases| - 1];
      at := MethodsAreExact(init, phase);
      if phases[|init|].phase == phase { at := at + [|init|]; }
    }
  }

  lemma OneMethod(phases: seq<PhaseMethod>, phase: Phase)
    requires |Methods(phases, phase)| == 1
    ensures OnlyMethod(phases, phase, Methods(phases, phase)[0])
  {
    var at := MethodsAreExact(phases, phase);
    var k := at[0];
    forall j: nat | j < |phases| && phases[j].phase == phase ensures j == k {
      assert j in at;
    }
    assert phases[k] == PhaseMethod(Methods(phases, phase)[0], phase);
  }

  /** The flow is what its provider declares, with every reference resolved. */
  ghost predicate AsDeclared(flow: Flow, p: Provider, entries: Entries) {
    && p.service && p.options == Some(flow.options) && p.worker == Some(flow.owner)
    && flow.options.parent in entries && flow.parent == entries[flow.options.parent]
    && |flow.children| == |flow.options.children|
    && (forall i | 0 <= i < |flow.children| ::
          flow.options.children[i] in entries && flow.children[i] == entries[flow.options.children[i]])
    && OnlyMethod(p.phases, FanOut, flow.fanOut) && OnlyMethod(p.phases, Collect, flow.collect)
  }

  /** The flows are those of the providers that declare one, in their order, each as declared. */
  lemma {:induction false} FlowsAreAsDeclared(providers: seq<Provider>, entries: Entries, compiles: Flow -> bool)
    returns (at: seq<nat>)
    requires AllSound(providers, entries, compiles)
    ensures |at| == |FlowsOf(providers, entries, compiles)|
    ensures forall i, j | 0 <= i < j < |at| :: at[i] < at[j]
    ensures forall k: nat :: k in at <==> k < |providers| && providers[k].service && providers[k].options.Some?
    ensures forall i | 0 <= i < |at| ::
      at[i] < |providers| && AsDeclared(FlowsOf(providers, entries, compiles)[i], providers[at[i]], entries)
  {
    at := [];
    if providers != [] {
      var n := |providers| - 1;
      var init, last := providers[..n], providers[n];
      assert forall j | 0 <= j < |init| :: init[j] == providers[j];
      at := FlowsAreAsDeclared(init, entries, compiles);
      assert Sound(last, entries, compiles);
      if IsFlow(last) {
        OneMethod(last.phases, FanOut);
        OneMethod(last.phases, Collect);
        assert AsDeclared(Compiled(last, entries), last, entries);
        ghost var before := at;
        at := at + [n];
        assert forall k: nat :: k in at <==> k in before || k == n;
      }
    }
  }

  ghost predicate ChildrenSound(references: seq<Reference>, entries: Entries) {
    && (forall i | 0 <= i < |references| :: references[i] in entries && ChildSound(entries[references[i]]))
    && (forall i, j | 0 <= i < j < |references| ::
          ResultKey(entries[references[i]]) != ResultKey(entries[references[j]]))
  }

  /** The loop over the declared children. */
  method ResolveChildren(references: seq<Reference>, entries: Entries) returns (r: Result<seq<Entry>, FlowError>)
    ensures r.Success? <==> ChildrenSound(references, entries)
    ensures r.Success? ==> r.value == Resolved(references, entries)
    ensures r == Failure(UnknownIdentity) ==> exists x | x in references :: x !in entries
  {
    hide ResultKey;
    var children: seq<Entry> := [];
    var identities := {};
    for i := 0 to |references|
      invariant ChildrenSound(references[..i], entries)
      invariant children == Resolved(references[..i], entries)
      invariant identities == set j | 0 <= j < i :: ResultKey(entries[references[j]])
    {
      var reference := references[i];
      if reference !in entries { return Failure(UnknownIdentity); }
      var child := entries[reference];
      var key := ResultKey(child);
      if key in identities {
        ghost var j :| 0 <= j < i && ResultKey(entries[references[j]]) == key;
        return Failure(Definition);
      }
      identities := identities + {key};
      if child.perKey { return Failure(Definition); }
      if child.delayMs != 0 { return Failure(Definition); }
      children := children + [child];
      assert references[..i + 1] == references[..i] + [reference];
    }
    assert references[..|references|] == references;
    return Success(children);
  }

  lemma ReferencesSplit(o: FlowOptions, entries: Entries)
    ensures ReferencesSound(o, entries) <==>
      o.parent in entries && !entries[o.parent].controlled && ChildrenSound(o.children, entries)
  {
  }

  /** The checks of one provider, up to its place in the list of flows. */
  method Examine(p: Provider, names: set<string>, parents: set<Identity>, entries: Entries, compiles: Flow -> bool)
    returns (r: Result<Option<Flow>, FlowError>)
    ensures r.Success? <==>
      && Sound(p, entries, compiles)
      && (IsFlow(p) ==> p.options.value.name !in names && entries[p.options.value.parent].identity !in parents)
    ensures r.Success? ==> r.value == if IsFlow(p) then Some(Compiled(p, entries)) else None
  {
    if !p.service { return Success(None); }
    if p.options.None? {
      if p.phases != [] { return Failure(Definition); }
      return Success(None);
    }
    var o := p.options.value;
    ReferencesSplit(o, entries);
    if p.worker.None? { return Failure(Definition); }
    if p.handlers == {} { return Failure(Definition); }
    var fanOut, collect := Methods(p.phases, FanOut), Methods(p.phases, Collect);
    if |fanOut| != 1 || |collect| != 1 { return Failure(Definition); }
    if exists m | m in p.phases :: m.name in p.handlers { return Failure(Definition); }
    if o.parent !in entries { return Failure(UnknownIdentity); }
    var parent := entries[o.parent];
    if o.name in names || parent.identity in parents { return Failure(Definition); }
    if parent.controlled { return Failure(Definition); }
    var children := ResolveChildren(o.children, entries);
    if children.Failure? { return Failure(children.error); }
    var flow := Flow(p.worker.value, o, parent, children.value, fanOut[0], collect[0]);
    assert flow == Compiled(p, entries);
    if !compiles(flow) { return Failure(Definition); }
    return Success(Some(flow));
  }

  predicate Names(providers: seq<Provider>, name: string) {
    exists j | 0 <= j < |providers| :: IsFlow(providers[j]) && providers[j].options.value.name == name
  }

  predicate Parents(providers: seq<Provider>, entries: Entries, key: Identity) {
    exists j | 0 <= j < |providers| ::
      IsFlow(providers[j]) && providers[j].options.value.parent in entries
      && entries[providers[j].options.value.parent].identity == key
  }

  lemma NextIsApart(providers: seq<Provider>, entries: Entries, i: nat)
    requires i < |providers| && Distinct(providers[..i], entries) && IsFlow(providers[i])
    requires providers[i].options.value.parent in entries
    ensures
      var o := providers[i].options.value;
      Distinct(providers[..i + 1], entries) <==>
        !Names(providers[..i], o.name) && !Parents(providers[..i], entries, entries[o.parent].identity)
  {
    var o, before, upTo := providers[i].options.value, providers[..i], providers[..i + 1];
    if Names(before, o.name) {
      var j :| 0 <= j < |before| && IsFlow(before[j]) && before[j].options.value.name == o.name;
      assert !Apart(upTo[j].options.value, upTo[i].options.value, entries);
    }
    if Parents(before, entries, entries[o.parent].identity) {
      var j :| 0 <= j < |before| && IsFlow(before[j]) && before[j].options.value.parent in entries
        && entries[before[j].options.value.parent].identity == entries[o.parent].identity;
      assert !Apart(upTo[j].options.value, upTo[i].options.value, entries);
    }
    if !Names(before, o.name) && !Parents(before, entries, entries[o.parent].identity) {
      forall a, b | 0 <= a < b < |upTo| && IsFlow(upTo[a]) && IsFlow(upTo[b])
        ensures Apart(upTo[a].options.value, upTo[b].options.value, entries)
      {
        assert upTo[a] == before[a];
        if b < i { assert upTo[b] == before[b]; }
      }
    }
  }

  /** What the loop over the providers has gathered. */
  ghost predicate Gathered(
    providers: seq<Provider>, entries: Entries, compiles: Flow -> bool,
    flows: seq<Flow>, names: set<string>, parents: set<Identity>)
  {
    && AllSound(providers, entries, compiles) && Distinct(providers, entries)
    && flows == FlowsOf(providers, entries, compiles)
    && (forall name :: name in names <==> Names(providers, name))
    && (forall key :: key in parents <==> Parents(providers, entries, key))
  }

  /** The provider passes the checks exactly when the declarations stay sound and distinct with it. */
  lemma NextIsJudged(
    providers: seq<Provider>, i: nat, entries: Entries, compiles: Flow -> bool,
    flows: seq<Flow>, names: set<string>, parents: set<Identity>)
    requires i < |providers| && Gathered(providers[..i], entries, compiles, flows, names, parents)
    ensures
      var p := providers[i];
      && Sound(p, entries, compiles)
      && (IsFlow(p) ==> p.options.value.name !in names && entries[p.options.value.parent].identity !in parents)
      <==> AllSound(providers[..i + 1], entries, compiles) && Distinct(providers[..i + 1], entries)
  {
    var before, upTo, p := providers[..i], providers[..i + 1], providers[i];
    assert AllSound(upTo, entries, compiles) <==> Sound(p, entries, compiles) by {
      assert forall j | 0 <= j < i :: upTo[j] == before[j];
      assert upTo[i] == p;
    }
    if Sound(p, entries, compiles) {
      if IsFlow(p) {
        NextIsApart(providers, entries, i);
      } else {
        assert Distinct(upTo, entries) by {
          forall a, b | 0 <= a < b < |upTo| && IsFlow(upTo[a]) && IsFlow(upTo[b])
            ensures Apart(upTo[a].options.value, upTo[b].options.value, entries)
          {
            assert upTo[a] == before[a] && upTo[b] == before[b];
          }
        }
      }
    }
  }

  lemma NextIsGathered(
    providers: seq<Provider>, i: nat, entries: Entries, compiles: Flow -> bool,
    flows: seq<Flow>, names: set<string>, parents: set<Identity>)
    requires i < |providers| && Gathered(providers[..i], entries, compiles, flows, names, parents)
    requires AllSound(providers[..i + 1], entries, compiles) && Distinct(providers[..i + 1], entries)
    ensures
      if IsFlow(providers[i]) then
        && Sound(providers[i], entries, compiles)
        && var flow := Compiled(providers[i], entries);
           Gathered(providers[..i + 1], entries, compiles, flows + [flow],
                    names + {flow.options.name}, parents + {flow.parent.identity})
      else Gathered(providers[..i + 1], entries, compiles, flows, names, parents)
  {
    var before, upTo := providers[..i], providers[..i + 1];
    assert upTo[..|upTo| - 1] == before && upTo[|upTo| - 1] == providers[i];
    assert Sound(upTo[i], entries, compiles);
    assert upTo == before + [providers[i]];
    forall name ensures Names(upTo, name) <==>
      Names(before, name) || (IsFlow(providers[i]) && providers[i].options.value.name == name)
    {
      NamesGrow(before, providers[i], name);
    }
    forall key ensures Parents(upTo, entries, key) <==>
      Parents(before, entries, key)
      || (IsFlow(providers[i]) && providers[i].options.value.parent in entries
          && entries[providers[i].options.value.parent].identity == key)
    {
      ParentsGrow(before, providers[i], entries, key);
    }
  }

  lemma NamesGrow(before: seq<Provider>, p: Provider, name: string)
    ensures Names(before + [p], name) <==> Names(before, name) || (IsFlow(p) && p.options.value.name == name)
  {
    var upTo := before + [p];
    if IsFlow(p) && p.options.value.name == name { assert upTo[|before|] == p; }
    if Names(before, name) {
      var j :| 0 <= j < |before| && IsFlow(before[j]) && before[j].options.value.name == name;
      assert upTo[j] == before[j];
    }
  }

  lemma ParentsGrow(before: seq<Provider>, p: Provider, entries: Entries, key: Identity)
    ensures Parents(before + [p], entries, key) <==>
      Parents(before, entries, key)
      || (IsFlow(p) && p.options.value.parent in entries && entries[p.options.value.parent].identity == key)
  {
    var upTo := before + [p];
    if IsFlow(p) && p.options.value.parent in entries && entries[p.options.value.parent].identity == key {
      assert upTo[|before|] == p;
    }
    if Parents(before, entries, key) {
      var j :| 0 <= j < |before| && IsFlow(before[j]) && before[j].options.value.parent in entries
        && entries[before[j].options.value.parent].identity == key;
      assert upTo[j] == before[j];
    }
  }

  lemma PrefixIsFine(providers: seq<Provider>, i: nat, entries: Entries, compiles: Flow -> bool)
    requires i <= |providers|
    requires AllSound(providers, entries, compiles) && Distinct(providers, entries)
    ensures AllSound(providers[..i], entries, compiles) && Distinct(providers[..i], entries)
  {
    assert forall j | 0 <= j < i :: providers[..i][j] == providers[j];
  }

  /** `discoverFlows`: accepts exactly sound and distinct declarations without a nesting cycle. */
  method DiscoverFlows(providers: seq<Provider>, entries: Entries, compiles: Flow -> bool)
    returns (r: Result<seq<Flow>, FlowError>)
    ensures r.Success? <==>
      && AllSound(providers, entries, compiles) && Distinct(providers, entries)
      && NestingAcyclic(FlowsOf(providers, entries, compiles))
    ensures r.Success? ==> r.value == FlowsOf(providers, entries, compiles)
  {
    hide AllSound, Distinct, Sound, FlowsOf, NestingAcyclic;
    var flows: seq<Flow> := [];
    var names: set<string> := {};
    var parents: set<Identity> := {};
    NothingGathered(entries, compiles);
    assert providers[..0] == [];
    for i := 0 to |providers|
      invariant Gathered(providers[..i], entries, compiles, flows, names, parents)
    {
      NextIsJudged(providers, i, entries, compiles, flows, names, parents);
      var examined := Examine(providers[i], names, parents, entries, compiles);
      if examined.Failure? {
        if AllSound(providers, entries, compiles) && Distinct(providers, entries) {
          PrefixIsFine(providers, i + 1, entries, compiles);
        }
        return Failure(examined.error);
      }
      NextIsGathered(providers, i, entries, compiles, flows, names, parents);
      if examined.value.Some? {
        var flow := examined.value.value;
        flows := flows + [flow];
        names := names + {flow.options.name};
        parents := parents + {flow.parent.identity};
      }
    }
    assert providers[..|providers|] == providers;
    FlowsAreDistinct(providers, entries, compiles);
    var acyclic := CheckNesting(flows);
    if !acyclic { return Failure(Definition); }
    return Success(flows);
  }

  lemma NothingGathered(entries: Entries, compiles: Flow -> bool)
    ensures Gathered([], entries, compiles, [], {}, {})
  {
  }
}
