/** The paged reader of a flow's child results (flow-results.ts).  The store is arbitrary: every read
    may answer anything, and other reads of the same reader run in between. */
module FlowResults {
  import opened Outcomes
  import opened Gates
  import JsonText

  datatype Cursor = Cursor(text: JsonText.Text)

  const CURSOR_LIMIT: nat := 256
  const PAGE_LIMIT := 1000

  datatype EngineOutcome = EngineCompleted(result: nat) | EngineFailed(declared: Option<nat>) | EngineCancelled
  datatype Child = Child(definition: nat, key: string, outcome: EngineOutcome)

  datatype ItemOutcome = Completed(result: nat) | FailedWith(failure: Option<nat>) | Cancelled
  datatype Item = Item(key: string, job: Reference, outcome: ItemOutcome)

  type Reference = nat

  datatype Query = Query(limit: int, cursor: Option<Cursor>)
  datatype Reply = Page(children: seq<Child>, next: Option<Cursor>) | Unreadable

  datatype ReadError = NotOpen | UnknownChild | BadRequest | StoreFailed | TooMany | RepeatedCursor

  datatype ItemPage = ItemPage(items: seq<Item>, next: Option<Cursor>)

  datatype FlowChildren = FlowChildren(compiled: map<Reference, nat>, maxChildren: nat)

  /** What the n-th read of the reader meets: the answer, and the cursors that other reads of the
      same reader have been given by the time it comes back. */
  datatype World = World(reply: (nat, Query) -> Reply, others: nat -> set<Cursor>)

  // ----- the reference: the whole manifest, filtered

  function Shown(outcome: EngineOutcome): ItemOutcome {
    match outcome
    case EngineCompleted(result) => Completed(result)
    case EngineFailed(declared) => FailedWith(declared)
    case EngineCancelled => Cancelled
  }

  /** The children of one job definition, in the order of the manifest. */
  function Select(children: seq<Child>, job: Reference, definition: nat): seq<Item> {
    if children == [] then []
    else
      var earlier, last := Select(children[..|children| - 1], job, definition), children[|children| - 1];
      if last.definition == definition then earlier + [Item(last.key, job, Shown(last.outcome))] else earlier
  }

  lemma {:induction false} SelectConcat(a: seq<Child>, b: seq<Child>, job: Reference, definition: nat)
    ensures Select(a + b, job, definition) == Select(a, job, definition) + Select(b, job, definition)
  {
    if b == [] {
      assert a + b == a;
    } else {
      assert (a + b)[..|a + b| - 1] == a + b[..|b| - 1];
      SelectConcat(a, b[..|b| - 1], job, definition);
    }
  }

  /** An item tells of a child what the child's key and outcome are. */
  ghost predicate TellsOf(item: Item, child: Child, job: Reference) {
    && item.key == child.key && item.job == job
    && (forall result: nat :: child.outcome == EngineCompleted(result) <==> item.outcome == Completed(result))
    && (forall failure :: child.outcome == EngineFailed(failure) <==> item.outcome == FailedWith(failure))
  }

  /** `at` are the places of the children of one job definition, in order. */
  ghost predicate ArePlacesOf(at: seq<nat>, children: seq<Child>, definition: nat) {
    && (forall i, j | 0 <= i < j < |at| :: at[i] < at[j])
    && (forall k: nat :: k in at <==> k < |children| && children[k].definition == definition)
  }

  /** What is selected are exactly the children of the definition, each once and in their order, and
      the i-th item tells of the i-th of them. */
  lemma {:induction false} SelectIsExact(children: seq<Child>, job: Reference, definition: nat) returns (at: seq<nat>)
    ensures ArePlacesOf(at, children, definition) && |Select(children, job, definition)| == |at|
    ensures forall i | 0 <= i < |at| :: at[i] < |children| && TellsOf(Select(children, job, definition)[i], children[at[i]], job)
  {
    at := [];
    if children != [] {
      var init := children[..|children| - 1];
      at := SelectIsExact(init, job, definition);
      if children[|init|].definition == definition {
        ghost var before := at;
        at := at + [|init|];
        assert forall k: nat :: k in at <==> k in before || k == |init|;
      }
    }
  }

  function Children(replies: seq<Reply>): seq<Child> {
    if replies == [] then []
    else
      var last := replies[|replies| - 1];
      Children(replies[..|replies| - 1]) + if last.Page? then last.children else []
  }

  // ----- the cursors a reader accepts are finitely many

  predicate WellSized(cursor: Cursor) {
    0 < |cursor.text| <= CURSOR_LIMIT
  }

  ghost function CursorsUpTo(n: nat): set<Cursor> {
    if n == 0 then {Cursor([])}
    else
      var shorter := CursorsUpTo(n - 1);
      shorter + set u: JsonText.CodeUnit, c | 0 <= u < 0x1_0000 && c in shorter :: Extended(c, u)
  }

  ghost function Extended(c: Cursor, u: JsonText.CodeUnit): Cursor {
    Cursor(c.text + [u])
  }

  lemma {:induction false} CursorIsCounted(c: Cursor, n: nat)
    requires |c.text| <= n
    ensures c in CursorsUpTo(n)
    decreases n
  {
    if n > 0 {
      if |c.text| < n {
        CursorIsCounted(c, n - 1);
      } else {
        CursorIsCounted(Cursor(c.text[..n - 1]), n - 1);
        assert c == Extended(Cursor(c.text[..n - 1]), c.text[n - 1]);
      }
    } else {
      assert c == Cursor([]);
    }
  }

  // ----- how a collection goes

  /** The cursor of each read is the one the reply before it carried. */
  ghost predicate Follows(w: World, first: nat, replies: seq<Reply>) {
    forall k | 0 <= k < |replies| :: AnswersRead(w, first, replies, k)
  }

  ghost predicate AnswersRead(w: World, first: nat, replies: seq<Reply>, k: nat)
    requires k < |replies|
  {
    replies[k] == w.reply(first + k, Query(100, CursorBefore(replies, k)))
  }

  function CursorBefore(replies: seq<Reply>, k: nat): Option<Cursor>
    requires k <= |replies|
  {
    if k > 0 && replies[k - 1].Page? then replies[k - 1].next else None
  }

  /** The cursors that the replies carried. */
  ghost function Carried(replies: seq<Reply>): set<Cursor> {
    if replies == [] then {}
    else
      var last := replies[|replies| - 1];
      Carried(replies[..|replies| - 1]) + if last.Page? && last.next.Some? then {last.next.value} else {}
  }

  /** The last reply carries a cursor that was carried before. */
  ghost predicate Repeats(replies: seq<Reply>) {
    && replies != []
    && var last := replies[|replies| - 1];
       last.Page? && last.next.Some? && last.next.value in Carried(replies[..|replies| - 1])
  }

  /** After these replies the collection reads on. */
  ghost predicate Continues(replies: seq<Reply>, job: Reference, definition: nat, maxItems: int) {
    replies != [] ==>
      var last := replies[|replies| - 1];
      && last.Page? && last.next.Some? && WellSized(last.next.value)
      && |Select(Children(replies), job, definition)| <= maxItems && !Repeats(replies)
  }

  /** It read on after the first `k` replies. */
  ghost predicate WentOn(replies: seq<Reply>, k: nat, job: Reference, definition: nat, maxItems: int)
    requires k <= |replies|
  {
    Continues(replies[..k], job, definition, maxItems)
  }

  /** What the collection returns when it ends with these replies. */
  ghost function Verdict(replies: seq<Reply>, job: Reference, definition: nat, maxItems: int): Result<seq<Item>, ReadError>
    requires replies != []
  {
    var last, items := replies[|replies| - 1], Select(Children(replies), job, definition);
    if last.Unreadable? then Failure(StoreFailed)
    else if |items| > maxItems then Failure(TooMany)
    else if last.next.None? then Success(items)
    else if Repeats(replies) then Failure(RepeatedCursor)
    else Failure(BadRequest)
  }

  /** The replies of one whole collection: it goes on until it cannot. */
  ghost predicate Collection(w: World, first: nat, replies: seq<Reply>, job: Reference, definition: nat, maxItems: int) {
    && replies != [] && Follows(w, first, replies)
    && (forall k | 0 <= k < |replies| :: WentOn(replies, k, job, definition, maxItems))
    && !Continues(replies, job, definition, maxItems)
  }

  /** A whole collection, and the answer it amounts to. */
  ghost predicate Answers(
    w: World, first: nat, replies: seq<Reply>, job: Reference, definition: nat, maxItems: int,
    r: Result<seq<Item>, ReadError>)
  {
    Collection(w, first, replies, job, definition, maxItems) && r == Verdict(replies, job, definition, maxItems)
  }

  /** One turn of the loop: it ends, or goes on with more items and another cursor. */
  datatype Turn = Stop(result: Result<seq<Item>, ReadError>) | GoOn(items: seq<Item>, cursor: Cursor)

  /** The store's answers make the collection come to this. */
  ghost predicate Collects(
    w: World, first: nat, job: Reference, definition: nat, maxItems: int, r: Result<seq<Item>, ReadError>)
  {
    exists replies :: Answers(w, first, replies, job, definition, maxItems, r)
  }

  // ----- the reader

  /** A request the store may see: a sane limit, and a cursor that came from this reader. */
  predicate MayAsk(limit: int, cursor: Option<Cursor>, cursors: set<Cursor>) {
    && 1 <= limit <= PAGE_LIMIT
    && (cursor.Some? ==> WellSized(cursor.value) && cursor.value in cursors)
  }

  function Shape(reply: Reply, job: Reference, definition: nat): Result<ItemPage, ReadError> {
    match reply
    case Unreadable => Failure(StoreFailed)
    case Page(children, next) => Success(ItemPage(Select(children, job, definition), next))
  }

  /** Where the loop stands: all replies so far carried on, the last one carried `cursor`. */
  ghost predicate Underway(
    w: World, first: nat, replies: seq<Reply>, job: Reference, definition: nat, maxItems: int, cursor: Option<Cursor>)
  {
    && Follows(w, first, replies)
    && (forall k | 0 <= k < |replies| :: WentOn(replies, k, job, definition, maxItems))
    && cursor == CursorBefore(replies, |replies|)
    && (replies != [] ==>
          && replies[|replies| - 1].Page? && cursor.Some? && !Repeats(replies)
          && |Select(Children(replies), job, definition)| <= maxItems)
  }

  lemma OneMoreReply(
    w: World, first: nat, replies: seq<Reply>, job: Reference, definition: nat, maxItems: int,
    cursor: Option<Cursor>, reply: Reply)
    requires Underway(w, first, replies, job, definition, maxItems, cursor)
    requires cursor.Some? ==> WellSized(cursor.value)
    requires reply == w.reply(first + |replies|, Query(100, cursor))
    ensures
      var more := replies + [reply];
      && Follows(w, first, more)
      && (forall k | 0 <= k < |more| :: WentOn(more, k, job, definition, maxItems))
      && Children(more) == Children(replies) + (if reply.Page? then reply.children else [])
      && (reply.Page? && reply.next.Some? ==> (Repeats(more) <==> reply.next.value in Carried(replies)))
      && Carried(more) == Carried(replies) + (if reply.Page? && reply.next.Some? then {reply.next.value} else {})
      && (reply.Page? && reply.next.None? ==> !Repeats(more))
  {
    var more := replies + [reply];
    assert more[..|replies|] == replies;
    forall k | 0 <= k < |more| ensures WentOn(more, k, job, definition, maxItems) {
      if k < |replies| { assert more[..k] == replies[..k] && WentOn(replies, k, job, definition, maxItems); }
    }
    forall k | 0 <= k < |more| ensures AnswersRead(w, first, more, k) {
      if k < |replies| {
        assert AnswersRead(w, first, replies, k);
        assert CursorBefore(more, k) == CursorBefore(replies, k);
      } else {
        assert CursorBefore(more, k) == cursor;
      }
    }
  }

  /** The four ways a collection ends after a reply, and the one way it goes on. */
  lemma EndsOrGoesOn(
    w: World, first: nat, replies: seq<Reply>, job: Reference, definition: nat, maxItems: int,
    cursor: Option<Cursor>, reply: Reply)
    requires Underway(w, first, replies, job, definition, maxItems, cursor)
    requires cursor.Some? ==> WellSized(cursor.value)
    requires reply == w.reply(first + |replies|, Query(100, cursor))
    ensures
      var more := replies + [reply];
      var items := Select(Children(more), job, definition);
      && Carried(more) == Carried(replies) + (if reply.Page? && reply.next.Some? then {reply.next.value} else {})
      && (reply.Page? ==>
            items == Select(Children(replies), job, definition) + Select(reply.children, job, definition))
      && if reply.Page? && |items| <= maxItems && reply.next.Some? && reply.next.value !in Carried(replies)
         then Underway(w, first, more, job, definition, maxItems, reply.next)
         else
           Answers(w, first, more, job, definition, maxItems,
             if reply.Unreadable? then Failure(StoreFailed)
             else if |items| > maxItems then Failure(TooMany)
             else if reply.next.None? then Success(items)
             else Failure(RepeatedCursor))
  {
    OneMoreReply(w, first, replies, job, definition, maxItems, cursor, reply);
    if reply.Page? { SelectConcat(Children(replies), reply.children, job, definition); }
    var more := replies + [reply];
    assert more[|more| - 1] == reply;
    hide Follows, Children, Select, Repeats, Carried;
  }

  lemma EndsOnBadCursor(
    w: World, first: nat, replies: seq<Reply>, job: Reference, definition: nat, maxItems: int, cursor: Option<Cursor>)
    requires Underway(w, first, replies, job, definition, maxItems, cursor)
    requires cursor.Some? && !WellSized(cursor.value)
    ensures Answers(w, first, replies, job, definition, maxItems, Failure(BadRequest))
  {
    hide Follows, Children, Select, Repeats, Carried;
  }

  lemma NothingRead(w: World, first: nat, job: Reference, definition: nat, maxItems: int)
    ensures Underway(w, first, [], job, definition, maxItems, None) && Carried([]) == {}
    ensures Select(Children([]), job, definition) == []
  {
  }

  class FlowResultReader {
    const flow: FlowChildren
    var open: bool
    var cursors: set<Cursor>
    var active: set<nat>
    /** How many times the store has been asked. */
    var asked: nat

    constructor (flow: FlowChildren)
      ensures View() == Open() && cursors == {} && asked == 0 && this.flow == flow
    {
      this.flow := flow;
      open, cursors, active, asked := true, {}, {}, 0;
    }

    ghost function View(): Gate<ReadError>
      reads this
    {
      Gate(open, active, None)
    }

    /** `admitted` up to its await, for the operation `id`. */
    method Enter(id: nat) returns (ok: bool)
      modifies this`active
      ensures ok == open && View() == old(View()).Admit(id)
    {
      if !open { return false; }
      active := active + {id};
      return true;
    }

    /** The `finally` of `admitted`. */
    method Leave(id: nat)
      modifies this`active
      ensures View() == old(View()).Settle(id, None)
    {
      active := active - {id};
    }

    /** `close` up to its await; the result is what Promise.all was given. */
    method Close() returns (waiting: set<nat>)
      modifies this`open
      ensures View() == old(View()).Close() && waiting == active
    {
      open := false;
      return active;
    }

    /** `readPage`: rejects a foreign cursor without asking the store. */
    method ReadPage(job: Reference, limit: int, cursor: Option<Cursor>, w: World)
      returns (r: Result<ItemPage, ReadError>)
      modifies this`cursors, this`asked
      ensures old(cursors) <= cursors
      ensures job !in flow.compiled ==> r == Failure(UnknownChild)
      ensures job in flow.compiled && !MayAsk(limit, cursor, old(cursors)) ==> r == Failure(BadRequest)
      ensures r.Failure? && !r.error.StoreFailed? ==> asked == old(asked) && cursors == old(cursors)
      ensures job in flow.compiled && MayAsk(limit, cursor, old(cursors)) ==>
        && asked == old(asked) + 1
        && r == Shape(w.reply(old(asked), Query(limit, cursor)), job, flow.compiled[job])
        && cursors == old(cursors) + w.others(old(asked))
             + (if r.Success? && r.value.next.Some? then {r.value.next.value} else {})
    {
      if job !in flow.compiled { return Failure(UnknownChild); }
      var definition := flow.compiled[job];
      if limit < 1 || limit > PAGE_LIMIT { return Failure(BadRequest); }
      if cursor.Some? && (|cursor.value.text| == 0 || |cursor.value.text| > CURSOR_LIMIT || cursor.value !in cursors) {
        return Failure(BadRequest);
      }
      var reply := w.reply(asked, Query(limit, cursor));
      cursors := cursors + w.others(asked);
      asked := asked + 1;
      if reply.Unreadable? { return Failure(StoreFailed); }
      var items: seq<Item> := [];
      for i := 0 to |reply.children|
        invariant items == Select(reply.children[..i], job, definition)
      {
        var child := reply.children[i];
        assert reply.children[..i + 1][..i] == reply.children[..i];
        if child.definition != definition { continue; }
        match child.outcome {
          case EngineCompleted(result) => items := items + [Item(child.key, job, Completed(result))];
          case EngineFailed(declared) => items := items + [Item(child.key, job, FailedWith(declared))];
          case EngineCancelled => items := items + [Item(child.key, job, Cancelled)];
        }
      }
      assert reply.children[..|reply.children|] == reply.children;
      if reply.next.Some? { cursors := cursors + {reply.next.value}; }
      return Success(ItemPage(items, reply.next));
    }

    /** The body of the loop of `all`. */
    method NextPage(
      job: Reference, maxItems: int, w: World, items: seq<Item>, seen: set<Cursor>, cursor: Option<Cursor>,
      ghost first: nat, ghost before: seq<Reply>)
      returns (turn: Turn, ghost replies: seq<Reply>)
      requires job in flow.compiled && asked == first + |before|
      requires Underway(w, first, before, job, flow.compiled[job], maxItems, cursor)
      requires items == Select(Children(before), job, flow.compiled[job]) && seen == Carried(before)
      requires cursor.Some? ==> cursor.value in cursors
      modifies this`cursors, this`asked
      ensures asked == first + |replies|
      ensures turn.Stop? ==> Answers(w, first, replies, job, flow.compiled[job], maxItems, turn.result)
      ensures turn.GoOn? ==>
        && Underway(w, first, replies, job, flow.compiled[job], maxItems, Some(turn.cursor))
        && turn.items == Select(Children(replies), job, flow.compiled[job])
        && seen + {turn.cursor} == Carried(replies) && turn.cursor !in seen && turn.cursor in cursors
        && (cursor.Some? ==> WellSized(cursor.value))
    {
      hide Underway, Select, Children, Carried, Answers, WellSized;
      ghost var definition := flow.compiled[job];
      replies := before;
      var page := ReadPage(job, 100, cursor, w);
      if page.Failure? && page.error.BadRequest? {
        EndsOnBadCursor(w, first, before, job, definition, maxItems, cursor);
        return Stop(Failure(BadRequest)), replies;
      }
      ghost var reply := w.reply(first + |before|, Query(100, cursor));
      EndsOrGoesOn(w, first, before, job, definition, maxItems, cursor, reply);
      replies := before + [reply];
      if page.Failure? { return Stop(Failure(page.error)), replies; }
      var more := items + page.value.items;
      if |more| > maxItems { return Stop(Failure(TooMany)), replies; }
      var next := page.value.next;
      if next.Some? && next.value in seen { return Stop(Failure(RepeatedCursor)), replies; }
      if next.None? { return Stop(Success(more)), replies; }
      return GoOn(more, next.value), replies;
    }

    /** The loop of `all`.  It ends whatever the store answers: no cursor is followed twice, and one
        that is not between 1 and 256 code units long is not followed at all. */
    method Collect(job: Reference, maxItems: int, w: World)
      returns (r: Result<seq<Item>, ReadError>, ghost replies: seq<Reply>)
      requires job in flow.compiled
      modifies this`cursors, this`asked
      ensures Answers(w, old(asked), replies, job, flow.compiled[job], maxItems, r)
      ensures asked == old(asked) + |replies|
    {
      replies := [];
      var items: seq<Item> := [];
      var seen: set<Cursor> := {};
      var cursor: Option<Cursor> := None;
      ghost var followed, allowed := {}, CursorsUpTo(CURSOR_LIMIT);
      NothingRead(w, asked, job, flow.compiled[job], maxItems);
      hide Underway, Select, Children, Carried, Answers;
      while true
        invariant asked == old(asked) + |replies|
        invariant Underway(w, old(asked), replies, job, flow.compiled[job], maxItems, cursor)
        invariant items == Select(Children(replies), job, flow.compiled[job]) && seen == Carried(replies)
        invariant cursor.Some? ==> cursor.value in cursors && cursor.value !in followed
        invariant seen == followed + if cursor.Some? then {cursor.value} else {}
        decreases if cursor.None? then 1 else 0, allowed - followed
      {
        var turn;
        turn, replies := NextPage(job, maxItems, w, items, seen, cursor, old(asked), replies);
        if turn.Stop? { return turn.result, replies; }
        if cursor.Some? {
          CursorIsCounted(cursor.value, CURSOR_LIMIT);
          followed := followed + {cursor.value};
        }
        items, cursor, seen := turn.items, Some(turn.cursor), seen + {turn.cursor};
      }
    }

    /** `all`, once admitted. */
    method All(job: Reference, maxItems: int, w: World)
      returns (r: Result<seq<Item>, ReadError>, ghost replies: seq<Reply>)
      modifies this`cursors, this`asked
      ensures maxItems < 0 || maxItems > flow.maxChildren ==> r == Failure(BadRequest) && asked == old(asked)
      ensures 0 <= maxItems <= flow.maxChildren && job !in flow.compiled ==>
        r == Failure(UnknownChild) && asked == old(asked)
      ensures 0 <= maxItems <= flow.maxChildren && job in flow.compiled ==>
        && Answers(w, old(asked), replies, job, flow.compiled[job], maxItems, r)
        && asked == old(asked) + |replies|
    {
      replies := [];
      if maxItems < 0 || maxItems > flow.maxChildren { return Failure(BadRequest), replies; }
      if job !in flow.compiled { return Failure(UnknownChild), replies; }
      r, replies := Collect(job, maxItems, w);
    }
  }

  // ----- what a collection amounts to

  lemma {:induction false} SameReplies(w: World, first: nat, a: seq<Reply>, b: seq<Reply>, n: nat)
    requires Follows(w, first, a) && Follows(w, first, b) && n <= |a| && n <= |b|
    ensures forall k | 0 <= k < n :: a[k] == b[k]
  {
    if n > 0 {
      SameReplies(w, first, a, b, n - 1);
      assert AnswersRead(w, first, a, n - 1) && AnswersRead(w, first, b, n - 1);
      assert CursorBefore(a, n - 1) == CursorBefore(b, n - 1);
    }
  }

  lemma NoLonger(
    w: World, first: nat, a: seq<Reply>, b: seq<Reply>, job: Reference, definition: nat, maxItems: int)
    requires Collection(w, first, a, job, definition, maxItems) && Collection(w, first, b, job, definition, maxItems)
    ensures |b| <= |a|
  {
    forall k | 0 <= k < |b| ensures Continues(b[..k], job, definition, maxItems) {
      assert WentOn(b, k, job, definition, maxItems);
    }
    var n := if |a| < |b| then |a| else |b|;
    SameReplies(w, first, a, b, n);
    assert b[..n] == a[..n];
    assert a[..|a|] == a;
  }

  /** A collection has exactly one course, so its outcome is what the store's answers make it. */
  lemma CollectionIsDetermined(
    w: World, first: nat, job: Reference, definition: nat, maxItems: int,
    r: Result<seq<Item>, ReadError>, r': Result<seq<Item>, ReadError>)
    requires Collects(w, first, job, definition, maxItems, r) && Collects(w, first, job, definition, maxItems, r')
    ensures r == r'
  {
    var a :| Answers(w, first, a, job, definition, maxItems, r);
    var b :| Answers(w, first, b, job, definition, maxItems, r');
    NoLonger(w, first, a, b, job, definition, maxItems);
    NoLonger(w, first, b, a, job, definition, maxItems);
    SameReplies(w, first, a, b, |a|);
    assert a == b;
  }

  function Flatten(pages: seq<seq<Child>>): seq<Child> {
    if pages == [] then [] else Flatten(pages[..|pages| - 1]) + pages[|pages| - 1]
  }

  function CursorTo(cursors: seq<Cursor>, k: nat): Option<Cursor>
    requires k <= |cursors|
  {
    if k == 0 then None else Some(cursors[k - 1])
  }

  /** A store that serves a manifest cut into these pages. */
  ghost predicate Serves(w: World, first: nat, pages: seq<seq<Child>>, cursors: seq<Cursor>) {
    && |pages| == |cursors| + 1
    && (forall i | 0 <= i < |cursors| :: WellSized(cursors[i]))
    && (forall i, j | 0 <= i < j < |cursors| :: cursors[i] != cursors[j])
    && forall k | 0 <= k < |pages| :: ServesPage(w, first, pages, cursors, k)
  }

  ghost predicate ServesPage(w: World, first: nat, pages: seq<seq<Child>>, cursors: seq<Cursor>, k: nat)
    requires k < |pages| == |cursors| + 1
  {
    w.reply(first + k, Query(100, CursorTo(cursors, k))) ==
    Page(pages[k], if k < |cursors| then Some(cursors[k]) else None)
  }

  /** The first `n` replies are the first `n` pages. */
  ghost predicate Served(replies: seq<Reply>, n: nat, pages: seq<seq<Child>>, cursors: seq<Cursor>) {
    && n <= |replies| && n <= |pages| == |cursors| + 1
    && forall k | 0 <= k < n :: replies[k] == Page(pages[k], if k < |cursors| then Some(cursors[k]) else None)
  }

  lemma {:induction false} ServedInOrder(
    w: World, first: nat, pages: seq<seq<Child>>, cursors: seq<Cursor>, replies: seq<Reply>,
    job: Reference, definition: nat, maxItems: int, n: nat)
    requires Serves(w, first, pages, cursors)
    requires Collection(w, first, replies, job, definition, maxItems) && n <= |replies|
    ensures Served(replies, n, pages, cursors)
  {
    if n > 0 {
      ServedInOrder(w, first, pages, cursors, replies, job, definition, maxItems, n - 1);
      if n > 1 { WentOnWithACursor(replies, n - 1, job, definition, maxItems); }
      ServedStep(w, first, pages, cursors, replies, n - 1);
    }
  }

  lemma ServedStep(
    w: World, first: nat, pages: seq<seq<Child>>, cursors: seq<Cursor>, replies: seq<Reply>, k: nat)
    requires Serves(w, first, pages, cursors) && Follows(w, first, replies)
    requires k < |replies| && Served(replies, k, pages, cursors)
    requires k > 0 ==> replies[k - 1].Page? && replies[k - 1].next.Some?
    ensures Served(replies, k + 1, pages, cursors)
  {
    assert AnswersRead(w, first, replies, k);
    assert k < |pages|;
    assert ServesPage(w, first, pages, cursors, k);
    assert CursorBefore(replies, k) == CursorTo(cursors, k);
  }

  lemma WentOnWithACursor(replies: seq<Reply>, k: nat, job: Reference, definition: nat, maxItems: int)
    requires 0 < k <= |replies| && WentOn(replies, k, job, definition, maxItems)
    ensures replies[k - 1].Page? && replies[k - 1].next.Some?
  {
    hide Children, Select, Repeats;
    assert replies[..k][k - 1] == replies[k - 1];
  }

  lemma {:induction false} ServedChildren(replies: seq<Reply>, n: nat, pages: seq<seq<Child>>, cursors: seq<Cursor>)
    requires Served(replies, n, pages, cursors)
    ensures Children(replies[..n]) == Flatten(pages[..n])
    ensures forall c :: c in Carried(replies[..n]) <==> exists i :: 0 <= i < n && i < |cursors| && cursors[i] == c
  {
    if n > 0 {
      ServedChildren(replies, n - 1, pages, cursors);
      assert pages[..n][..n - 1] == pages[..n - 1] && replies[..n][..n - 1] == replies[..n - 1];
    }
  }

  lemma {:induction false} FlattenPrefix(pages: seq<seq<Child>>, n: nat, job: Reference, definition: nat)
    requires n <= |pages|
    ensures |Select(Flatten(pages[..n]), job, definition)| <= |Select(Flatten(pages), job, definition)|
    decreases |pages|
  {
    if n < |pages| {
      var init := pages[..|pages| - 1];
      FlattenPrefix(init, n, job, definition);
      assert init[..n] == pages[..n];
      SelectConcat(Flatten(init), pages[|pages| - 1], job, definition);
    } else {
      assert pages[..n] == pages;
    }
  }

  lemma AnswerIsTheFilter(
    w: World, first: nat, pages: seq<seq<Child>>, cursors: seq<Cursor>, replies: seq<Reply>,
    job: Reference, definition: nat, maxItems: int)
    requires Serves(w, first, pages, cursors)
    requires Collection(w, first, replies, job, definition, maxItems)
    ensures
      var wanted := Select(Flatten(pages), job, definition);
      Verdict(replies, job, definition, maxItems) ==
        if |wanted| <= maxItems then Success(wanted) else Failure(TooMany)
  {
    var n := |replies|;
    ServedInOrder(w, first, pages, cursors, replies, job, definition, maxItems, n);
    assert replies[..n] == replies;
    ServedChildren(replies, n, pages, cursors);
    ServedChildren(replies, n - 1, pages, cursors);
    FlattenPrefix(pages, n, job, definition);
    assert n == |pages| ==> pages[..n] == pages;
    hide Follows, Flatten, Select, Carried;
  }

  /** The store serves this manifest, cut into pages in any way. */
  ghost predicate ServesManifest(w: World, first: nat, manifest: seq<Child>) {
    exists pages, cursors :: Serves(w, first, pages, cursors) && Flatten(pages) == manifest
  }

  /** However a manifest is paged, collecting all of one job's results is filtering the manifest, or
      an error when the filter is longer than the caller allows: never a part of it. */
  lemma CollectionIsTheFilter(
    w: World, first: nat, manifest: seq<Child>, job: Reference, definition: nat, maxItems: int,
    r: Result<seq<Item>, ReadError>)
    requires ServesManifest(w, first, manifest)
    requires Collects(w, first, job, definition, maxItems, r)
    ensures
      var wanted := Select(manifest, job, definition);
      r == if |wanted| <= maxItems then Success(wanted) else Failure(TooMany)
  {
    hide Serves, Collection, Verdict, Select, Flatten;
    var pages, cursors :| Serves(w, first, pages, cursors) && Flatten(pages) == manifest;
    var replies :| Answers(w, first, replies, job, definition, maxItems, r);
    AnswerIsTheFilter(w, first, pages, cursors, replies, job, definition, maxItems);
  }

  // ----- every collection ends

  lemma {:induction false} GoesOnToAnEnd(
    w: World, first: nat, replies: seq<Reply>, followed: set<Cursor>, job: Reference, definition: nat, maxItems: int,
    cursor: Option<Cursor>)
    returns (whole: seq<Reply>, r: Result<seq<Item>, ReadError>)
    requires Underway(w, first, replies, job, definition, maxItems, cursor)
    requires Carried(replies) == followed + if cursor.Some? then {cursor.value} else {}
    requires cursor.Some? ==> cursor.value !in followed
    requires cursor.None? ==> replies == []
    ensures Answers(w, first, whole, job, definition, maxItems, r)
    decreases if cursor.None? then 1 else 0, CursorsUpTo(CURSOR_LIMIT) - followed
  {
    hide Underway, Answers, Carried, Children, Select;
    if cursor.Some? && !WellSized(cursor.value) {
      EndsOnBadCursor(w, first, replies, job, definition, maxItems, cursor);
      whole, r := replies, Failure(BadRequest);
    } else {
      var reply := w.reply(first + |replies|, Query(100, cursor));
      EndsOrGoesOn(w, first, replies, job, definition, maxItems, cursor, reply);
      var more := replies + [reply];
      var items := Select(Children(more), job, definition);
      if reply.Unreadable? { whole, r := more, Failure(StoreFailed); }
      else if |items| > maxItems { whole, r := more, Failure(TooMany); }
      else if reply.next.None? { whole, r := more, Success(items); }
      else if reply.next.value in Carried(replies) { whole, r := more, Failure(RepeatedCursor); }
      else {
        if cursor.Some? { CursorIsCounted(cursor.value, CURSOR_LIMIT); }
        whole, r := GoesOnToAnEnd(w, first, more, Carried(replies), job, definition, maxItems, reply.next);
      }
    }
  }

  /** Whatever a store answers, now and later, collecting from it comes to an outcome. */
  lemma EveryCollectionEnds(w: World, first: nat, job: Reference, definition: nat, maxItems: int)
    ensures exists r :: Collects(w, first, job, definition, maxItems, r)
  {
    NothingRead(w, first, job, definition, maxItems);
    var whole, r := GoesOnToAnEnd(w, first, [], {}, job, definition, maxItems, None);
    assert Collects(w, first, job, definition, maxItems, r);
  }
}
