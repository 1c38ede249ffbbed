/** Idempotent order placement: today's order book is looked up by tag before anything is sent. */
module Placement {
  import opened Trading
  import opened Broker

  /** A row of today's book; an order placed elsewhere may carry no tag, or any. */
  datatype BookOrder = BookOrder(id: Id, tag: Option<Id>, instrument: Key, side: Side, quantity: int)

  datatype Request = Request(key: Id, instrument: Key, side: Side, quantity: int, guard: bool)

  /** One call and what it runs into: the signed position the broker reports (`None` if that call raises),
      whether the book can be read, what the placement comes to, and the id the broker would give the
      order. */
  datatype Call = Call(request: Request, position: Option<int>, bookReadable: bool, outcome: Outcome, id: Id)

  datatype Reply = Existing(order: BookOrder) | Placed(order: BookOrder) | RefusedByGuard | Raised

  // ---- one call ----------------------------------------------------------------------------------

  function WithTag(book: seq<BookOrder>, tag: Id): seq<BookOrder> {
    if book == [] then []
    else WithTag(book[..|book| - 1], tag) + if book[|book| - 1].tag == Some(tag) then [book[|book| - 1]] else []
  }

  predicate Guarded(c: Call) { c.request.guard && c.request.side == SELL }

  /** A SELL that would sell more than is held long is refused before the broker is asked. */
  predicate GuardRefuses(c: Call) { Guarded(c) && c.position.Some? && c.request.quantity > Max(c.position.value, 0) }

  predicate PassesGuard(c: Call) { !Guarded(c) || (c.position.Some? && c.request.quantity <= Max(c.position.value, 0)) }

  function OrderOf(c: Call, tag: Id): BookOrder {
    BookOrder(c.id, Some(tag), c.request.instrument, c.request.side, c.request.quantity)
  }

  /** What a call does, when no other call comes in between: `tags` derives the tag of a key. */
  function Answer(book: seq<BookOrder>, tags: Id -> Id, c: Call): (seq<BookOrder>, Reply) {
    var tag := tags(c.request.key);
    if GuardRefuses(c) then (book, RefusedByGuard)
    else if !PassesGuard(c) || !c.bookReadable then (book, Raised)
    else if WithTag(book, tag) != [] then (book, Existing(WithTag(book, tag)[0]))
    else match c.outcome
      case Accepted => (book + [OrderOf(c, tag)], Placed(OrderOf(c, tag)))
      case Rejected => (book, Raised)
      case LandedAnyway => (book + [OrderOf(c, tag)], Raised)
  }

  class OrderService {
    var book: seq<BookOrder>
    const tags: Id -> Id

    constructor (book: seq<BookOrder>, tags: Id -> Id)
      ensures this.book == book && this.tags == tags
    {
      this.book, this.tags := book, tags;
    }

    /** `find_existing_order`: the first order of today's book with the key's tag. */
    method FindExistingOrder(key: Id) returns (order: Option<BookOrder>)
      ensures order == if WithTag(book, tags(key)) == [] then None else Some(WithTag(book, tags(key))[0])
    {
      var tag := tags(key);
      for i := 0 to |book|
        invariant WithTag(book[..i], tag) == []
      {
        assert book[..i + 1][..i] == book[..i];
        if book[i].tag == Some(tag) {
          assert book == book[..i + 1] + book[i + 1..];
          WithTagJoin(book[..i + 1], book[i + 1..], tag);
          return Some(book[i]);
        }
      }
      assert book[..|book|] == book;
      return None;
    }

    /** `place_order`. */
    method PlaceOrder(c: Call) returns (reply: Reply)
      modifies this`book
      ensures (book, reply) == Answer(old(book), tags, c)
      ensures reply.Placed? ==> book == old(book) + [reply.order]
      ensures reply.Placed? ==> reply.order.instrument == c.request.instrument && reply.order.side == c.request.side
                                && reply.order.quantity == c.request.quantity && reply.order.tag == Some(tags(c.request.key))
    {
      if c.request.guard && c.request.side == SELL {
        if c.position.None? {
          return Raised;
        }
        var held := Max(c.position.value, 0);
        if c.request.quantity > held {
          return RefusedByGuard;
        }
      }
      if !c.bookReadable {
        return Raised;
      }
      var existing := FindExistingOrder(c.request.key);
      if existing.Some? {
        return Existing(existing.value);
      }
      var order := BookOrder(c.id, Some(tags(c.request.key)), c.request.instrument, c.request.side, c.request.quantity);
      if !c.outcome.Rejected? {
        book := book + [order];
      }
      return if c.outcome.Accepted? then Placed(order) else Raised;
    }
  }

  lemma {:induction false} WithTagJoin(a: seq<BookOrder>, b: seq<BookOrder>, tag: Id)
    ensures WithTag(a + b, tag) == WithTag(a, tag) + WithTag(b, tag)
  {
    if b == [] {
      assert a + b == a;
    } else {
      var front := b[..|b| - 1];
      assert (a + b)[..|a + b| - 1] == a + front;
      WithTagJoin(a, front, tag);
    }
  }

  lemma OneMoreOrder(book: seq<BookOrder>, o: BookOrder, tag: Id)
    ensures WithTag(book + [o], tag) == WithTag(book, tag) + if o.tag == Some(tag) then [o] else []
  {
  }

  // ---- any sequence of calls ---------------------------------------------------------------------------

  function BookAfter(book: seq<BookOrder>, tags: Id -> Id, calls: seq<Call>): seq<BookOrder> {
    if calls == [] then book else Answer(BookAfter(book, tags, calls[..|calls| - 1]), tags, calls[|calls| - 1]).0
  }

  /** What one call does to the orders of one tag. */
  lemma AnswerAt(book: seq<BookOrder>, tags: Id -> Id, c: Call, tag: Id)
    ensures WithTag(Answer(book, tags, c).0, tag)
            == if tags(c.request.key) == tag && WithTag(book, tag) == [] && c.bookReadable && PassesGuard(c) && !c.outcome.Rejected?
               then [OrderOf(c, tag)] else WithTag(book, tag)
  {
    OneMoreOrder(book, OrderOf(c, tags(c.request.key)), tag);
  }

  /** For any calls and retries, each accepted, rejected, or raising before or after its order landed:
      if today's book had at most one order of a key to begin with it never has two. */
  lemma {:induction false} AtMostOneOrderPerKey(book: seq<BookOrder>, tags: Id -> Id, calls: seq<Call>, key: Id)
    requires |WithTag(book, tags(key))| <= 1
    ensures |WithTag(BookAfter(book, tags, calls), tags(key))| <= 1
  {
    if calls != [] {
      AtMostOneOrderPerKey(book, tags, calls[..|calls| - 1], key);
      AnswerAt(BookAfter(book, tags, calls[..|calls| - 1]), tags, calls[|calls| - 1], tags(key));
    }
  }

  /** Once an order of a key is in the book it stays the one: every later call for the key that gets
      that far is answered with it, and nothing more is placed. */
  lemma {:induction false} RetriesFindTheOrder(book: seq<BookOrder>, tags: Id -> Id, calls: seq<Call>, retry: Call)
    requires WithTag(book, tags(retry.request.key)) != []
    ensures var tag, later := tags(retry.request.key), BookAfter(book, tags, calls);
            && WithTag(later, tag) == WithTag(book, tag)
            && Answer(later, tags, retry).0 == later
            && (Answer(later, tags, retry).1 == Existing(WithTag(book, tag)[0]) <==> retry.bookReadable && PassesGuard(retry))
  {
    if calls != [] {
      RetriesFindTheOrder(book, tags, calls[..|calls| - 1], retry);
      AnswerAt(BookAfter(book, tags, calls[..|calls| - 1]), tags, calls[|calls| - 1], tags(retry.request.key));
    }
  }

  /** The calls of one tag. */
  function CallsOf(tags: Id -> Id, calls: seq<Call>, tag: Id): seq<Call> {
    if calls == [] then []
    else CallsOf(tags, calls[..|calls| - 1], tag) + if tags(calls[|calls| - 1].request.key) == tag then [calls[|calls| - 1]] else []
  }

  /** The orders of a key are what its own calls make of them: calls for keys with other tags might as
      well not have been made. */
  lemma {:induction false} OtherKeysDoNotMatter(book: seq<BookOrder>, tags: Id -> Id, calls: seq<Call>, tag: Id)
    ensures WithTag(BookAfter(book, tags, calls), tag) == WithTag(BookAfter(book, tags, CallsOf(tags, calls, tag)), tag)
  {
    if calls != [] {
      var front, c := calls[..|calls| - 1], calls[|calls| - 1];
      var mine := CallsOf(tags, front, tag);
      OtherKeysDoNotMatter(book, tags, front, tag);
      AnswerAt(BookAfter(book, tags, front), tags, c, tag);
      if tags(c.request.key) == tag {
        assert (mine + [c])[..|mine|] == mine;
        AnswerAt(BookAfter(book, tags, mine), tags, c, tag);
      } else {
        assert CallsOf(tags, calls, tag) == mine;
      }
    }
  }

  /** Keys keep out of each other's way exactly when their tags differ: after an accepted order for one
      key, an acceptable call for the other places its own order if and only if they do. */
  lemma KeysAreApartIffTagsDiffer(book: seq<BookOrder>, tags: Id -> Id, first: Call, second: Call)
    requires first.bookReadable && second.bookReadable && PassesGuard(first) && PassesGuard(second)
    requires first.outcome.Accepted? && second.outcome.Accepted?
    requires WithTag(book, tags(first.request.key)) == [] && WithTag(book, tags(second.request.key)) == []
    ensures Answer(Answer(book, tags, first).0, tags, second).1.Placed? <==> tags(first.request.key) != tags(second.request.key)
  {
  }

  // ---- what is placed ------------------------------------------------------------------------------

  /** The order asks for what the call asked for. */
  predicate AsksForTheSame(o: BookOrder, c: Call, tag: Id) {
    o.tag == Some(tag) && o.instrument == c.request.instrument && o.side == c.request.side && o.quantity == c.request.quantity
  }

  /** Whatever the calls, what was in the book stays, and every order they add asks for what one of them
      asked for, under its tag. */
  lemma {:induction false} OrdersAreOfCalls(book: seq<BookOrder>, tags: Id -> Id, calls: seq<Call>)
    ensures var after := BookAfter(book, tags, calls);
            && |book| <= |after| && after[..|book|] == book
            && forall i :: |book| <= i < |after| ==> exists j :: 0 <= j < |calls| && AsksForTheSame(after[i], calls[j], tags(calls[j].request.key))
  {
    if calls != [] {
      var front, c := calls[..|calls| - 1], calls[|calls| - 1];
      OrdersAreOfCalls(book, tags, front);
      var before, after := BookAfter(book, tags, front), BookAfter(book, tags, calls);
      forall i | |book| <= i < |after| ensures exists j :: 0 <= j < |calls| && AsksForTheSame(after[i], calls[j], tags(calls[j].request.key)) {
        if i < |before| {
          var j :| 0 <= j < |front| && AsksForTheSame(before[i], front[j], tags(front[j].request.key));
          assert after[i] == before[i] && calls[j] == front[j];
        } else {
          assert AsksForTheSame(after[i], calls[|calls| - 1], tags(c.request.key));
        }
      }
    }
  }

  /** What one call is answered and what it adds: an order of its own exactly when it passes the guard, the
      book can be read and has none of its tag, and the placement is not rejected; `Placed` names that
      order, and an order that landed although the call raised is added all the same. */
  lemma AddsIff(book: seq<BookOrder>, tags: Id -> Id, c: Call)
    ensures var tag := tags(c.request.key);
            var (after, reply) := Answer(book, tags, c);
            && (reply.Placed? ==> after == book + [reply.order])
            && (after == book || (|after| == |book| + 1 && after[..|book|] == book && AsksForTheSame(after[|book|], c, tag)))
            && (after != book <==> PassesGuard(c) && c.bookReadable && !c.outcome.Rejected? && forall i :: 0 <= i < |book| ==> book[i].tag != Some(tag))
            && (reply.Placed? <==> after != book && c.outcome.Accepted?)
  {
    NoneWithTagIff(book, tags(c.request.key));
  }

  lemma {:induction false} NoneWithTagIff(book: seq<BookOrder>, tag: Id)
    ensures WithTag(book, tag) == [] <==> forall i :: 0 <= i < |book| ==> book[i].tag != Some(tag)
  {
    if book != [] {
      var front := book[..|book| - 1];
      NoneWithTagIff(front, tag);
      assert forall i :: 0 <= i < |front| ==> front[i] == book[i];
    }
  }

  /** What the guard is for: a guarded SELL is refused exactly when it would leave the position short, and
      one that lands never does. */
  lemma GuardKeepsFromShort(book: seq<BookOrder>, tags: Id -> Id, c: Call)
    ensures var (after, reply) := Answer(book, tags, c);
            var r := c.request;
            && (reply == RefusedByGuard
                <==> r.guard && r.side == SELL && c.position.Some? && r.quantity > 0 && c.position.value + Signed(r.side, r.quantity) < 0)
            && (reply == RefusedByGuard ==> after == book)
            && (after != book && r.guard && r.side == SELL && r.quantity > 0 ==>
                  c.position.Some? && c.position.value + Signed(after[|book|].side, after[|book|].quantity) >= 0)
  {
    AddsIff(book, tags, c);
  }

  // ---- overlapping calls ---------------------------------------------------------------------------------

  /** A call cut at its `await`s: it has looked the book up and is about to send, or has not begun. */
  datatype Step = LookUp(task: nat, call: Call) | Send(task: nat)

  datatype State = State(book: seq<BookOrder>, sending: map<nat, Call>)

  function Next(s: State, tags: Id -> Id, e: Step): State {
    match e
    case LookUp(t, c) =>
      if t in s.sending || !PassesGuard(c) || !c.bookReadable || WithTag(s.book, tags(c.request.key)) != [] then s
      else s.(sending := s.sending[t := c])
    case Send(t) =>
      if t !in s.sending then s
      else
        var c := s.sending[t];
        State(if c.outcome.Rejected? then s.book else s.book + [OrderOf(c, tags(c.request.key))], s.sending - {t})
  }

  /** A call that looks up and sends with nobody in between adds to the book just what it adds as a whole. */
  lemma UndisturbedCallsAreWhole(s: State, tags: Id -> Id, t: nat, c: Call)
    requires t !in s.sending
    ensures var s' := Next(Next(s, tags, LookUp(t, c)), tags, Send(t));
            s'.book == Answer(s.book, tags, c).0 && s'.sending == s.sending
  {
    var s1 := Next(s, tags, LookUp(t, c));
    if t in s1.sending { assert s1.sending - {t} == s.sending; }
  }

  /** An order that goes out although one of its tag has landed since the look-up. */
  predicate Overtaken(s: State, tags: Id -> Id, e: Step) {
    e.Send? && e.task in s.sending && !s.sending[e.task].outcome.Rejected? && WithTag(s.book, tags(s.sending[e.task].request.key)) != []
  }

  ghost predicate OncePerTag(book: seq<BookOrder>) { forall tag :: |WithTag(book, tag)| <= 1 }

  /** With overlapping calls a step keeps the book at one order per tag exactly when it does not send an
      order that another one of its tag has overtaken. */
  lemma OncePerTagIffNotOvertaken(s: State, tags: Id -> Id, e: Step)
    requires OncePerTag(s.book)
    ensures OncePerTag(Next(s, tags, e).book) <==> !Overtaken(s, tags, e)
  {
    if e.Send? && e.task in s.sending {
      var c := s.sending[e.task];
      var tag, o := tags(c.request.key), OrderOf(c, tags(c.request.key));
      forall t ensures WithTag(s.book + [o], t) == WithTag(s.book, t) + if t == tag then [o] else [] { OneMoreOrder(s.book, o, t); }
      assert |WithTag(s.book + [o], tag)| == |WithTag(s.book, tag)| + 1;
      assert forall t :: t != tag ==> |WithTag(s.book + [o], t)| == |WithTag(s.book, t)|;
    }
  }

  /** Two calls for one key that both look up before either sends place two orders. */
  lemma OverlapPlacesTwice(s: State, tags: Id -> Id, a: Call, b: Call, t: nat, u: nat)
    requires a.request.key == b.request.key && WithTag(s.book, tags(a.request.key)) == [] && t !in s.sending && u !in s.sending && t != u
    requires a.bookReadable && b.bookReadable && PassesGuard(a) && PassesGuard(b) && !a.outcome.Rejected? && !b.outcome.Rejected?
    ensures var s1 := Next(Next(s, tags, LookUp(t, a)), tags, LookUp(u, b));
            |WithTag(Next(Next(s1, tags, Send(t)), tags, Send(u)).book, tags(a.request.key))| == 2
  {
  }
}
