/** The indexed book and the simple book driven by the same commands. */
module Lockstep {
  import opened Domain
  import opened PriceTime
  import opened IndexedBook
  import opened SimpleBook
  import Matching

  datatype Command =
    | InsertOrder(side: Side, price: i64, quantity: u64)
    | CancelOrder(id: u64)
    | ReduceOrder(id: u64, total: u64)
    | TakeOrder(side: Side, limit: i64, quantity: u64)

  /** Ids and priorities handed out so far are at most `serial`. */
  ghost predicate Serials(q: seq<Order>, serial: u64) {
    forall i :: 0 <= i < |q| ==> q[i].id <= serial && q[i].priority <= serial
  }

  ghost predicate Issued(b: Book, serial: u64) {
    Serials(b.bids, serial) && Serials(b.asks, serial)
  }

  lemma NextIsFresh(b: Book, serial: u64)
    requires Issued(b, serial) && serial < U64_MAX
    ensures Lookup(b, serial + 1).None?
    ensures Fresh(b.bids, serial + 1, serial + 1) && Fresh(b.asks, serial + 1, serial + 1)
  {
  }

  lemma InsertIssued(b: Book, serial: u64, o: Order)
    requires Issued(b, serial) && serial < U64_MAX && o.id == serial + 1 && o.priority == serial + 1
    ensures Issued(Insert(b, o), serial + 1)
  {
  }

  lemma RemoveIssued(b: Book, serial: u64, id: u64)
    requires Issued(b, serial)
    ensures Issued(Remove(b, id), serial)
  {
  }

  lemma ReduceIssued(b: Book, serial: u64, id: u64, total: u64)
    requires Issued(b, serial)
    ensures Issued(Reduce(b, id, total), serial)
  {
  }

  lemma MatchIssued(b: Book, serial: u64, maker: Side, limit: i64, quantity: u64)
    requires Issued(b, serial) && Resting(maker, b.Of(maker))
    ensures Issued(b.With(maker, Match(maker, b.Of(maker), limit, quantity).rest), serial)
  {
    hide Match, Resting;
    var rest := Match(maker, b.Of(maker), limit, quantity).rest;
    forall i | 0 <= i < |rest| ensures rest[i].id <= serial && rest[i].priority <= serial {
      var k := RestPrices(maker, b.Of(maker), limit, quantity, i);
    }
  }

  method SameFills(fills: seq<Fill>, plain: seq<RefFill>) returns (same: bool)
    ensures same <==> plain == PlainFills(fills)
  {
    if |fills| != |plain| {
      return false;
    }
    for i := 0 to |fills|
      invariant forall j :: 0 <= j < i ==> plain[j] == PlainFill(fills[j])
    {
      if plain[i] != PlainFill(fills[i]) {
        return false;
      }
    }
    return true;
  }

  /** The book, the last serial and all fills after some commands. */
  datatype Obeyed = Obeyed(book: Book, serial: u64, fills: seq<Fill>)

  /** What one command does to the price-time list: an order gets the next
      serial as id and priority when the book admits it, a cancel drops its
      order, a reduction keeps its place, a taker matches. */
  ghost function Obey(o: Obeyed, capacity: nat, command: Command): Obeyed {
    match command
    case InsertOrder(side, price, quantity) =>
      if quantity == 0 || o.serial == U64_MAX then o
      else
        var order := Numbered(o.serial + 1, side, price, quantity);
        if Admits(o.book, order, capacity) then o.(book := Insert(o.book, order), serial := o.serial + 1) else o
    case CancelOrder(id) => o.(book := Remove(o.book, id))
    case ReduceOrder(id, total) =>
      var order := Lookup(o.book, id);
      if order.Some? && order.value.filled < total < order.value.total then o.(book := Reduce(o.book, id, total)) else o
    case TakeOrder(side, limit, quantity) =>
      var maker := side.Opposite();
      if Resting(maker, o.book.Of(maker)) then
        var m := Match(maker, o.book.Of(maker), limit, quantity);
        o.(book := o.book.With(maker, m.rest), fills := o.fills + m.fills)
      else o
  }

  function Numbered(serial: u64, side: Side, price: i64, quantity: u64): Order {
    Order(serial, Owner(1, serial), side, price, quantity, 0, serial)
  }

  ghost function ObeyAll(capacity: nat, commands: seq<Command>): Obeyed {
    if commands == [] then Obeyed(EmptyBook, 0, [])
    else Obey(ObeyAll(capacity, commands[..|commands| - 1]), capacity, commands[|commands| - 1])
  }

  /** One command against both books: each result and the rows afterwards agree,
      and they are what the list specification says. */
  method Step(fast: OrderBook, slow: ReferenceBook, command: Command, ghost o: Obeyed, serial: u64)
    returns (same: bool, issued: u64, rows: seq<Row>, fills: seq<Fill>)
    requires fast.Valid() && slow.Valid() && fast.book == slow.book == o.book && serial == o.serial && Issued(fast.book, serial)
    modifies fast, slow
    ensures fast.Valid() && slow.Valid() && fast.book == slow.book && Issued(fast.book, issued)
    ensures same && rows == BookRows(fast.book)
    ensures Obeyed(fast.book, issued, o.fills + fills) == Obey(o, fast.capacity, command)
  {
    hide Represents, Orderly, Stacked, Match, Lookup, Find, Place, BookRows, Resting, Admits, Insert;
    issued := serial;
    same := true;
    fills := [];
    match command {
      case InsertOrder(side, price, quantity) =>
        if quantity != 0 && serial < U64_MAX {
          var order := Numbered(serial + 1, side, price, quantity);
          NextIsFresh(fast.book, serial);
          InsertIssued(fast.book, serial, order);
          var ok := fast.Insert(order);
          if ok {
            slow.Insert(side, price, RefOrder(serial + 1, serial + 1, quantity, 0), order.owner);
            issued := serial + 1;
          }
        }
      case CancelOrder(id) =>
        RemoveIssued(fast.book, serial, id);
        var removed := fast.Remove(id);
        var removedSlow := slow.Remove(id);
        same := removed.Some? == removedSlow.Some?;
      case ReduceOrder(id, total) =>
        var order := fast.Get(id);
        if order.Some? && order.value.filled < total < order.value.total {
          ReduceIssued(fast.book, serial, id, total);
          fast.ReduceTotal(id, total);
          slow.ReduceTotal(id, total);
        }
      case TakeOrder(side, limit, quantity) =>
        var filled;
        filled, fills := Matching.MatchOrder(fast, side, limit, quantity);
        MatchIssued(o.book, serial, side.Opposite(), limit, quantity);
        var filledSlow, fillsSlow := slow.MatchOrder(side, limit, quantity);
        var alike := SameFills(fills, fillsSlow);
        same := filled == filledSlow && alike;
    }
    assert o.fills + [] == o.fills;
    rows := fast.Snapshot();
    var rowsSlow := slow.Snapshot();
    same := same && rows == rowsSlow;
  }

  /** Whatever the commands, the two books never disagree, and they show the rows
      and produce the fills of the list specification. */
  method Compare(capacity: nat, commands: seq<Command>) returns (agreed: bool, rows: seq<Row>, fills: seq<Fill>)
    ensures agreed
    ensures rows == BookRows(ObeyAll(capacity, commands).book) && fills == ObeyAll(capacity, commands).fills
  {
    hide Represents, Orderly, Stacked, Obey, BookRows;
    var fast := new OrderBook(capacity);
    var slow := new ReferenceBook();
    var serial: u64 := 0;
    agreed, fills := true, [];
    rows := fast.Snapshot();
    for i := 0 to |commands|
      invariant fast.Valid() && slow.Valid() && fast.capacity == capacity && agreed
      invariant fast.book == slow.book && Issued(fast.book, serial) && rows == BookRows(fast.book)
      invariant Obeyed(fast.book, serial, fills) == ObeyAll(capacity, commands[..i])
    {
      assert commands[..i + 1][..i] == commands[..i];
      var same, more;
      same, serial, rows, more := Step(fast, slow, commands[i], ObeyAll(capacity, commands[..i]), serial);
      agreed := agreed && same;
      fills := fills + more;
    }
    assert commands[..|commands|] == commands;
  }
}
