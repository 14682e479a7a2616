/** The engine as the source keeps it: fields, books, views and caches changed
    in place, each method proved against the state machine. */
module Engine {
  import opened Domain
  import opened PriceTime
  import opened Ledger
  import opened Accounts
  import opened Core
  import opened Safety
  import opened Runs
  import opened IndexedBook
  import opened MarketFeed
  import opened Cache
  import Market
  import Matching

  /** The part of an account that is stored by value. */
  datatype AccountRow = AccountRow(enabled: bool, limits: Limits, lastClientSeq: u64, positions: seq<Position>)

  /** Caps no limit exceeds. */
  function Top(n: nat): seq<Cap> {
    seq(n, _ => Cap(U64_MAX, U128_MAX))
  }

  class TradingCore {
    const cfg: Config
    const books: seq<OrderBook>
    const views: seq<MarketView>
    const caches: seq<RequestCache>
    var accounts: seq<AccountRow>
    var liveOrders: map<u64, LiveOrder>
    var clientOrders: map<Owner, u64>
    var globalKill: bool
    var engineSeq: u64
    var outputSeq: u64
    var nextOrderId: u64
    var nextTradeId: u64
    var nextPriority: u64
    var engineTimeNs: u64
    var fault: Option<Fault>

    ghost var s: State

    ghost predicate Wired()
      reads this
    {
      && s.cfg == cfg
      && |books| == |views| == |cfg.instruments| == |s.desk.books| == |s.views|
      && |caches| == |accounts| == |cfg.accountIds.ids| == |s.desk.positions| == |s.accounts|
      && (forall i, j :: 0 <= i < j < |books| ==> books[i] != books[j])
      && (forall i, j :: 0 <= i < j < |views| ==> views[i] != views[j])
      && (forall i, j :: 0 <= i < j < |caches| ==> caches[i] != caches[j] && caches[i].entries != caches[j].entries)
    }

    ghost predicate FieldsAgree()
      reads this
    {
      && s.desk.live == liveOrders && s.desk.clients == clientOrders && s.kill == globalKill
      && s.engineSeq == engineSeq && s.outputSeq == outputSeq && s.nextOrder == nextOrderId
      && s.nextTrade == nextTradeId && s.nextPriority == nextPriority && s.time == engineTimeNs && s.fault == fault
    }

    ghost predicate RowAgrees(a: nat)
      requires a < |accounts| && a < |s.desk.positions| && a < |s.accounts|
      reads this
    {
      && s.desk.positions[a] == accounts[a].positions && |accounts[a].positions| == |books|
      && s.accounts[a].enabled == accounts[a].enabled && s.accounts[a].limits == accounts[a].limits
      && s.accounts[a].lastSeq == accounts[a].lastClientSeq
    }

    ghost predicate RowsAgree()
      requires Wired()
      reads this
    {
      forall a :: 0 <= a < |accounts| ==> RowAgrees(a)
    }

    ghost predicate BooksAgree()
      requires Wired()
      reads this, books
    {
      forall i :: 0 <= i < |books| ==>
        books[i].Valid() && books[i].capacity == cfg.capacity && books[i].book == s.desk.books[i]
    }

    ghost predicate ViewsAgree()
      requires Wired()
      reads this, views
    {
      forall i :: 0 <= i < |views| ==> views[i].Abstract() == s.views[i]
    }

    ghost predicate CachesAgree()
      requires Wired()
      reads this, caches, set c | c in caches :: c.entries
    {
      forall a :: 0 <= a < |caches| ==>
        caches[a].Valid() && caches[a].entries.Length == cfg.window && caches[a].cache == s.accounts[a].cache
    }

    /** The fields hold the state s. */
    ghost predicate Agrees()
      reads this, books, views, caches, set c | c in caches :: c.entries
    {
      Wired() && FieldsAgree() && RowsAgree() && BooksAgree() && ViewsAgree() && CachesAgree()
    }

    /** A fresh engine over its parts. */
    constructor (cfg: Config, books: seq<OrderBook>, views: seq<MarketView>, caches: seq<RequestCache>,
                 rows: seq<AccountRow>, ghost start: State)
      requires |books| == |views| == |cfg.instruments| == |start.desk.books| == |start.views| && start.cfg == cfg
      requires |caches| == |rows| == |cfg.accountIds.ids| == |start.desk.positions| == |start.accounts|
      requires forall i, j :: 0 <= i < j < |books| ==> books[i] != books[j]
      requires forall i, j :: 0 <= i < j < |views| ==> views[i] != views[j]
      requires forall i, j :: 0 <= i < j < |caches| ==> caches[i] != caches[j] && caches[i].entries != caches[j].entries
      requires forall i :: 0 <= i < |books| ==>
        books[i].Valid() && books[i].capacity == cfg.capacity && books[i].book == start.desk.books[i]
      requires forall i :: 0 <= i < |views| ==> views[i].Abstract() == start.views[i]
      requires forall a :: 0 <= a < |caches| ==>
        caches[a].Valid() && caches[a].entries.Length == cfg.window && caches[a].cache == start.accounts[a].cache
      requires forall a :: 0 <= a < |rows| ==>
        && start.desk.positions[a] == rows[a].positions && |rows[a].positions| == |books|
        && start.accounts[a].enabled == rows[a].enabled && start.accounts[a].limits == rows[a].limits
        && start.accounts[a].lastSeq == rows[a].lastClientSeq
      requires start.desk.live == map[] && start.desk.clients == map[] && !start.kill && start.fault.None?
      requires start.engineSeq == 0 && start.outputSeq == 0 && start.nextOrder == 0 && start.nextTrade == 0
      requires start.nextPriority == 0 && start.time == 0
      ensures Agrees() && s == start && this.books == books && this.views == views && this.caches == caches && this.cfg == cfg
    {
      hide Represents, Holds, Points;
      this.cfg, this.books, this.views, this.caches, accounts := cfg, books, views, caches, rows;
      liveOrders, clientOrders, globalKill, fault := map[], map[], false, None;
      engineSeq, outputSeq, nextOrderId, nextTradeId, nextPriority, engineTimeNs := 0, 0, 0, 0, 0, 0;
      s := start;
      new;
      assert Wired();
      assert RowsAgree();
      assert BooksAgree();
      assert ViewsAgree();
      assert CachesAgree();
    }

    /** Only fields stored by value changed, and they still agree. */
    twostate lemma Kept()
      requires old(Agrees()) && accounts == old(accounts) && FieldsAgree()
      requires s.cfg == old(s).cfg && s.desk.positions == old(s).desk.positions && s.desk.books == old(s).desk.books
      requires s.views == old(s).views && s.accounts == old(s).accounts
      requires unchanged(books) && unchanged(views) && unchanged(caches) && unchanged(set c | c in caches :: c.entries)
      ensures Agrees()
    {
      hide Represents, Holds, Points;
      forall a | 0 <= a < |accounts| ensures RowAgrees(a) {
        assert old(RowAgrees(a));
      }
      assert RowsAgree();
      assert BooksAgree();
      assert ViewsAgree();
      assert CachesAgree();
    }

    // ---- steps on the fields ----------------------------------------------

    method SetFault(f: Fault)
      requires Agrees()
      modifies this
      ensures Agrees() && s == old(s).(fault := Some(f))
    {
      hide Represents, Holds, Points;
      fault := Some(f);
      s := s.(fault := Some(f));
      Kept();
    }

    method TakeOutputSeq() returns (n: u64)
      requires Agrees()
      modifies this
      ensures Agrees() && s == TakeSeq(old(s)) && n == s.outputSeq
    {
      hide Represents, Holds, Points;
      if outputSeq == U64_MAX {
        fault := Some(SequenceExhausted);
      } else {
        outputSeq := outputSeq + 1;
      }
      s := TakeSeq(s);
      Kept();
      return outputSeq;
    }

    method MakeBaseReport(r: Request, id: u64) returns (report: Report)
      requires Agrees()
      modifies this
      ensures Agrees() && s == TakeSeq(old(s)) && report == BaseReport(s, r, id)
    {
      hide TakeSeq, Represents, Holds, Points;
      var n := TakeOutputSeq();
      report := Report(n, engineSeq, engineTimeNs, r.account, r.instrument, r.requestId, r.clientOrderId, id,
                       Accepted, Working, r.side, r.orderType, r.price, r.quantity, 0, r.quantity, 0, 0, None);
    }

    method PutPosition(a: nat, i: nat, b: Booking)
      requires Agrees() && a < |cfg.accountIds.ids| && i < |books|
      modifies this
      ensures Agrees() && s == old(s).On(Done(PutPos(old(s).desk, a, i, b.position), b.ok))
    {
      hide Represents, Holds, Points;
      assert RowAgrees(a);
      var row := accounts[a];
      accounts := accounts[a := row.(positions := row.positions[i := b.position])];
      if !b.ok {
        fault := Some(Accounting);
      }
      s := s.On(Done(PutPos(s.desk, a, i, b.position), b.ok));
      forall x | 0 <= x < |accounts| ensures RowAgrees(x) {
        assert old(RowAgrees(x));
      }
    }

    /** Only one book changed. */
    twostate lemma BookKept(i: nat)
      requires old(Agrees()) && i < |books| && accounts == old(accounts)
      requires books[i].Valid() && s == old(s).(desk := PutBook(old(s).desk, i, books[i].book))
      requires FieldsAgree()
      requires forall j :: 0 <= j < |books| && j != i ==> unchanged(books[j])
      requires unchanged(views) && unchanged(caches) && unchanged(set c | c in caches :: c.entries)
      ensures Agrees()
    {
      hide Represents, Holds, Points;
      forall a | 0 <= a < |accounts| ensures RowAgrees(a) {
        assert old(RowAgrees(a));
      }
      forall j | 0 <= j < |books|
        ensures books[j].Valid() && books[j].capacity == cfg.capacity && books[j].book == s.desk.books[j]
      {
        if j != i { assert old(books[j].Valid()); }
      }
      assert ViewsAgree();
      assert CachesAgree();
    }

    method RemoveFromBook(i: nat, id: u64) returns (removed: Option<Order>)
      requires Agrees() && i < |books|
      modifies this, books[i]
      ensures Agrees() && s == old(s).(desk := PutBook(old(s).desk, i, Remove(BookAt(old(s).desk, i), id)))
      ensures removed == PriceTime.Lookup(BookAt(old(s).desk, i), id)
    {
      hide Represents, Holds, Points, Remove, PriceTime.Lookup;
      removed := books[i].Remove(id);
      s := s.(desk := PutBook(s.desk, i, Remove(BookAt(s.desk, i), id)));
      BookKept(i);
    }

    method ReduceInBook(i: nat, id: u64, total: u64)
      requires Agrees() && i < |books|
      requires var o := PriceTime.Lookup(BookAt(s.desk, i), id);
        o.Some? ==> o.value.filled < total <= o.value.total
      modifies this, books[i]
      ensures Agrees() && s == old(s).(desk := PutBook(old(s).desk, i, Reduce(BookAt(old(s).desk, i), id, total)))
    {
      hide Represents, Holds, Points, Reduce, PriceTime.Lookup;
      books[i].ReduceTotal(id, total);
      s := s.(desk := PutBook(s.desk, i, Reduce(BookAt(s.desk, i), id, total)));
      BookKept(i);
    }

    method InsertInBook(i: nat, o: Order) returns (ok: bool)
      requires Agrees() && i < |books| && o.filled < o.total
      requires Fresh(BookAt(s.desk, i).Of(o.side), o.id, o.priority) && PriceTime.Lookup(BookAt(s.desk, i), o.id).None?
      modifies this, books[i]
      ensures Agrees() && ok == Admits(BookAt(old(s).desk, i), o, cfg.capacity)
      ensures s == if ok then old(s).(desk := PutBook(old(s).desk, i, Insert(BookAt(old(s).desk, i), o))) else old(s)
    {
      hide Represents, Holds, Points, PriceTime.Lookup, Fresh, Admits, Insert;
      ok := books[i].Insert(o);
      assert PutBook(old(s).desk, i, BookAt(old(s).desk, i)) == old(s).desk by { SameBook(old(s).desk, i); }
      s := if ok then s.(desk := PutBook(s.desk, i, Insert(BookAt(s.desk, i), o))) else s;
      BookKept(i);
    }

    /** Takes the whole match off a book. */
    method MatchInBook(i: nat, side: Side, limit: i64, quantity: u64) returns (filled: u64, fills: seq<Fill>)
      requires Agrees() && i < |books|
      modifies this, books[i]
      ensures Agrees()
      ensures var m := Sweep(side.Opposite(), BookAt(old(s).desk, i).Of(side.Opposite()), limit, quantity);
        && fills == m.fills && filled == Lots(m.fills)
        && s == old(s).(desk := PutBook(old(s).desk, i, BookAt(old(s).desk, i).With(side.Opposite(), m.rest)))
    {
      hide Represents, Holds, Points, Match, Resting, Lots;
      filled, fills := Matching.MatchOrder(books[i], side, limit, quantity);
      s := s.(desk := PutBook(s.desk, i, books[i].book));
      BookKept(i);
    }

    method ReleaseReservation(a: nat, i: nat, side: Side, lots: u64, price: i64)
      requires Agrees() && a < |cfg.accountIds.ids| && i < |books|
      modifies this
      ensures Agrees() && s == old(s).On(ReleaseOrder(old(s).desk, a, i, side, lots, price))
    {
      hide Represents, Holds, Points, Release, PutPos;
      if lots == 0 {
        return;
      }
      assert RowAgrees(a);
      match CheckedNotional(lots, price) {
        case None => SetFault(Accounting);
        case Some(n) => PutPosition(a, i, Release(accounts[a].positions[i], side, lots, n));
      }
    }

    method ReserveLots(a: nat, i: nat, side: Side, lots: u64, price: i64)
      requires Agrees() && a < |cfg.accountIds.ids| && i < |books|
      modifies this
      ensures Agrees() && s == old(s).On(ReserveOrder(old(s).desk, a, i, side, lots, price))
    {
      hide Represents, Holds, Points, Reserve, PutPos;
      assert RowAgrees(a);
      match CheckedNotional(lots, price) {
        case None => SetFault(Accounting);
        case Some(n) => PutPosition(a, i, Reserve(accounts[a].positions[i], side, lots, n));
      }
    }

    method MoveLots(a: nat, i: nat, side: Side, lots: u64)
      requires Agrees() && a < |cfg.accountIds.ids| && i < |books|
      modifies this
      ensures Agrees() && s == old(s).On(MovePosition(old(s).desk, a, i, side, lots))
    {
      hide Represents, Holds, Points, ApplyFill, PutPos;
      assert RowAgrees(a);
      PutPosition(a, i, ApplyFill(accounts[a].positions[i], side, lots));
    }

    method ForgetOrder(id: u64, owner: Owner)
      requires Agrees()
      modifies this
      ensures Agrees() && s == old(s).(desk := Forget(old(s).desk, id, owner))
    {
      hide Represents, Holds, Points;
      liveOrders := liveOrders - {id};
      clientOrders := clientOrders - {owner};
      s := s.(desk := Forget(s.desk, id, owner));
      Kept();
    }

    method RegisterOrder(id: u64, owner: Owner, a: nat, i: nat)
      requires Agrees()
      modifies this
      ensures Agrees()
      ensures s == old(s).(desk := old(s).desk.(live := old(s).desk.live[id := LiveOrder(a, i)],
                                                clients := old(s).desk.clients[owner := id]))
    {
      hide Represents, Holds, Points;
      liveOrders := liveOrders[id := LiveOrder(a, i)];
      clientOrders := clientOrders[owner := id];
      s := s.(desk := s.desk.(live := s.desk.live[id := LiveOrder(a, i)], clients := s.desk.clients[owner := id]));
      Kept();
    }

    // ---- execution --------------------------------------------------------

    method EmitTrade(x: Taker, f: Fill) returns (trade: Trade)
      requires Agrees() && x.instrument < |books|
      modifies this
      ensures Agrees() && s == TakeSeq(old(s)) && trade == TradeFor(s, x, f)
    {
      hide Represents, Holds, Points, TakeSeq;
      var n := TakeOutputSeq();
      trade := Trade(n, engineSeq, engineTimeNs, nextTradeId, cfg.instruments[x.instrument].id, f.makerId, x.id,
                     f.owner.account, x.request.account, x.side, f.price, f.quantity);
    }

    method EmitMakerReport(x: Taker, f: Fill) returns (report: Report)
      requires Agrees() && x.instrument < |books|
      modifies this
      ensures Agrees() && s == TakeSeq(old(s)) && report == MakerReport(s, x, f)
    {
      hide Represents, Holds, Points, TakeSeq;
      var n := TakeOutputSeq();
      var done := f.makerRemaining == 0;
      report := Report(n, engineSeq, engineTimeNs, f.owner.account, cfg.instruments[x.instrument].id, 0, f.owner.client,
                       f.makerId, if done then Filled else PartiallyFilled,
                       if done then FullyFilled else PartlyFilled, x.side.Opposite(), LimitOrder, f.price,
                       f.makerTotal, f.makerCumulative, f.makerRemaining, f.quantity, f.price, None);
    }

    method EmitTakerReport(x: Taker, f: Fill, cumulative: u64) returns (report: Report)
      requires Agrees()
      modifies this
      ensures Agrees() && s == TakeSeq(old(s)).Failing(cumulative <= x.quantity, Accounting)
      ensures report == TakerReport(TakeSeq(old(s)), x, f, cumulative)
    {
      hide Agrees, TakeSeq, BaseReport;
      report := MakeBaseReport(x.request, x.id);
      var whole := cumulative == x.quantity;
      report := report.(side := x.side, kind := if whole then Filled else PartiallyFilled,
                        state := if whole then FullyFilled else PartlyFilled, cumulative := cumulative,
                        lastQuantity := f.quantity, lastPrice := f.price);
      if cumulative <= x.quantity {
        report := report.(remaining := x.quantity - cumulative);
      } else {
        SetFault(Accounting);
        report := report.(remaining := 0);
      }
    }

    /** Settles one fill; trade, maker report and taker report in that order. */
    method SettleOneFill(x: Taker, f: Fill, cumulative: u64) returns (out: seq<Output>)
      requires Agrees() && x.account < |cfg.accountIds.ids| && x.instrument < |books|
      requires f.owner.account in cfg.accountIds.index
      modifies this
      ensures Agrees() && Emitted(s, out) == SettleOne(old(s), x, f, cumulative)
    {
      hide Agrees, ReleaseOrder, MovePosition, TakeSeq, Forget, SettleFill, TradeFor, MakerReport, TakerReport;
      assert s.cfg == cfg by { Open(); }
      var maker := cfg.accountIds.index[f.owner.account];
      SettleSteps(s, maker, x, f);
      ReleaseReservation(maker, x.instrument, x.side.Opposite(), f.quantity, f.price);
      MoveLots(maker, x.instrument, x.side.Opposite(), f.quantity);
      MoveLots(x.account, x.instrument, x.side, f.quantity);
      ghost var s3 := s;
      var trade := EmitTrade(x, f);
      var makerReport := EmitMakerReport(x, f);
      ghost var t := old(s).On(SettleFill(old(s).desk, maker, x.account, x.instrument, x.side, f));
      SameEvents(TakeSeq(s3), TakeSeq(t), TakeSeq(TakeSeq(s3)), TakeSeq(TakeSeq(t)), x, f);
      if f.makerRemaining == 0 {
        ForgetOrder(f.makerId, f.owner);
      }
      var takerReport := EmitTakerReport(x, f, cumulative);
      out := [TradeOut(trade), ReportOut(makerReport), ReportOut(takerReport)];
    }

    lemma Open()
      requires Agrees()
      ensures Wired() && FieldsAgree() && RowsAgree()
    {
      hide Represents, Holds, Points;
    }

    method AdvanceTradeId() returns (ok: bool)
      requires Agrees()
      modifies this
      ensures Agrees() && ok == Successor(old(s).nextTrade).Some?
      ensures s == if ok then old(s).(nextTrade := old(s).nextTrade + 1) else old(s).(fault := Some(SequenceExhausted))
    {
      hide Represents, Holds, Points;
      ok := nextTradeId < U64_MAX;
      if ok {
        nextTradeId := nextTradeId + 1;
        s := s.(nextTrade := s.nextTrade + 1);
      } else {
        fault := Some(SequenceExhausted);
        s := s.(fault := Some(SequenceExhausted));
      }
      Kept();
    }

    /** Matches one aggressing order and settles its fills. */
    method ExecuteOrder(x: Taker, limit: i64) returns (filled: u64, out: seq<Output>)
      requires Agrees() && x.account < |cfg.accountIds.ids| && x.instrument < |books|
      requires OwnersKnown(cfg, BookAt(s.desk, x.instrument).Of(x.side.Opposite()))
      modifies this, books[x.instrument]
      ensures Agrees() && Emitted(s, out) == Execute(old(s), x, limit)
      ensures filled == Filling(old(s), x, limit)
    {
      hide Agrees, Match, Lots, SettleOne, SettleAll, Resting, Settling;
      ghost var q := BookAt(s.desk, x.instrument).Of(x.side.Opposite());
      var fills;
      filled, fills := MatchInBook(x.instrument, x.side, limit, x.quantity);
      ghost var s0 := s;
      assert s.cfg == cfg by { Open(); }
      SweptFills(cfg, x.side.Opposite(), q, limit, x.quantity);
      SettlingStarts(s, x, fills);
      out := [];
      var cumulative: u64 := 0;
      if filled == 0 {
        SettlingEnds(s0, x, fills, s, 0, cumulative, out);
        return;
      }
      var index := 0;
      while index < |fills|
        invariant index <= |fills| && Agrees() && s.cfg == cfg
        invariant Settling(s0, x, fills, s, index, cumulative, out)
      {
        var fill := fills[index];
        SettlingNext(s0, x, fills, s, index, cumulative, out);
        if cumulative + fill.quantity > U64_MAX {
          SetFault(Accounting);
          return;
        }
        cumulative := cumulative + fill.quantity;
        var ok := AdvanceTradeId();
        if !ok {
          return;
        }
        SettleOneFramed(s, x, fill, cumulative);
        var events := SettleOneFill(x, fill, cumulative);
        out := out + events;
        index := index + 1;
      }
      SettlingEnds(s0, x, fills, s, index, cumulative, out);
    }

    method AdvancePriority() returns (ok: bool)
      requires Agrees()
      modifies this
      ensures Agrees() && ok == Successor(old(s).nextPriority).Some?
      ensures s == if ok then old(s).(nextPriority := old(s).nextPriority + 1) else old(s).(fault := Some(SequenceExhausted))
      ensures ok ==> nextPriority == s.nextPriority
    {
      hide Represents, Holds, Points;
      ok := nextPriority < U64_MAX;
      if ok {
        nextPriority := nextPriority + 1;
        s := s.(nextPriority := s.nextPriority + 1);
      } else {
        fault := Some(SequenceExhausted);
        s := s.(fault := Some(SequenceExhausted));
      }
      Kept();
    }

    /** Rests a remainder; a refused insertion drops it silently. */
    method RestOrderWith(x: Taker, client: u64, price: i64, total: u64, filled: u64)
      requires Agrees() && x.account < |cfg.accountIds.ids| && x.instrument < |books| && filled < total
      requires PriceTime.Lookup(BookAt(s.desk, x.instrument), x.id).None?
      requires s.nextPriority < U64_MAX ==> Fresh(BookAt(s.desk, x.instrument).Of(x.side), x.id, s.nextPriority + 1)
      modifies this, books[x.instrument]
      ensures Agrees() && s == RestOrder(old(s), x, client, price, total, filled)
    {
      hide Agrees, PriceTime.Lookup, Fresh, Admits, Insert, ReserveOrder;
      var a, i := x.account, x.instrument;
      assert s.cfg == cfg by { Open(); }
      var ok := AdvancePriority();
      if !ok {
        return;
      }
      var o := Order(x.id, Owner(x.request.account, client), x.side, price, total, filled, nextPriority);
      ghost var s1 := s;
      var inserted := InsertInBook(i, o);
      if !inserted {
        return;
      }
      ReserveLots(a, i, x.side, total - filled, price);
      RegisterOrder(x.id, o.owner, a, i);
    }

    // ---- pre-trade risk ---------------------------------------------------

    method CheckMarket(i: nat) returns (v: Verdict<i64>)
      requires Agrees() && i < |views|
      ensures v == CheckReference(s, i)
    {
      hide Represents, Holds, Points, Market.ReferencePrice;
      if views[i].state != Live {
        return Refuse(MarketDataUnsynchronized);
      }
      var age: int := if engineTimeNs < views[i].lastUpdateTimeNs then 0 else engineTimeNs - views[i].lastUpdateTimeNs;
      if age > cfg.maxAge {
        return Refuse(MarketDataStale);
      }
      var price := views[i].ReferencePrice();
      return if price.None? then Refuse(NoReferencePrice) else Pass(price.value);
    }

    /** Accumulates the gross exposure over all instruments. */
    method Gross(a: nat, i: nat, projected: Position) returns (v: Verdict<u128>)
      requires Agrees() && a < |cfg.accountIds.ids| && i < |books|
      ensures v == GrossFrom(s, a, i, projected, 0, 0)
    {
      hide Represents, Holds, Points, Market.ReferencePrice, Exposure;
      assert RowAgrees(a);
      var gross: u128 := 0;
      for k := 0 to |views|
        invariant GrossFrom(s, a, i, projected, k, gross) == GrossFrom(s, a, i, projected, 0, 0)
      {
        var p := if k == i then projected else accounts[a].positions[k];
        assert p == if k == i then projected else Pos(s.desk, a, k);
        if !(p.lots == 0 && p.buyNotional == 0 && p.sellNotional == 0) {
          var mark := views[k].ReferencePrice();
          if mark.None? && p.lots != 0 {
            return Refuse(NoReferencePrice);
          }
          var exposure := Exposure(p, if mark.Some? then mark.value else 0);
          if exposure.None? || gross + exposure.value > U128_MAX {
            return Refuse(ArithmeticOverflow);
          }
          gross := gross + exposure.value;
        }
      }
      return Pass(gross);
    }

    method CheckExposureOf(a: nat, i: nat, side: Side, added: u64, addedPrice: i64, replaced: u64, replacedPrice: i64)
      returns (bad: Option<RejectReason>)
      requires Agrees() && a < |cfg.accountIds.ids| && i < |books|
      ensures bad == CheckExposure(s, a, i, side, added, addedPrice, replaced, replacedPrice)
    {
      hide Represents, Holds, Points, GrossFrom, Project, WorstCase;
      assert RowAgrees(a);
      var released, extra := CheckedNotional(replaced, replacedPrice), CheckedNotional(added, addedPrice);
      if released.None? || extra.None? {
        return Some(ArithmeticOverflow);
      }
      var projected := Project(accounts[a].positions[i], side, added, extra.value, replaced, released.value);
      if projected.None? {
        return Some(ArithmeticOverflow);
      }
      var worst := WorstCase(projected.value, side);
      if worst.None? {
        return Some(ArithmeticOverflow);
      }
      if worst.value > accounts[a].limits.maxPositionLots {
        return Some(MaxPosition);
      }
      var gross := Gross(a, i, projected.value);
      if gross.Refuse? {
        return Some(gross.reason);
      }
      return if gross.value > accounts[a].limits.maxGrossExposure then Some(MaxGrossExposure) else None;
    }

    method CheckRiskOf(a: nat, i: nat, side: Side, lots: u64, limit: i64, reference: i64, replaced: u64, replacedPrice: i64)
      returns (bad: Option<RejectReason>)
      requires Agrees() && a < |cfg.accountIds.ids| && i < |books|
      ensures bad == CheckRisk(s, a, i, side, lots, limit, reference, replaced, replacedPrice)
    {
      hide Represents, Holds, Points, CheckExposure;
      assert RowAgrees(a);
      var limits := accounts[a].limits;
      if Abs(limit - reference) > CollarTicks(limits) {
        return Some(PriceCollar);
      }
      var notional := CheckedNotional(lots, limit);
      if notional.None? {
        return Some(ArithmeticOverflow);
      }
      if notional.value > limits.maxOrderNotional {
        return Some(MaxOrderNotional);
      }
      bad := CheckExposureOf(a, i, side, lots, limit, replaced, replacedPrice);
    }

    method CheckPermittedFor(a: nat, clientSeq: u64) returns (bad: Option<RejectReason>)
      requires Agrees() && a < |cfg.accountIds.ids|
      ensures bad == CheckPermitted(s, a, clientSeq)
    {
      hide Represents, Holds, Points;
      assert RowAgrees(a);
      if globalKill {
        return Some(GlobalKillActive);
      }
      if !accounts[a].enabled {
        return Some(AccountDisabled);
      }
      if clientSeq == 0 {
        return Some(MalformedRequest);
      }
      return if clientSeq <= accounts[a].lastClientSeq then Some(SequenceTooOld) else None;
    }

    method CheckNewOrder(r: Request) returns (v: Verdict<NewOrder>)
      requires Agrees()
      ensures v == CheckNew(s, r)
    {
      hide Represents, Holds, Points, CheckRisk, CheckReference, CheckPermitted, CheckQuantity, CheckPrice;
      if !r.kind.New? {
        return Refuse(MalformedRequest);
      }
      if r.account !in cfg.accountIds.index {
        return Refuse(UnknownAccount);
      }
      if r.instrument !in cfg.instrumentIds.index {
        return Refuse(UnknownInstrument);
      }
      var a, i := cfg.accountIds.index[r.account], cfg.instrumentIds.index[r.instrument];
      assert RowAgrees(a);
      var bad := CheckQuantity(cfg.instruments[i], r.quantity);
      if bad.None? && r.orderType.LimitOrder? {
        bad := CheckPrice(cfg.instruments[i], r.price);
      }
      if bad.Some? {
        return Refuse(bad.value);
      }
      if Owner(r.account, r.clientOrderId) in clientOrders {
        return Refuse(DuplicateClientOrderId);
      }
      bad := CheckPermittedFor(a, r.clientSeq);
      if bad.Some? {
        return Refuse(bad.value);
      }
      var reference := CheckMarket(i);
      if reference.Refuse? {
        return Refuse(reference.reason);
      }
      if r.quantity > accounts[a].limits.maxOrderQuantity {
        return Refuse(MaxOrderQuantity);
      }
      var limit := if r.orderType.LimitOrder? then Some(r.price)
                   else ProtectionPrice(reference.value, r.side, cfg.protection);
      if limit.None? {
        return Refuse(ArithmeticOverflow);
      }
      bad := CheckRiskOf(a, i, r.side, r.quantity, limit.value, reference.value, 0, limit.value);
      if bad.Some? {
        return Refuse(bad.value);
      }
      var full := books[i].IsFull();
      if full {
        return Refuse(CapacityExhausted);
      }
      return Pass(NewOrder(a, i, limit.value));
    }

    method CheckReplacement(r: Request) returns (v: Verdict<Replacement>)
      requires Agrees()
      ensures v == CheckReplace(s, r)
    {
      hide Represents, Holds, Points, CheckRisk, CheckReference, CheckPermitted, CheckQuantity, CheckPrice, PriceTime.Lookup;
      if r.account !in cfg.accountIds.index {
        return Refuse(UnknownAccount);
      }
      if r.instrument !in cfg.instrumentIds.index {
        return Refuse(UnknownInstrument);
      }
      if Owner(r.account, r.target) !in clientOrders {
        return Refuse(UnknownOrder);
      }
      var a, i := cfg.accountIds.index[r.account], cfg.instrumentIds.index[r.instrument];
      assert RowAgrees(a);
      var found := books[i].Get(clientOrders[Owner(r.account, r.target)]);
      if found.None? {
        return Refuse(OrderAlreadyTerminal);
      }
      var o := found.value;
      if r.side != o.side || !r.orderType.LimitOrder? {
        return Refuse(MalformedRequest);
      }
      var bad := CheckPrice(cfg.instruments[i], r.price);
      if bad.None? {
        bad := CheckQuantity(cfg.instruments[i], r.quantity);
      }
      if bad.Some? {
        return Refuse(bad.value);
      }
      if r.quantity < o.filled {
        return Refuse(InvalidReplaceQuantity);
      }
      bad := CheckPermittedFor(a, r.clientSeq);
      if bad.Some? {
        return Refuse(bad.value);
      }
      var reference := CheckMarket(i);
      if reference.Refuse? {
        return Refuse(reference.reason);
      }
      var lots := r.quantity - o.filled;
      if o.Remaining() < 0 {
        return Refuse(ArithmeticOverflow);
      }
      if lots > accounts[a].limits.maxOrderQuantity {
        return Refuse(MaxOrderQuantity);
      }
      bad := CheckRiskOf(a, i, o.side, lots, r.price, reference.value, o.Remaining(), o.price);
      return if bad.Some? then Refuse(bad.value) else Pass(Replacement(a, i, o));
    }

    // ---- requests ---------------------------------------------------------

    /** The invariant of a fault-free engine. */
    ghost predicate Sane()
      reads this
    {
      s.cfg == cfg && Good(s, Top(|cfg.accountIds.ids|)) && s.fault.None?
    }

    method RejectRequest(r: Request, reason: RejectReason, out: seq<Output>) returns (report: Report)
      requires Agrees()
      modifies this
      ensures Agrees() && Handled(s, out, report) == Reject(old(s), r, reason, out)
    {
      hide Agrees, TakeSeq, BaseReport;
      report := MakeBaseReport(r, 0);
      report := report.(kind := Rejected, state := CancelledState, remaining := 0, reject := Some(reason));
    }

    method AnswerRequest(out: seq<Output>, r: Request, id: u64, kind: ReportKind, state: OrderState, cumulative: u64, remaining: u64)
      returns (report: Report)
      requires Agrees()
      modifies this
      ensures Agrees() && Handled(s, out, report) == Answer(old(s), out, r, id, kind, state, cumulative, remaining)
    {
      hide Agrees, TakeSeq, BaseReport;
      report := MakeBaseReport(r, id);
      report := report.(kind := kind, state := state, cumulative := cumulative, remaining := remaining);
    }

    method AdvanceOrderId() returns (ok: bool)
      requires Agrees()
      modifies this
      ensures Agrees() && ok == Successor(old(s).nextOrder).Some?
      ensures s == if ok then old(s).(nextOrder := old(s).nextOrder + 1) else old(s).(fault := Some(SequenceExhausted))
      ensures ok ==> nextOrderId == s.nextOrder
    {
      hide Represents, Holds, Points;
      ok := nextOrderId < U64_MAX;
      if ok {
        nextOrderId := nextOrderId + 1;
        s := s.(nextOrder := s.nextOrder + 1);
      } else {
        fault := Some(SequenceExhausted);
        s := s.(fault := Some(SequenceExhausted));
      }
      Kept();
    }

    method HandleNewOrder(r: Request) returns (report: Report, out: seq<Output>)
      requires Agrees() && Sane()
      modifies this, books
      ensures Agrees() && Handled(s, out, report) == HandleNew(old(s), r)
    {
      hide Agrees, Good, CheckNew, Execute, Filling, RestOrder, Answer, Reject, OwnersKnown, Fresh, PriceTime.Lookup;
      ghost var caps := Top(|cfg.accountIds.ids|);
      out := [];
      var checked := CheckNewOrder(r);
      if checked.Refuse? {
        report := RejectRequest(r, checked.reason, []);
        return;
      }
      var c := checked.value;
      var ok := AdvanceOrderId();
      if !ok {
        report := RejectRequest(r, CapacityExhausted, []);
        return;
      }
      var x := Taker(c.account, c.instrument, r, nextOrderId, r.side, r.quantity);
      NewReady(old(s), caps, r, s, x, c.limit);
      assert |books| == |s.desk.books| by { Open(); }
      var filled;
      ghost var before := s;
      filled, out := ExecuteOrder(x, c.limit);
      FillingSame(old(s), before, x, c.limit);
      if filled > r.quantity {
        SetFault(Accounting);
        report := RejectRequest(r, ArithmeticOverflow, out);
        return;
      }
      if filled == r.quantity {
        report := AnswerRequest(out, r, x.id, Filled, FullyFilled, filled, 0);
        return;
      }
      if r.orderType.MarketOrder? {
        report := AnswerRequest(out, r, x.id, Cancelled, CancelledState, filled, 0);
        return;
      }
      RestOrderWith(x, r.clientOrderId, r.price, r.quantity, filled);
      report := AnswerRequest(out, r, x.id, Accepted, StateOf(filled), filled, r.quantity - filled);
    }

    method WithdrawOrder(a: nat, i: nat, o: Order)
      requires Agrees() && a < |cfg.accountIds.ids| && i < |books| && o.filled <= o.total
      modifies this, books[i]
      ensures Agrees() && s == old(s).On(Withdraw(old(s).desk, a, i, o))
    {
      hide Agrees, ReleaseOrder, Remove, PriceTime.Lookup;
      var removed := RemoveFromBook(i, o.id);
      ReleaseReservation(a, i, o.side, o.Remaining(), o.price);
      ForgetOrder(o.id, o.owner);
    }

    method HandleCancelOrder(r: Request) returns (report: Report)
      requires Agrees() && Sane()
      modifies this, books
      ensures Agrees() && Handled(s, [], report) == HandleCancel(old(s), r)
    {
      hide Agrees, Good, Answer, Reject, Withdraw, PriceTime.Lookup, Keyed;
      ghost var caps := Top(|cfg.accountIds.ids|);
      assert FieldsAgree() && |books| == |s.desk.books| by { Open(); }
      if r.account !in cfg.accountIds.index {
        report := RejectRequest(r, UnknownAccount, []);
        return;
      }
      var key := Owner(r.account, r.target);
      if key !in clientOrders {
        report := RejectRequest(r, UnknownOrder, []);
        return;
      }
      GoodKeyed(s, caps);
      ClientOrder(s.cfg.accountIds, s.desk, key);
      var id := clientOrders[key];
      var LiveOrder(a, i) := liveOrders[id];
      assert RowsAgree() by { Open(); }
      WithdrawGood(s, caps, a, i, PriceTime.Lookup(BookAt(s.desk, i), id).value);
      CancelSteps(s, a, i, PriceTime.Lookup(BookAt(s.desk, i), id).value);
      var removed := RemoveFromBook(i, id);
      var o := removed.value;
      ReleaseReservation(a, i, o.side, o.Remaining(), o.price);
      ForgetOrder(id, key);
      report := AnswerRequest([], r, id, Cancelled, CancelledState, o.filled, 0);
      report := report.(clientOrderId := o.owner.client, side := o.side, price := o.price, total := o.total);
    }

    /** Takes away an order reduced to what it has filled. */
    method DropReduced(i: nat, o: Order, total: u64)
      requires Agrees() && i < |books|
      modifies this, books[i]
      ensures Agrees()
      ensures var d := PutBook(old(s).desk, i, Reduce(BookAt(old(s).desk, i), o.id, total));
        s == old(s).(desk := Forget(PutBook(d, i, Remove(BookAt(d, i), o.id)), o.id, o.owner))
    {
      hide Agrees, Remove, Reduce, PriceTime.Lookup, Forget;
      assert |books| == |s.desk.books| by { Open(); }
      RemoveReduced(BookAt(s.desk, i), o.id, total);
      PutReduced(s.desk, i, Reduce(BookAt(s.desk, i), o.id, total), Remove(BookAt(s.desk, i), o.id));
      var gone := RemoveFromBook(i, o.id);
      ForgetOrder(o.id, o.owner);
    }

    method ReplaceOrderInPlace(r: Request, c: Replacement) returns (report: Report)
      requires Agrees() && c.account < |cfg.accountIds.ids| && c.instrument < |books|
      requires PriceTime.Lookup(BookAt(s.desk, c.instrument), c.existing.id) == Some(c.existing)
      requires c.existing.filled <= r.quantity < c.existing.total
      modifies this, books[c.instrument]
      ensures Agrees() && Handled(s, [], report) == ReplaceInPlace(old(s), r, c)
    {
      hide Agrees, Answer, ReleaseOrder, PriceTime.Lookup, Remove, Reduce, BaseReport, Forget, PutBook, ReplaceInPlace;
      var o, a, i := c.existing, c.account, c.instrument;
      ReleaseFrame(s.desk, a, i, o.side, o.total - r.quantity, o.price);
      InPlaceSteps(s, r, c);
      ReleaseReservation(a, i, o.side, o.total - r.quantity, o.price);
      if r.quantity == o.filled {
        DropReduced(i, o, r.quantity);
        report := AnswerRequest([], r, o.id, Cancelled, CancelledState, o.filled, 0);
      } else {
        ReduceInBook(i, o.id, r.quantity);
        report := AnswerRequest([], r, o.id, Replaced, StateOf(o.filled), o.filled, r.quantity - o.filled);
      }
      report := report.(clientOrderId := o.owner.client, side := o.side);
    }

    method ReplaceOrderAnew(r: Request, c: Replacement) returns (report: Report, out: seq<Output>)
      requires Agrees() && c.account < |cfg.accountIds.ids| && c.instrument < |books| && s.cfg == cfg
      requires c.existing.filled <= r.quantity
      requires OwnersKnown(cfg, BookAt(s.desk, c.instrument).Of(c.existing.side.Opposite()))
      requires c.existing.filled < r.quantity ==>
        var x := Taker(c.account, c.instrument, r, c.existing.id, c.existing.side, r.quantity - c.existing.filled);
        Restable(Execute(s, x, r.price).state, x) && Filling(s, x, r.price) <= x.quantity
      modifies this, books[c.instrument]
      ensures Agrees() && Handled(s, out, report) == ReplaceAnew(old(s), r, c)
    {
      hide Agrees, Answer, Execute, Filling, RestOrder, OwnersKnown, BaseReport;
      var o := c.existing;
      out := [];
      if r.quantity == o.filled {
        report := AnswerRequest([], r, o.id, Cancelled, CancelledState, o.filled, 0);
        report := report.(clientOrderId := o.owner.client, side := o.side);
        return;
      }
      var x := Taker(c.account, c.instrument, r, o.id, o.side, r.quantity - o.filled);
      var filled;
      filled, out := ExecuteOrder(x, r.price);
      var cumulative := o.filled + filled;
      if cumulative == r.quantity {
        report := AnswerRequest(out, r, o.id, Filled, FullyFilled, cumulative, 0);
      } else {
        RestOrderWith(x, o.owner.client, r.price, r.quantity, cumulative);
        report := AnswerRequest(out, r, o.id, Replaced, StateOf(cumulative), cumulative, r.quantity - cumulative);
      }
      report := report.(clientOrderId := o.owner.client, side := o.side);
    }

    method HandleReplaceOrder(r: Request) returns (report: Report, out: seq<Output>)
      requires Agrees() && Sane()
      modifies this, books
      ensures Agrees() && Handled(s, out, report) == HandleReplace(old(s), r)
    {
      hide Agrees, Good, CheckReplace, ReplaceInPlace, ReplaceAnew, Withdraw, Reject, OwnersKnown, Restable, PriceTime.Lookup,
        Execute, Filling, Admitted;
      ghost var caps := Top(|cfg.accountIds.ids|);
      out := [];
      var checked := CheckReplacement(r);
      if checked.Refuse? {
        report := RejectRequest(r, checked.reason, []);
        return;
      }
      var c := checked.value;
      var o := c.existing;
      ReplaceAdmitted(s, caps, r);
      assert |books| == |s.desk.books| by { Open(); }
      if r.price == o.price && r.quantity < o.total {
        report := ReplaceOrderInPlace(r, c);
        return;
      }
      AnewReady(s, caps, r);
      assert s.On(Withdraw(s.desk, c.account, c.instrument, o)) == s.(desk := Withdraw(s.desk, c.account, c.instrument, o).desk);
      WithdrawOrder(c.account, c.instrument, o);
      report, out := ReplaceOrderAnew(r, c);
    }

    /** Only one cache and its account's client sequence changed. */
    twostate lemma CacheKept(a: nat)
      requires old(Agrees()) && a < |caches| && caches[a].Valid()
      requires |accounts| == old(|accounts|) && accounts == old(accounts)[a := accounts[a]]
      requires accounts[a] == old(accounts)[a].(lastClientSeq := accounts[a].lastClientSeq)
      requires |s.accounts| == |accounts|
      requires s == old(s).(accounts := old(s).accounts[a := s.accounts[a]])
      requires s.accounts[a] == old(s).accounts[a].(cache := caches[a].cache, lastSeq := accounts[a].lastClientSeq)
      requires FieldsAgree()
      requires forall b :: 0 <= b < |caches| && b != a ==> unchanged(caches[b]) && unchanged(caches[b].entries)
      requires unchanged(books) && unchanged(views)
      ensures Agrees()
    {
      hide Represents, Holds, Points;
      forall b | 0 <= b < |accounts| ensures RowAgrees(b) {
        assert old(RowAgrees(b));
      }
      forall b | 0 <= b < |caches|
        ensures caches[b].Valid() && caches[b].entries.Length == cfg.window && caches[b].cache == s.accounts[b].cache
      {
        if b != a { assert old(caches[b].Valid()); }
      }
      assert BooksAgree();
      assert ViewsAgree();
    }

    method Remember(a: nat, r: Request, report: Report)
      requires Agrees() && a < |caches|
      modifies this, caches[a], caches[a].entries
      ensures Agrees() && s == RecordOutcome(old(s), a, r, report)
    {
      hide Represents, Holds, Points, CacheRecord;
      caches[a].Record(r.requestId, cfg.fingerprint(r), report);
      if report.reject.None? && r.clientSeq > 0 {
        accounts := accounts[a := accounts[a].(lastClientSeq := r.clientSeq)];
      }
      assert old(RowAgrees(a));
      s := RecordOutcome(s, a, r, report);
      CacheKept(a);
    }

    method FindOutcome(a: nat, r: Request) returns (hit: CacheHit)
      requires Agrees() && a < |caches|
      ensures hit == CacheLookup(AccountAt(s, a).cache, r.requestId, s.cfg.fingerprint(r))
    {
      hide Represents, Holds, Points, CacheLookup;
      hit := caches[a].Lookup(r.requestId, cfg.fingerprint(r));
    }

    method HandleRequest(r: Request) returns (report: Report, out: seq<Output>)
      requires Agrees() && Sane()
      modifies this, books
      ensures Agrees() && Handled(s, out, report) == Handle(old(s), r)
    {
      hide Agrees, Good, HandleNew, HandleCancel, HandleReplace;
      match r.kind {
        case New => report, out := HandleNewOrder(r);
        case Cancel =>
          report := HandleCancelOrder(r);
          out := [];
        case Replace => report, out := HandleReplaceOrder(r);
      }
    }

    method ApplyOrderRequest(r: Request) returns (out: seq<Output>)
      requires Agrees() && Sane()
      modifies this, books, caches, set c | c in caches :: c.entries
      ensures Agrees() && Emitted(s, out) == ApplyRequest(old(s), r)
    {
      hide Agrees, Good, Handle, Reject, RecordOutcome, CacheLookup, TakeSeq;
      assert |caches| == |cfg.accountIds.ids| by { Open(); }
      var known := r.account in cfg.accountIds.index;
      var a := if known then cfg.accountIds.index[r.account] else 0;
      if known {
        var hit := FindOutcome(a, r);
        match hit {
          case Retry(previous) =>
            var n := TakeOutputSeq();
            assert FieldsAgree() by { Open(); }
            return [ReportOut(previous.(outputSeq := n, engineSeq := engineSeq, timeNs := engineTimeNs))];
          case Conflict =>
            var conflict := RejectRequest(r, DuplicateRequestConflict, []);
            Remember(a, r, conflict);
            return [ReportOut(conflict)];
          case Miss =>
        }
      }
      var report;
      report, out := HandleRequest(r);
      if known {
        Remember(a, r, report);
      }
      out := out + [ReportOut(report)];
    }

    // ---- the other inputs -------------------------------------------------

    method EmitState(change: StateChange) returns (out: seq<Output>)
      requires Agrees()
      modifies this
      ensures Agrees() && Emitted(s, out) == PushState(old(s), change)
    {
      hide Agrees, TakeSeq;
      var n := TakeOutputSeq();
      assert FieldsAgree() by { Open(); }
      out := [StateOut(n, engineSeq, engineTimeNs, change)];
    }

    twostate lemma ViewKept(i: nat)
      requires old(Agrees()) && i < |views| && accounts == old(accounts)
      requires s == PutView(old(s), i, views[i].Abstract()) && FieldsAgree()
      requires forall j :: 0 <= j < |views| && j != i ==> unchanged(views[j])
      requires unchanged(books) && unchanged(caches) && unchanged(set c | c in caches :: c.entries)
      ensures Agrees()
    {
      hide Represents, Holds, Points;
      forall a | 0 <= a < |accounts| ensures RowAgrees(a) {
        assert old(RowAgrees(a));
      }
      assert BooksAgree();
      assert ViewsAgree();
      assert CachesAgree();
    }

    method ApplyMarketEvent(e: MarketEvent) returns (out: seq<Output>)
      requires Agrees()
      modifies this, views
      ensures Agrees() && Emitted(s, out) == ApplyMarket(old(s), e)
    {
      hide Represents, Holds, Points, Market.Apply, PushState;
      if e.instrument !in cfg.instrumentIds.index {
        return [];
      }
      var i := cfg.instrumentIds.index[e.instrument];
      var previous, current := views[i].Apply(e.sourceSeq, e.kind, engineTimeNs);
      s := PutView(s, i, views[i].Abstract());
      ViewKept(i);
      if previous == current {
        return [];
      }
      out := EmitState(FeedChanged(e.instrument, current));
    }

    method SetKill(engaged: bool)
      requires Agrees()
      modifies this
      ensures Agrees() && s == old(s).(kill := engaged)
    {
      hide Represents, Holds, Points;
      globalKill := engaged;
      s := s.(kill := engaged);
      Kept();
    }

    method PutRow(a: nat, enabled: bool, limits: Limits)
      requires Agrees() && a < |accounts|
      modifies this
      ensures Agrees() && s == PutAccount(old(s), a, AccountAt(old(s), a).(enabled := enabled, limits := limits))
    {
      hide Represents, Holds, Points;
      assert RowAgrees(a);
      accounts := accounts[a := accounts[a].(enabled := enabled, limits := limits)];
      s := PutAccount(s, a, AccountAt(s, a).(enabled := enabled, limits := limits));
      forall b | 0 <= b < |accounts| ensures RowAgrees(b) {
        assert old(RowAgrees(b));
      }
    }

    method ApplyControlCommand(c: Command) returns (out: seq<Output>)
      requires Agrees()
      modifies this
      ensures Agrees() && Emitted(s, out) == ApplyControl(old(s), c)
    {
      hide Represents, Holds, Points, PushState;
      match c {
        case SetGlobalKill(engaged) =>
          if globalKill == engaged {
            return [];
          }
          SetKill(engaged);
          out := EmitState(if engaged then KillEngaged else KillReleased);
        case SetAccountEnabled(account, enabled) =>
          if account !in cfg.accountIds.index {
            return [];
          }
          var a := cfg.accountIds.index[account];
          assert RowAgrees(a);
          if accounts[a].enabled == enabled {
            return [];
          }
          PutRow(a, enabled, accounts[a].limits);
          out := EmitState(EnabledChanged(account, enabled));
        case SetAccountLimits(account, limits) =>
          if account !in cfg.accountIds.index {
            return [];
          }
          var a := cfg.accountIds.index[account];
          assert RowAgrees(a);
          PutRow(a, accounts[a].enabled, limits);
          out := EmitState(LimitsChanged(account));
      }
    }

    /** The fields hold a state every run keeps. */
    ghost predicate Valid()
      reads this, books, views, caches, set c | c in caches :: c.entries
    {
      Agrees() && Fine(s, Top(|cfg.accountIds.ids|))
    }

    /** Applies one input and returns its output events. */
    method Apply(input: Input) returns (out: seq<Output>)
      requires Valid()
      modifies this, books, views, caches, set c | c in caches :: c.entries
      ensures Valid() && Emitted(s, out) == Step(old(s), input)
    {
      hide Good, Represents, Holds, Points, ApplyRequest, ApplyMarket, ApplyControl;
      StepFine(s, Top(|cfg.accountIds.ids|), input);
      if fault.Some? {
        return [];
      }
      if engineSeq == U64_MAX {
        SetFault(SequenceExhausted);
        return [];
      }
      Tick(input.recvTimeNs);
      ClockGood(old(s), s, Top(|cfg.accountIds.ids|));
      match input.event {
        case MarketInput(e) => out := ApplyMarketEvent(e);
        case OrderInput(r) => out := ApplyOrderRequest(r);
        case ControlInput(c) => out := ApplyControlCommand(c);
      }
    }

    method Tick(now: u64)
      requires Agrees() && engineSeq < U64_MAX
      modifies this
      ensures Agrees() && s == old(s).(engineSeq := old(s).engineSeq + 1, time := now)
    {
      hide Represents, Holds, Points;
      engineSeq := engineSeq + 1;
      engineTimeNs := now;
      s := s.(engineSeq := s.engineSeq + 1, time := now);
      Kept();
    }
  }

  function AllFlat(m: nat): (r: seq<Position>)
    ensures |r| == m
  {
    seq(m, _ => Flat)
  }

  lemma InitialFields(cfg: Config, openings: seq<Opening>, depth: nat)
    requires |openings| == |cfg.accountIds.ids|
    ensures var s := Initial(cfg, openings, depth);
      && s.cfg == cfg && |s.desk.books| == |cfg.instruments| == |s.views|
      && |s.desk.positions| == |openings| == |s.accounts|
      && s.desk.live == map[] && s.desk.clients == map[] && !s.kill && s.fault.None?
      && s.engineSeq == 0 && s.outputSeq == 0 && s.nextOrder == 0 && s.nextTrade == 0 && s.nextPriority == 0 && s.time == 0
      && (forall i :: 0 <= i < |s.desk.books| ==> s.desk.books[i] == EmptyBook)
      && (forall i :: 0 <= i < |s.views| ==> s.views[i] == Market.NewView(cfg.instruments[i].lo, cfg.instruments[i].hi, depth))
      && (forall a :: 0 <= a < |openings| ==> s.desk.positions[a] == AllFlat(|cfg.instruments|))
      && (forall a :: 0 <= a < |openings| ==> s.accounts[a] == Account(openings[a].enabled, openings[a].limits, 0, []))
  {
  }

  method MakeRows(openings: seq<Opening>, m: nat) returns (rows: seq<AccountRow>)
    ensures |rows| == |openings|
    ensures forall a :: 0 <= a < |rows| ==>
      rows[a] == AccountRow(openings[a].enabled, openings[a].limits, 0, AllFlat(m))
  {
    rows := seq(|openings|, a requires 0 <= a < |openings| =>
                  AccountRow(openings[a].enabled, openings[a].limits, 0, AllFlat(m)));
  }

  method MakeBooks(n: nat, capacity: nat) returns (books: seq<OrderBook>)
    ensures |books| == n && fresh(books)
    ensures forall i, j :: 0 <= i < j < n ==> books[i] != books[j]
    ensures forall i :: 0 <= i < n ==> books[i].Valid() && books[i].book == EmptyBook && books[i].capacity == capacity
  {
    hide Represents;
    books := [];
    for k := 0 to n
      invariant |books| == k && fresh(books)
      invariant forall i, j :: 0 <= i < j < k ==> books[i] != books[j]
      invariant forall i :: 0 <= i < k ==> books[i].Valid() && books[i].book == EmptyBook && books[i].capacity == capacity
    {
      var b := new OrderBook(capacity);
      books := books + [b];
    }
  }

  method MakeViews(specs: seq<InstrumentSpec>, depth: nat) returns (views: seq<MarketView>)
    ensures |views| == |specs| && fresh(views)
    ensures forall i, j :: 0 <= i < j < |views| ==> views[i] != views[j]
    ensures forall i :: 0 <= i < |views| ==> views[i].Abstract() == Market.NewView(specs[i].lo, specs[i].hi, depth)
  {
    views := [];
    for k := 0 to |specs|
      invariant |views| == k && fresh(views)
      invariant forall i, j :: 0 <= i < j < k ==> views[i] != views[j]
      invariant forall i :: 0 <= i < k ==> views[i].Abstract() == Market.NewView(specs[i].lo, specs[i].hi, depth)
    {
      var v := new MarketView(specs[k].lo, specs[k].hi, depth);
      views := views + [v];
    }
  }

  method MakeCaches(n: nat, window: nat) returns (caches: seq<RequestCache>)
    requires window > 0
    ensures |caches| == n && fresh(caches) && fresh(set c | c in caches :: c.entries)
    ensures forall i, j :: 0 <= i < j < n ==> caches[i] != caches[j] && caches[i].entries != caches[j].entries
    ensures forall i :: 0 <= i < n ==> caches[i].Valid() && caches[i].cache == [] && caches[i].entries.Length == window
  {
    hide Holds, Points;
    caches := [];
    for k := 0 to n
      invariant |caches| == k && fresh(caches) && (forall i :: 0 <= i < k ==> fresh(caches[i].entries))
      invariant forall i, j :: 0 <= i < j < k ==> caches[i] != caches[j] && caches[i].entries != caches[j].entries
      invariant forall i :: 0 <= i < k ==> caches[i].Valid() && caches[i].cache == [] && caches[i].entries.Length == window
    {
      var c := new RequestCache(window);
      caches := caches + [c];
    }
  }

  ghost predicate OwnersKnown(cfg: Config, q: seq<Order>) {
    forall k :: 0 <= k < |q| ==> q[k].owner.account in cfg.accountIds.index
  }

  /** The owners of resting orders are configured accounts. */
  lemma GoodOwners(s: State, caps: seq<Cap>, i: nat, side: Side)
    requires Good(s, caps)
    ensures OwnersKnown(s.cfg, BookAt(s.desk, i).Of(side))
  {
    hide Keyed, Reserved, Roomy, BooksOk, Orderly, PriceTime.Lookup;
    var b := BookAt(s.desk, i);
    assert Orderly(b);
    forall k | 0 <= k < |b.Of(side)| ensures b.Of(side)[k].owner.account in s.cfg.accountIds.index {
      LookupAt(b, side, k);
      Registered(s.cfg.accountIds, s.desk, i, b.Of(side)[k].id);
    }
  }

  /** What resting needs of a book: the id absent, the priority new. */
  ghost predicate Restable(s: State, x: Taker) {
    && PriceTime.Lookup(BookAt(s.desk, x.instrument), x.id).None?
    && (s.nextPriority < U64_MAX ==> Fresh(BookAt(s.desk, x.instrument).Of(x.side), x.id, s.nextPriority + 1))
  }

  lemma ExecutedRestable(s: State, x: Taker, caps: seq<Cap>, limit: i64)
    requires x.account < |s.cfg.accountIds.ids| && x.instrument < |s.desk.books| && x.id !in s.desk.live
    requires Sound(s.cfg.accountIds, s.desk, caps, PendingOf(x, limit, x.quantity))
    requires BooksOk(s.desk, s.nextOrder, s.nextPriority)
    ensures Restable(Execute(s, x, limit).state, x)
  {
    hide Roomy, Reserved, Keyed, BooksOk, Match, SettleAll, Queue, Disjoint, PriceTime.Lookup, Fresh, Find;
    var i, ms := x.instrument, x.side.Opposite();
    var b := BookAt(s.desk, i);
    assert Orderly(b);
    QueueRests(b);
    Unlisted(s.desk, i, x.id, s.cfg.accountIds);
    AbsentId(b, x.id);
    ExecuteKeeps(s, x, caps, limit);
    var e := Execute(s, x, limit).state;
    var m := Match(ms, b.Of(ms), limit, x.quantity);
    ExecutedBook(s, x, caps, limit);
    var c := BookAt(e.desk, i);
    assert c == b.With(ms, m.rest);
    forall k | 0 <= k < |m.rest| ensures m.rest[k].id != x.id {
      var j := RestPrices(ms, b.Of(ms), limit, x.quantity, k);
    }
    AbsentLookup(c, x.id);
    FreshList(e, x, i);
  }

  lemma ExecutedBook(s: State, x: Taker, caps: seq<Cap>, limit: i64)
    requires x.account < |s.cfg.accountIds.ids| && x.instrument < |s.desk.books|
    requires Sound(s.cfg.accountIds, s.desk, caps, PendingOf(x, limit, x.quantity))
    requires Resting(x.side.Opposite(), BookAt(s.desk, x.instrument).Of(x.side.Opposite()))
    ensures var ms, b := x.side.Opposite(), BookAt(s.desk, x.instrument);
      BookAt(Execute(s, x, limit).state.desk, x.instrument)
        == b.With(ms, Match(ms, b.Of(ms), limit, x.quantity).rest)
  {
    hide Sound, Match, SettleAll, Resting, Seen;
    var i, ms := x.instrument, x.side.Opposite();
    var b := BookAt(s.desk, i);
    var m := Match(ms, b.Of(ms), limit, x.quantity);
    var s0 := s.(desk := PutBook(s.desk, i, b.With(ms, m.rest)));
    SeenWhole(s.desk, i, ms, m.rest);
    SettleKeeps(s0, x, caps, limit, b.Of(ms), x.quantity, 0);
  }

  lemma AbsentLookup(b: Book, id: u64)
    requires forall k :: 0 <= k < |b.bids| ==> b.bids[k].id != id
    requires forall k :: 0 <= k < |b.asks| ==> b.asks[k].id != id
    ensures PriceTime.Lookup(b, id).None?
  {
  }

  lemma FreshList(s: State, x: Taker, i: nat)
    requires BooksOk(s.desk, s.nextOrder, s.nextPriority)
    requires PriceTime.Lookup(BookAt(s.desk, i), x.id).None?
    ensures s.nextPriority < U64_MAX ==> Fresh(BookAt(s.desk, i).Of(x.side), x.id, s.nextPriority + 1)
  {
    hide PriceTime.Lookup, Uncrossed;
    AbsentId(BookAt(s.desk, i), x.id);
    assert BookOk(BookAt(s.desk, i), s.nextOrder, s.nextPriority);
  }

  /** A checked new order can execute, and its remainder can rest. */
  lemma NewReady(s: State, caps: seq<Cap>, r: Request, s0: State, x: Taker, limit: i64)
    requires Good(s, caps) && s.fault.None? && CheckNew(s, r).Pass? && Successor(s.nextOrder).Some?
    requires s0 == s.(nextOrder := s.nextOrder + 1)
    requires var c := CheckNew(s, r).value;
      x == Taker(c.account, c.instrument, r, s.nextOrder + 1, r.side, r.quantity) && limit == c.limit
    ensures x.account < |s.cfg.accountIds.ids| && x.instrument < |s.desk.books|
    ensures OwnersKnown(s.cfg, BookAt(s.desk, x.instrument).Of(x.side.Opposite()))
    ensures Restable(Execute(s0, x, limit).state, x)
  {
    hide Good, CheckNew, Execute, Sound, BooksOk, OwnersKnown, Restable;
    NewPends(s, caps, r);
    GoodOwners(s, caps, x.instrument, x.side.Opposite());
    ExecutedRestable(s0, x, caps, limit);
  }

  /** The source's order of steps for a cancel gives the withdrawal. */
  lemma CancelSteps(s: State, a: nat, i: nat, o: Order)
    requires o.filled <= o.total
    ensures var s1 := s.(desk := PutBook(s.desk, i, Remove(BookAt(s.desk, i), o.id)));
      var s2 := s1.On(ReleaseOrder(s1.desk, a, i, o.side, o.Remaining(), o.price));
      s2.(desk := Forget(s2.desk, o.id, o.owner)) == s.On(Withdraw(s.desk, a, i, o))
  {
    hide Remove, ReleaseOrder, PutBook;
  }

  /** The source's order of steps for a replacement in place. */
  lemma InPlaceSteps(s: State, r: Request, c: Replacement)
    requires c.existing.filled <= r.quantity < c.existing.total
    ensures var o, i := c.existing, c.instrument;
      var s1 := s.On(ReleaseOrder(s.desk, c.account, i, o.side, o.total - r.quantity, o.price));
      var d := PutBook(s1.desk, i, Reduce(BookAt(s1.desk, i), o.id, r.quantity));
      ReplaceInPlace(s, r, c) == Naming(
        if r.quantity == o.filled then
          Answer(s1.(desk := Forget(PutBook(d, i, Remove(BookAt(d, i), o.id)), o.id, o.owner)), [], r, o.id,
                 Cancelled, CancelledState, o.filled, 0)
        else Answer(s1.(desk := d), [], r, o.id, Replaced, StateOf(o.filled), o.filled, r.quantity - o.filled), o)
  {
    hide ReleaseOrder, Reduce, Remove, PutBook, Forget, Answer;
  }

  lemma PutReduced(d: Desk, i: nat, reduced: Book, removed: Book)
    ensures PutBook(PutBook(d, i, reduced), i, removed) == PutBook(d, i, removed)
  {
    if i < |d.books| {
      assert d.books[i := reduced][i := removed] == d.books[i := removed];
    }
  }

  /** A checked replacement, once its order is withdrawn, can execute, and its
      remainder can rest. */
  lemma AnewReady(s: State, caps: seq<Cap>, r: Request)
    requires Good(s, caps) && s.fault.None? && CheckReplace(s, r).Pass?
    ensures var c := CheckReplace(s, r).value;
      var o := c.existing;
      && o.filled < o.total
      && var done := Withdraw(s.desk, c.account, c.instrument, o);
      var s1 := s.(desk := done.desk);
      && done.ok
      && OwnersKnown(s.cfg, BookAt(s1.desk, c.instrument).Of(o.side.Opposite()))
      && (o.filled < r.quantity ==>
            var x := Taker(c.account, c.instrument, r, o.id, o.side, r.quantity - o.filled);
            Restable(Execute(s1, x, r.price).state, x) && Filling(s1, x, r.price) <= x.quantity)
  {
    hide Good, CheckReplace, Execute, Filling, OwnersKnown, Restable, Withdraw, PriceTime.Lookup, Admitted, Executed, Sound;
    var c := CheckReplace(s, r).value;
    ReplaceAdmitted(s, caps, r);
    var o := c.existing;
    WithdrawGood(s, caps, c.account, c.instrument, o);
    var s1 := s.(desk := Withdraw(s.desk, c.account, c.instrument, o).desk);
    GoodOwners(s1, caps, c.instrument, o.side.Opposite());
    WithdrawnSize(s.desk, c.account, c.instrument, o);
    if o.filled < r.quantity {
      var x := Taker(c.account, c.instrument, r, o.id, o.side, r.quantity - o.filled);
      ReplacePends(s, s1, caps, x, r.price, o);
      GoodBooks(s1, caps);
      ExecutedRestable(s1, x, caps, r.price);
      ExecuteKeeps(s1, x, caps, r.price);
      ExecutedLeft(s1, Execute(s1, x, r.price).state, x, caps, r.price, x.quantity - Filling(s1, x, r.price));
    }
  }

  lemma GoodBooks(s: State, caps: seq<Cap>)
    requires Good(s, caps)
    ensures BooksOk(s.desk, s.nextOrder, s.nextPriority)
  {
  }

  lemma SettledNone(s: State, x: Taker, cumulative: u64)
    ensures SettleAll(s, x, [], cumulative) == Emitted(s, [])
  {
  }

  lemma SettledSome(s: State, x: Taker, fills: seq<Fill>, cumulative: u64)
    requires fills != []
    ensures SettleAll(s, x, fills, cumulative) ==
      if cumulative + fills[0].quantity > U64_MAX then Emitted(s.(fault := Some(Accounting)), [])
      else if Successor(s.nextTrade).None? then Emitted(s.(fault := Some(SequenceExhausted)), [])
      else
        var one := SettleOne(s.(nextTrade := s.nextTrade + 1), x, fills[0], cumulative + fills[0].quantity);
        var rest := SettleAll(one.state, x, fills[1..], cumulative + fills[0].quantity);
        Emitted(rest.state, one.out + rest.out)
  {
    hide SettleOne;
  }

  /** The events so far, then settling the fills left, is settling them all. */
  ghost predicate Settling(s0: State, x: Taker, fills: seq<Fill>, s: State, index: nat, cumulative: u64, out: seq<Output>) {
    && index <= |fills|
    && var rest := SettleAll(s, x, fills[index..], cumulative);
    SettleAll(s0, x, fills, 0) == Emitted(rest.state, out + rest.out)
  }

  lemma SettlingStarts(s: State, x: Taker, fills: seq<Fill>)
    ensures Settling(s, x, fills, s, 0, 0, [])
  {
    hide SettleAll;
    assert fills[0..] == fills;
    assert [] + SettleAll(s, x, fills, 0).out == SettleAll(s, x, fills, 0).out;
  }

  lemma SettlingEnds(s0: State, x: Taker, fills: seq<Fill>, s: State, index: nat, cumulative: u64, out: seq<Output>)
    requires Settling(s0, x, fills, s, index, cumulative, out) && index == |fills|
    ensures SettleAll(s0, x, fills, 0) == Emitted(s, out)
  {
    hide SettleAll;
    assert fills[index..] == [] && out + [] == out;
    SettledNone(s, x, cumulative);
  }

  lemma SettlingNext(s0: State, x: Taker, fills: seq<Fill>, s: State, index: nat, cumulative: u64, out: seq<Output>)
    requires Settling(s0, x, fills, s, index, cumulative, out) && index < |fills|
    ensures var f := fills[index];
      if cumulative + f.quantity > U64_MAX then
        SettleAll(s0, x, fills, 0) == Emitted(s.(fault := Some(Accounting)), out)
      else if Successor(s.nextTrade).None? then
        SettleAll(s0, x, fills, 0) == Emitted(s.(fault := Some(SequenceExhausted)), out)
      else
        var one := SettleOne(s.(nextTrade := s.nextTrade + 1), x, f, cumulative + f.quantity);
        Settling(s0, x, fills, one.state, index + 1, cumulative + f.quantity, out + one.out)
  {
    hide SettleAll, SettleOne;
    var f := fills[index];
    SettledSome(s, x, fills[index..], cumulative);
    assert fills[index..][0] == f && fills[index..][1..] == fills[index + 1..];
    assert out + [] == out;
    if cumulative + f.quantity <= U64_MAX && Successor(s.nextTrade).Some? {
      var one := SettleOne(s.(nextTrade := s.nextTrade + 1), x, f, cumulative + f.quantity);
      var rest := SettleAll(one.state, x, fills[index + 1..], cumulative + f.quantity);
      assert out + (one.out + rest.out) == out + one.out + rest.out;
    }
  }

  /** The fills of a match are with known owners, and there are none exactly
      when nothing was filled. */
  lemma SweptFills(cfg: Config, side: Side, q: seq<Order>, limit: i64, quantity: u64)
    requires OwnersKnown(cfg, q)
    ensures var m := Sweep(side, q, limit, quantity);
      && (forall k :: 0 <= k < |m.fills| ==> m.fills[k].owner.account in cfg.accountIds.index)
      && (Lots(m.fills) == 0 ==> m.fills == [])
  {
    hide Match, Resting;
    var m := Sweep(side, q, limit, quantity);
    if m.fills != [] {
      forall k | 0 <= k < |m.fills| ensures m.fills[k].owner.account in cfg.accountIds.index {
        FillAt(side, q, limit, quantity, k);
      }
      FillAt(side, q, limit, quantity, 0);
    }
  }

  /** Two states that differ in the desk only emit the same events. */
  lemma SameEvents(s: State, t: State, s': State, t': State, x: Taker, f: Fill)
    requires s == t.(desk := s.desk) && s' == t'.(desk := s'.desk)
    ensures TradeFor(s, x, f) == TradeFor(t, x, f) && MakerReport(s', x, f) == MakerReport(t', x, f)
  {
  }

  lemma SeqDesk(s: State, d: Desk)
    ensures TakeSeq(s.(desk := d)) == TakeSeq(s).(desk := d)
  {
  }

  /** The source's order of steps for one fill gives the same state. */
  lemma SettleSteps(s: State, maker: nat, x: Taker, f: Fill)
    ensures var i := x.instrument;
      var s1 := s.On(ReleaseOrder(s.desk, maker, i, x.side.Opposite(), f.quantity, f.price));
      var s2 := s1.On(MovePosition(s1.desk, maker, i, x.side.Opposite(), f.quantity));
      var s3 := s2.On(MovePosition(s2.desk, x.account, i, x.side, f.quantity));
      var s5 := TakeSeq(TakeSeq(s3));
      var s6 := if f.makerRemaining == 0 then s5.(desk := Forget(s5.desk, f.makerId, f.owner)) else s5;
      var t := s.On(SettleFill(s.desk, maker, x.account, i, x.side, f));
      && TakeSeq(s6) == TakeSeq(TakeSeq(TakeSeq(t)))
      && TakeSeq(s3) == TakeSeq(t).(desk := s3.desk)
      && TakeSeq(TakeSeq(s3)) == TakeSeq(TakeSeq(t)).(desk := s3.desk)
  {
    hide ReleaseOrder, MovePosition, Forget, TakeSeq;
    var i := x.instrument;
    var s1 := s.On(ReleaseOrder(s.desk, maker, i, x.side.Opposite(), f.quantity, f.price));
    var s2 := s1.On(MovePosition(s1.desk, maker, i, x.side.Opposite(), f.quantity));
    var s3 := s2.On(MovePosition(s2.desk, x.account, i, x.side, f.quantity));
    var t := s.On(SettleFill(s.desk, maker, x.account, i, x.side, f));
    assert s3 == t.(desk := s3.desk);
    assert t.desk == if f.makerRemaining == 0 then Forget(s3.desk, f.makerId, f.owner) else s3.desk;
    SeqDesk(t, s3.desk);
    SeqDesk(TakeSeq(t), s3.desk);
    SeqDesk(TakeSeq(TakeSeq(t)), t.desk);
    SeqDesk(TakeSeq(TakeSeq(t)), s3.desk);
    assert TakeSeq(TakeSeq(s3)).desk == s3.desk;
    assert TakeSeq(TakeSeq(t)).desk == t.desk by { SeqKeepsDesk(t); SeqKeepsDesk(TakeSeq(t)); }
  }

  lemma SeqKeepsDesk(s: State)
    ensures TakeSeq(s).desk == s.desk
  {
  }

  lemma SameBook(d: Desk, i: nat)
    ensures PutBook(d, i, BookAt(d, i)) == d
  {
    if i < |d.books| {
      assert d.books[i := d.books[i]] == d.books;
    }
  }

  /** A fresh engine over a configuration. */
  method NewCore(cfg: Config, openings: seq<Opening>, depth: nat) returns (core: TradingCore)
    requires |openings| == |cfg.accountIds.ids|
    ensures core.Valid() && core.s == Initial(cfg, openings, depth) && fresh(core)
    ensures fresh(core.books) && fresh(core.views) && fresh(core.caches) && fresh(set c | c in core.caches :: c.entries)
  {
    hide Represents, Holds, Points, Good, Initial, AllFlat;
    var books := MakeBooks(|cfg.instruments|, cfg.capacity);
    var views := MakeViews(cfg.instruments, depth);
    var caches := MakeCaches(|openings|, cfg.window);
    var rows := MakeRows(openings, |cfg.instruments|);
    InitialFields(cfg, openings, depth);
    core := new TradingCore(cfg, books, views, caches, rows, Initial(cfg, openings, depth));
    InitialGood(cfg, openings, depth, Top(|openings|));
  }
}
