/** The other side of a fill: the k-th trade of a request is with the k-th order of
    the queue it meets, and the maker's report describes that order. */
module Makers {
  import opened Domain
  import opened PriceTime
  import opened Ledger
  import opened Core
  import opened Accounts
  import opened Safety
  import opened Outputs
  import opened Attacks
  import opened OrdersTable
  import Collar

  /** The trade is with this order at its price, for no more than it had left, and
      the report gives the order as the trade leaves it. */
  ghost predicate Describes(t: Output, m: Output, o: Order) {
    && t.TradeOut? && m.ReportOut?
    && t.trade.makerOrderId == o.id && t.trade.makerAccount == o.owner.account && t.trade.price == o.price
    && 0 < t.trade.quantity <= o.total - o.filled
    && m.report.orderId == o.id && m.report.account == o.owner.account && m.report.clientOrderId == o.owner.client
    && m.report.price == o.price && m.report.total == o.total
    && m.report.cumulative == o.filled + t.trade.quantity
    && m.report.remaining == o.total - m.report.cumulative
  }

  /** In threes: the trade, the maker's report and the taker's report of each order. */
  ghost predicate AllDescribed(out: seq<Output>, q: seq<Order>) {
    && |out| % 3 == 0 && |out| <= 3 * |q|
    && forall k :: 0 <= k < |q| && 3 * k < |out| ==> Describes(out[3 * k], out[3 * k + 1], q[k])
  }

  ghost predicate FillsOf(fills: seq<Fill>, q: seq<Order>) {
    && |fills| <= |q|
    && forall k :: 0 <= k < |fills| ==> 0 < fills[k].quantity <= q[k].Remaining() && fills[k] == FillOf(q[k], fills[k].quantity)
  }

  lemma OneDescribed(s: State, x: Taker, o: Order, traded: u64, cumulative: u64)
    requires 0 < traded <= o.Remaining() && SettleOne(s, x, FillOf(o, traded), cumulative).state.fault.None?
    ensures var out := SettleOne(s, x, FillOf(o, traded), cumulative).out;
      |out| == 3 && Describes(out[0], out[1], o)
  {
    hide SettleFill;
  }

  lemma {:induction false} SettledDescribed(s: State, x: Taker, fills: seq<Fill>, cumulative: u64, q: seq<Order>)
    requires FillsOf(fills, q) && SettleAll(s, x, fills, cumulative).state.fault.None?
    ensures s.fault.None? && AllDescribed(SettleAll(s, x, fills, cumulative).out, q)
    decreases |fills|
  {
    hide SettleOne, Describes;
    if fills != [] {
      var s0 := s.(nextTrade := s.nextTrade + 1);
      var one := SettleOne(s0, x, fills[0], cumulative + fills[0].quantity);
      LaterFills(fills, q);
      SettledDescribed(one.state, x, fills[1..], cumulative + fills[0].quantity, q[1..]);
      SettleOneFault(s0, x, fills[0], cumulative + fills[0].quantity);
      OneDescribed(s0, x, q[0], fills[0].quantity, cumulative + fills[0].quantity);
      ThenDescribed(one.out, SettleAll(one.state, x, fills[1..], cumulative + fills[0].quantity).out, q);
    }
  }

  lemma LaterFills(fills: seq<Fill>, q: seq<Order>)
    requires FillsOf(fills, q) && fills != []
    ensures q != [] && FillsOf(fills[1..], q[1..])
  {
  }

  lemma ThenDescribed(first: seq<Output>, rest: seq<Output>, q: seq<Order>)
    requires q != [] && |first| == 3 && Describes(first[0], first[1], q[0]) && AllDescribed(rest, q[1..])
    ensures AllDescribed(first + rest, q)
  {
    hide Describes;
    var out := first + rest;
    forall k | 0 <= k < |q| && 3 * k < |out| ensures Describes(out[3 * k], out[3 * k + 1], q[k]) {
      if k > 0 {
        assert Describes(rest[3 * (k - 1)], rest[3 * (k - 1) + 1], q[1..][k - 1]);
      }
    }
  }

  lemma ExecuteDescribes(s: State, x: Taker, limit: i64)
    requires Queue(x.side.Opposite(), BookAt(s.desk, x.instrument).Of(x.side.Opposite()))
    requires Execute(s, x, limit).state.fault.None?
    ensures AllDescribed(Execute(s, x, limit).out, BookAt(s.desk, x.instrument).Of(x.side.Opposite()))
  {
    hide SettleAll, Match, Queue, AllDescribed;
    var b, ms := BookAt(s.desk, x.instrument), x.side.Opposite();
    var q := b.Of(ms);
    QueueIsResting(ms, q);
    var m := Sweep(ms, q, limit, x.quantity);
    MatchConsumesPrefix(ms, q, limit, x.quantity);
    SettledDescribed(s.(desk := PutBook(s.desk, x.instrument, b.With(ms, m.rest))), x, m.fills, 0, q);
  }

  /** In every good state, whatever a request trades is with the orders at the front
      of the queue it meets, one after the other, and each maker's report describes
      its order. */
  lemma MakersAreDescribed(s: State, caps: seq<Cap>, r: Request)
    requires Good(s, caps) && ApplyRequest(s, r).state.fault.None? && AttackOf(s, r).Some?
    ensures var out, k := ApplyRequest(s, r).out, AttackOf(s, r).value;
      && out != [] && AllDescribed(out[..|out| - 1], BookAt(s.desk, k.taker.instrument).Of(r.side.Opposite()))
  {
    hide Good, ApplyRequest, Execute, AllDescribed, Queue, BookAt, AttackOf;
    var k := AttackOf(s, r).value;
    RequestAttacks(s, r);
    AttackFills(s, r);
    Collar.MeetsSame(s, caps, r);
    ExecuteDescribes(k.state, k.taker, k.limit);
  }

  /** The fill events of a request are those of its execution. */
  lemma AttackFills(s: State, r: Request)
    requires AttackOf(s, r).Some? && ApplyRequest(s, r).state.fault.None?
    ensures var out, k := ApplyRequest(s, r).out, AttackOf(s, r).value;
      out != [] && out[..|out| - 1] == Execute(k.state, k.taker, k.limit).out && k.taker.side == r.side
  {
    hide HandleNew, HandleReplace, Execute, CacheLookup, CacheRecord, CheckNew, CheckReplace, Withdraw, Closes;
    var out, h := ApplyRequest(s, r).out, Handle(s, r);
    if r.kind.New? {
      NewCloses(s, r);
    } else {
      ReplaceCloses(s, r);
    }
    assert out[..|out| - 1] == h.out;
  }
}
