/** Cancelling: a registered order can always be withdrawn, and a cancel does
    exactly that. */
module Cancels {
  import opened Domain
  import opened PriceTime
  import opened Ledger
  import opened Core
  import opened Accounts
  import opened Safety
  import opened Requests

  /** One side of the book lost one order and everything else kept its place. */
  ghost predicate Without(b: Book, b': Book, o: Order) {
    && b'.Of(o.side.Opposite()) == b.Of(o.side.Opposite())
    && exists k :: 0 <= k < |b.Of(o.side)| && Lacks(b.Of(o.side), b'.Of(o.side), k) && b.Of(o.side)[k] == o
  }

  ghost predicate Lacks(q: seq<Order>, q': seq<Order>, k: nat)
    requires k < |q|
  {
    q' == q[..k] + q[k + 1..]
  }

  /** The reservation of what the order had left is gone; nothing else moved. */
  ghost predicate Freed(p: Position, p': Position, o: Order) {
    && p'.lots == p.lots
    && p'.Open(o.side) == p.Open(o.side) - (o.total - o.filled)
    && p'.Notional(o.side) == p.Notional(o.side) - (o.total - o.filled) * Abs(o.price)
    && p'.Open(o.side.Opposite()) == p.Open(o.side.Opposite())
    && p'.Notional(o.side.Opposite()) == p.Notional(o.side.Opposite())
  }

  /** The order of account a in book i is off the desk, and only that changed. */
  ghost predicate Gone(d: Desk, d': Desk, a: nat, i: nat, o: Order) {
    && i < |d.books| == |d'.books| && Without(BookAt(d, i), BookAt(d', i), o)
    && (forall j: nat :: j != i ==> BookAt(d', j) == BookAt(d, j))
    && (forall j: nat :: Lookup(BookAt(d', j), o.id).None?)
    && d'.live == d.live - {o.id} && d'.clients == d.clients - {o.owner}
    && Freed(Pos(d, a, i), Pos(d', a, i), o)
    && (forall b: nat, j: nat :: b != a || j != i ==> Pos(d', b, j) == Pos(d, b, j))
  }

  /** The report names the order as it stood and says that it is cancelled. */
  ghost predicate Confirms(report: Report, r: Request, o: Order) {
    && report.reject.None? && report.kind.Cancelled? && report.state.CancelledState?
    && report.account == r.account && report.requestId == r.requestId
    && report.orderId == o.id && report.clientOrderId == o.owner.client && report.side == o.side
    && report.price == o.price && report.total == o.total && report.cumulative == o.filled && report.remaining == 0
  }

  lemma WithdrawIsGone(s: State, caps: seq<Cap>, a: nat, i: nat, o: Order)
    requires Good(s, caps) && i < |s.desk.books| && Lookup(BookAt(s.desk, i), o.id) == Some(o)
    requires o.owner.account in s.cfg.accountIds.index && a == s.cfg.accountIds.index[o.owner.account]
    ensures o.filled < o.total && Withdraw(s.desk, a, i, o).ok && Gone(s.desk, Withdraw(s.desk, a, i, o).desk, a, i, o)
  {
    hide Good, Lookup, Withdraw, Remove, Orderly, Keyed, Without, Freed;
    WithdrawGood(s, caps, a, i, o);
    GoodKeyed(s, caps);
    var done := Withdraw(s.desk, a, i, o);
    WithdrawnEffects(s.desk, a, i, o);
    RemovedWithout(BookAt(s.desk, i), o);
    LoweredIsFreed(Pos(s.desk, a, i), Pos(done.desk, a, i), o);
    GoodKeyed(s.(desk := done.desk), caps);
    forall j: nat ensures Lookup(BookAt(done.desk, j), o.id).None? {
      NotLive(s.cfg.accountIds, done.desk, j, o.id);
    }
  }

  lemma RemovedWithout(b: Book, o: Order)
    requires Orderly(b) && Lookup(b, o.id) == Some(o)
    ensures Without(b, Remove(b, o.id), o)
  {
    hide Orderly, Lookup, Remove;
    var k := RemoveIsDrop(b, o.id);
    assert Lacks(b.Of(o.side), Remove(b, o.id).Of(o.side), k);
  }

  lemma LoweredIsFreed(p: Position, p': Position, o: Order)
    requires Lowered(p, p', o)
    ensures Freed(p, p', o)
  {
    assert p'.Booked(InLots, o.side) == p'.Open(o.side) && p'.Booked(InNotional, o.side) == p'.Notional(o.side);
    var other := o.side.Opposite();
    assert p'.Booked(InLots, other) == p'.Open(other) && p'.Booked(InNotional, other) == p'.Notional(other);
  }

  lemma NotLive(r: Roster, d: Desk, j: nat, id: u64)
    requires Keyed(r, d) && id !in d.live
    ensures Lookup(BookAt(d, j), id).None?
  {
    hide Lookup;
    assert Listed(d, j, id);
  }

  /** A cancel that names a registered order withdraws it, whatever the kill switch,
      the feed or the account say: the order is in no book and no registry, its
      owner's reservation falls by exactly what it had left, everything else on the
      desk is as it was, and the one report describes the order. */
  lemma CancelWithdraws(s: State, caps: seq<Cap>, r: Request)
    requires Good(s, caps) && s.fault.None? && r.kind.Cancel? && Novel(s, r)
    requires Owner(r.account, r.target) in s.desk.clients
    ensures var e, id := ApplyRequest(s, r), s.desk.clients[Owner(r.account, r.target)];
      && r.account in s.cfg.accountIds.index && id in s.desk.live
      && var a, i := s.cfg.accountIds.index[r.account], s.desk.live[id].instrument;
      && Lookup(BookAt(s.desk, i), id).Some?
      && var o := Lookup(BookAt(s.desk, i), id).value;
      && o.id == id && o.owner == Owner(r.account, r.target) && Gone(s.desk, e.state.desk, a, i, o)
      && |e.out| == 1 && e.out[0].ReportOut? && Confirms(e.out[0].report, r, o)
      && Kept(s, e.state) && Remembers(s, e.state, r, e.out[0].report)
  {
    hide Good, Withdraw, Lookup, Gone, ApplyRequest, Handle, HandleCancel, Keyed, Confirms;
    var key := Owner(r.account, r.target);
    GoodKeyed(s, caps);
    ClientOrder(s.cfg.accountIds, s.desk, key);
    var id := s.desk.clients[key];
    var i := s.desk.live[id].instrument;
    var o := Lookup(BookAt(s.desk, i), id).value;
    WithdrawIsGone(s, caps, s.cfg.accountIds.index[r.account], i, o);
    CancelHandled(s, r, s.cfg.accountIds.index[r.account], i, o);
    NovelIsHandled(s, r);
  }

  lemma CancelHandled(s: State, r: Request, a: nat, i: nat, o: Order)
    requires s.fault.None? && r.kind.Cancel? && r.account in s.cfg.accountIds.index && Owner(r.account, r.target) in s.desk.clients
    requires s.desk.clients[Owner(r.account, r.target)] == o.id && o.id in s.desk.live && s.desk.live[o.id] == LiveOrder(a, i)
    requires Lookup(BookAt(s.desk, i), o.id) == Some(o) && o.filled <= o.total && Withdraw(s.desk, a, i, o).ok
    ensures var h := Handle(s, r);
      && h.state.desk == Withdraw(s.desk, a, i, o).desk && Kept(s, h.state) && h.state.accounts == s.accounts
      && h.out == [] && Confirms(h.report, r, o)
  {
    hide Lookup, Withdraw;
  }

  /** Only the desk, the sequence of outputs, the memory of accounts and, with the
      sequences used up, the fault differ. */
  ghost predicate Kept(s: State, e: State) {
    && e == s.(desk := e.desk, outputSeq := e.outputSeq, accounts := e.accounts, fault := e.fault)
    && (e.fault.None? || (e.fault == Some(SequenceExhausted) && s.outputSeq == U64_MAX))
  }

  /** A cancel under a key that is not registered is refused and changes nothing. */
  lemma CancelUnknown(s: State, r: Request)
    requires s.fault.None? && r.kind.Cancel? && Novel(s, r) && Owner(r.account, r.target) !in s.desk.clients
    ensures var e := ApplyRequest(s, r);
      && e.state.desk == s.desk && |e.out| == 1 && e.out[0].ReportOut? && e.out[0].report.kind.Rejected?
      && e.out[0].report.reject == Some(if r.account in s.cfg.accountIds.index then UnknownOrder else UnknownAccount)
      && Kept(s, e.state) && Remembers(s, e.state, r, e.out[0].report)
  {
    hide ApplyRequest;
    NovelIsHandled(s, r);
  }
}
