/** Exposure as a sum: positions at their marks plus the notional of working
    orders. The exposure check is measured against it. */
module Margin {
  import opened Domain
  import opened Ledger
  import opened Core
  import Market

  /** Absolute reference price; a view without one values nothing. */
  ghost function Mark(v: Market.View): nat {
    match Market.ReferencePrice(v) case None => 0 case Some(m) => Abs(m)
  }

  /** Lots are held that nothing prices. */
  ghost predicate Unmarked(p: Position, v: Market.View) {
    p.lots != 0 && Market.ReferencePrice(v).None?
  }

  lemma ProductNonNegative(a: nat, b: nat)
    ensures a * b >= 0
  {
  }

  /** Held lots at their mark, and the notional of working orders. */
  ghost function Holding(p: Position, v: Market.View): (h: nat) {
    ProductNonNegative(Abs(p.lots), Mark(v));
    Abs(p.lots) * Mark(v) + p.buyNotional + p.sellNotional
  }

  /** The holdings of the first n instruments. */
  ghost function Marked(ps: seq<Position>, vs: seq<Market.View>, n: nat): (g: nat)
    requires n <= |ps| == |vs|
  {
    if n == 0 then 0
    else Marked(ps, vs, n - 1) + Holding(ps[n - 1], vs[n - 1])
  }

  /** An order to be added in one instrument and, in a replacement, one to go. */
  datatype Change = Change(instrument: nat, side: Side, added: nat, price: int, replaced: nat, replacedPrice: int) {
    function Lots(): int {
      added - replaced
    }

    function Notional(): int {
      added * Abs(price) - replaced * Abs(replacedPrice)
    }
  }

  /** The same sum with the added order in and the replaced one out. */
  ghost function MarkedWith(ps: seq<Position>, vs: seq<Market.View>, n: nat, c: Change): int
    requires n <= |ps| == |vs|
  {
    Marked(ps, vs, n) + if c.instrument < n then c.Notional() else 0
  }

  /** The position if everything working on the side filled. */
  ghost function Worst(p: Position, c: Change): int {
    p.lots + Signed(c.side, p.Open(c.side) + c.Lots())
  }

  ghost predicate Fits(p: Position, c: Change) {
    && p.Open(c.side) + c.Lots() <= I64_MAX && p.Notional(c.side) + c.Notional() <= U128_MAX
    && I64_MIN <= Worst(p, c) <= I64_MAX
  }

  /** Some held instrument has no mark, and what comes before it still fits. */
  ghost predicate Unpriced(ps: seq<Position>, vs: seq<Market.View>, c: Change)
    requires |ps| == |vs|
  {
    exists j :: 0 <= j < |ps| && Unmarked(ps[j], vs[j]) && MarkedWith(ps, vs, j, c) <= U128_MAX
  }

  // ---- the sum and the loop -----------------------------------------------

  lemma {:induction false} MarkedGrows(ps: seq<Position>, vs: seq<Market.View>, j: nat, n: nat)
    requires j <= n <= |ps| == |vs|
    ensures Marked(ps, vs, j) <= Marked(ps, vs, n)
  {
    hide Holding;
    if j < n {
      MarkedGrows(ps, vs, j, n - 1);
    }
  }

  lemma {:induction false} MarkedPut(ps: seq<Position>, vs: seq<Market.View>, n: nat, i: nat, p: Position)
    requires n <= |ps| == |vs| && i < |ps| && p.lots == ps[i].lots
    ensures Marked(ps[i := p], vs, n)
         == Marked(ps, vs, n) + if i < n then p.Worth() - ps[i].Worth() else 0
  {
    hide Mark;
    if n > 0 {
      MarkedPut(ps, vs, n - 1, i, p);
    }
  }

  lemma ExposureIsValue(p: Position, v: Market.View)
    ensures var e := Exposure(p, if Market.ReferencePrice(v).Some? then Market.ReferencePrice(v).value else 0);
      if Holding(p, v) <= U128_MAX then e == Some(Holding(p, v)) else e.None?
  {
    hide Market.ReferencePrice;
  }

  lemma FlatIsWorthless(p: Position, v: Market.View)
    ensures p.lots == 0 && p.buyNotional == 0 && p.sellNotional == 0 ==> Holding(p, v) == 0
  {
  }

  /** What the loop over instruments returns. */
  ghost predicate Tallied(ps: seq<Position>, vs: seq<Market.View>, k: nat, v: Verdict<u128>)
    requires |ps| == |vs|
  {
    if exists j :: k <= j < |ps| && Unmarked(ps[j], vs[j]) && Marked(ps, vs, j) <= U128_MAX then v == Refuse(NoReferencePrice)
    else if Marked(ps, vs, |ps|) > U128_MAX then v == Refuse(ArithmeticOverflow)
    else v == Pass(Marked(ps, vs, |ps|))
  }

  lemma {:induction false} GrossIsMarked(s: State, a: nat, i: nat, projected: Position, k: nat, gross: u128)
    requires a < |s.desk.positions| && |s.desk.positions[a]| == |s.views| && i < |s.views| && k <= |s.views|
    requires gross == Marked(s.desk.positions[a][i := projected], s.views, k)
    ensures Tallied(s.desk.positions[a][i := projected], s.views, k, GrossFrom(s, a, i, projected, k, gross))
    decreases |s.views| - k
  {
    hide Exposure, Market.ReferencePrice, Holding;
    var ps, vs := s.desk.positions[a][i := projected], s.views;
    if k < |vs| {
      var p := ps[k];
      assert p == if k == i then projected else Pos(s.desk, a, k);
      ExposureIsValue(p, vs[k]);
      FlatIsWorthless(p, vs[k]);
      if Unmarked(p, vs[k]) {
      } else if Marked(ps, vs, k + 1) <= U128_MAX {
        GrossIsMarked(s, a, i, projected, k + 1, Marked(ps, vs, k + 1));
      } else {
        forall j | k < j <= |ps| ensures Marked(ps, vs, j) > U128_MAX {
          MarkedGrows(ps, vs, k + 1, j);
        }
      }
    }
  }

  // ---- the check ----------------------------------------------------------

  /** The exposure check, measured: what does not fit overflows, then the worst
      position is limited, then the marked sum has to exist, fit and be within the
      gross limit. */
  ghost predicate Measured(ps: seq<Position>, vs: seq<Market.View>, limits: Limits, c: Change, verdict: Option<RejectReason>)
    requires |ps| == |vs| && c.instrument < |ps|
  {
    var p, gross := ps[c.instrument], MarkedWith(ps, vs, |ps|, c);
    verdict == if !Fits(p, c) then Some(ArithmeticOverflow)
               else if Abs(Worst(p, c)) > limits.maxPositionLots then Some(MaxPosition)
               else if Unpriced(ps, vs, c) then Some(NoReferencePrice)
               else if gross > U128_MAX then Some(ArithmeticOverflow)
               else if gross > limits.maxGrossExposure then Some(MaxGrossExposure)
               else None
  }

  lemma ProjectFits(p: Position, c: Change, added: u64, price: i64, replaced: u64, replacedPrice: i64)
    requires c == Change(c.instrument, c.side, added, price, replaced, replacedPrice)
    requires replaced <= p.Open(c.side) && replaced * Abs(replacedPrice) <= p.Notional(c.side)
    ensures CheckedNotional(added, price) == Some(added * Abs(price))
    ensures CheckedNotional(replaced, replacedPrice) == Some(replaced * Abs(replacedPrice))
    ensures var q := Project(p, c.side, added, added * Abs(price), replaced, replaced * Abs(replacedPrice));
      && (Fits(p, c) ==> q.Some? && WorstCase(q.value, c.side) == Some(Abs(Worst(p, c)))
                         && q.value.lots == p.lots && q.value.Worth() == p.Worth() + c.Notional())
      && (!Fits(p, c) ==> q.None? || WorstCase(q.value, c.side).None?)
  {
    NotionalFits(added, price);
    NotionalFits(replaced, replacedPrice);
  }

  lemma ExposureIsMeasured(s: State, a: nat, c: Change, added: u64, price: i64, replaced: u64, replacedPrice: i64)
    requires c == Change(c.instrument, c.side, added, price, replaced, replacedPrice)
    requires a < |s.desk.positions| && |s.desk.positions[a]| == |s.views| && c.instrument < |s.views| && a < |s.accounts|
    requires var p := s.desk.positions[a][c.instrument];
      replaced <= p.Open(c.side) && replaced * Abs(replacedPrice) <= p.Notional(c.side)
    ensures Measured(s.desk.positions[a], s.views, s.accounts[a].limits, c,
                     CheckExposure(s, a, c.instrument, c.side, added, price, replaced, replacedPrice))
  {
    hide GrossFrom, Project, WorstCase, Fits, Marked, Market.ReferencePrice, Unmarked, CheckedNotional;
    var ps, vs, i := s.desk.positions[a], s.views, c.instrument;
    var p := ps[i];
    ProjectFits(p, c, added, price, replaced, replacedPrice);
    if Fits(p, c) {
      var q := Project(p, c.side, added, added * Abs(price), replaced, replaced * Abs(replacedPrice)).value;
      NothingMarked(ps[i := q], vs);
      GrossIsMarked(s, a, i, q, 0, 0);
      ProjectedTally(ps, vs, c, q, GrossFrom(s, a, i, q, 0, 0));
    }
  }

  lemma NothingMarked(ps: seq<Position>, vs: seq<Market.View>)
    requires |ps| == |vs|
    ensures Marked(ps, vs, 0) == 0
  {
  }

  lemma ProjectedTally(ps: seq<Position>, vs: seq<Market.View>, c: Change, q: Position, v: Verdict<u128>)
    requires |ps| == |vs| && c.instrument < |ps|
    requires q.lots == ps[c.instrument].lots && q.Worth() == ps[c.instrument].Worth() + c.Notional()
    requires Tallied(ps[c.instrument := q], vs, 0, v)
    ensures if Unpriced(ps, vs, c) then v == Refuse(NoReferencePrice)
            else if MarkedWith(ps, vs, |ps|, c) > U128_MAX then v == Refuse(ArithmeticOverflow)
            else v == Pass(MarkedWith(ps, vs, |ps|, c))
  {
    hide Marked, Market.ReferencePrice;
    var ps' := ps[c.instrument := q];
    forall n | 0 <= n <= |ps| ensures Marked(ps', vs, n) == MarkedWith(ps, vs, n, c) {
      MarkedPut(ps, vs, n, c.instrument, q);
    }
    forall j | 0 <= j < |ps| ensures Unmarked(ps'[j], vs[j]) <==> Unmarked(ps[j], vs[j]) {
    }
  }
}
