/** Facts about the sequence of handlers a transaction enters. */
module Trace {
  import opened Topology

  /** The spine positions of the spine handlers in `v`, in order. */
  function Positions(v: seq<Server>): seq<nat> {
    if v == [] then []
    else Positions(v[..|v| - 1]) + (if OnSpine(v[|v| - 1]) then [SpinePos(v[|v| - 1])] else [])
  }

  lemma PositionsSnoc(v: seq<Server>, s: Server)
    ensures Positions(v + [s]) == Positions(v) + (if OnSpine(s) then [SpinePos(s)] else [])
  {
    assert (v + [s])[..|v|] == v;
  }

  /** The spine positions from `p` to the end of the spine. */
  function Stops(p: nat): (r: seq<nat>)
    decreases 12 - p
  {
    if p >= 12 then [] else [p] + Stops(p + 1)
  }

  /** The spine positions the handler for `s` walks through, itself included. */
  function SpineFrom(s: Server): seq<nat> {
    if OnSpine(s) then Stops(SpinePos(s)) else []
  }

  /** The spine positions the calls of the handler for `s` walk through. */
  function SpineAfter(s: Server): seq<nat> {
    if OnSpine(s) then Stops(SpinePos(s) + 1) else []
  }

  /** How many times the discount and gift-wrap handlers were entered. */
  function DiscountGiftWraps(v: seq<Server>): nat {
    multiset(v)[Discount] + multiset(v)[GiftWrap]
  }

  /** How many discount and gift-wrap visits the handler for `s` can add: the pair handlers
      add themselves and, while the flag is clear, their partner; the user interface and
      purchase handlers reach the pair once; no other handler reaches it. */
  function PairBound(s: Server, loop: bool): nat {
    if s.Discount? || s.GiftWrap? then (if loop then 1 else 2)
    else if s.Ui? || s.PurchaseBook? then 2
    else 0
  }

  /** How many discount and gift-wrap visits the calls of the handler for `s` can add. */
  function PairCalls(s: Server, loop: bool): nat {
    if s.Discount? || s.GiftWrap? then (if loop then 0 else 1)
    else if s.Ui? || s.PurchaseBook? then 2
    else 0
  }

  /** Handlers called only as the first optional call of one parent are always entered right
      after that parent. */
  predicate ParentOk(v: seq<Server>) {
    forall k :: 0 <= k < |v| && FirstChildOnly(v[k]) ==> k > 0 && ParentOf(v[k - 1], v[k])
  }

  /** Calling `s` after the visits `v` respects the parent rule. */
  predicate CallOk(v: seq<Server>, s: Server) {
    FirstChildOnly(s) ==> |v| > 0 && ParentOf(v[|v| - 1], s)
  }

  /** A list of optional calls respects the parent rule after the visits `v`: only the first
      may be a first-child-only handler, and then `v` ends with its parent. */
  predicate OptionalsOk(v: seq<Server>, opts: seq<Optional>) {
    && (forall i :: 1 <= i < |opts| ==> !FirstChildOnly(opts[i].target))
    && (|opts| > 0 ==> CallOk(v, opts[0].target))
  }

  lemma ParentOkSnoc(v: seq<Server>, s: Server)
    requires ParentOk(v) && CallOk(v, s)
    ensures ParentOk(v + [s])
  {
    var w := v + [s];
    forall k | 0 <= k < |w| && FirstChildOnly(w[k])
      ensures k > 0 && ParentOf(w[k - 1], w[k])
    {
      if k < |v| {
        assert w[k] == v[k];
        if k > 0 {
          assert w[k - 1] == v[k - 1];
        }
      }
    }
  }

  predicate AllOnSpine(v: seq<Server>) {
    forall k :: 0 <= k < |v| ==> OnSpine(v[k])
  }

  /** Entering `s` adds its own spine position, if any, in front of what its calls add. */
  lemma SpineStep(v: seq<Server>, s: Server)
    ensures Positions(v + [s]) + SpineAfter(s) == Positions(v) + SpineFrom(s)
  {
    PositionsSnoc(v, s);
  }

  /** Entering `s` counts itself when it is a pair handler; the bound on its calls is the
      bound on the handler less that visit. */
  lemma PairStep(v: seq<Server>, s: Server)
    ensures DiscountGiftWraps(v + [s]) + PairCalls(s, false) == DiscountGiftWraps(v) + PairBound(s, false)
    ensures DiscountGiftWraps(v + [s]) + PairCalls(s, true) == DiscountGiftWraps(v) + PairBound(s, true)
  {
    assert multiset(v + [s]) == multiset(v) + multiset{s};
  }

  lemma AllOnSpineSnoc(v: seq<Server>, s: Server)
    requires AllOnSpine(v) && OnSpine(s)
    ensures AllOnSpine(v + [s])
  {
    assert forall k :: 0 <= k < |v| ==> (v + [s])[k] == v[k];
  }

  /** The spine handlers among the visits `v`, in order. */
  function SpineVisits(v: seq<Server>): (w: seq<Server>)
    ensures forall i :: 0 <= i < |w| ==> OnSpine(w[i])
  {
    if v == [] then []
    else SpineVisits(v[..|v| - 1]) + (if OnSpine(v[|v| - 1]) then [v[|v| - 1]] else [])
  }

  /** The positions of `v` are the spine positions of its spine handlers. */
  lemma {:induction false} SpineVisitsPositions(v: seq<Server>)
    ensures |SpineVisits(v)| == |Positions(v)|
    ensures forall i :: 0 <= i < |Positions(v)| ==> Positions(v)[i] == SpinePos(SpineVisits(v)[i])
  {
    if v != [] {
      SpineVisitsPositions(v[..|v| - 1]);
    }
  }

  lemma {:induction false} StopsFacts(p: nat)
    requires p <= 12
    decreases 12 - p
    ensures |Stops(p)| == 12 - p
    ensures forall i :: 0 <= i < 12 - p ==> Stops(p)[i] == p + i
  {
    if p < 12 {
      StopsFacts(p + 1);
    }
  }

  /** Twelve spine handlers standing at positions 0 to 11 are the spine through the card at
      position 5. */
  lemma SpineByPositions(w: seq<Server>)
    requires |w| == 12 && forall i :: 0 <= i < 12 ==> OnSpine(w[i]) && SpinePos(w[i]) == i
    ensures IsCard(w[5]) && w == Spine(w[5])
  {
    SpinePosFacts(w[5]);
    forall i | 0 <= i < 12
      ensures w[i] == Spine(w[5])[i]
    {
      SpinePosFacts(w[i]);
    }
  }

  /** A walk whose positions are the whole spine enters the spine through one card. */
  lemma WholeSpine(v: seq<Server>)
    requires Positions(v) == Stops(0)
    ensures |SpineVisits(v)| == 12 && IsCard(SpineVisits(v)[5]) && SpineVisits(v) == Spine(SpineVisits(v)[5])
  {
    SpineVisitsPositions(v);
    StopsFacts(0);
    SpineByPositions(SpineVisits(v));
  }

  /** A walk made of spine handlers is its own spine walk. */
  lemma {:induction false} AllOnSpineVisits(v: seq<Server>)
    requires AllOnSpine(v)
    ensures SpineVisits(v) == v
  {
    if v != [] {
      AllOnSpineVisits(v[..|v| - 1]);
      assert v == v[..|v| - 1] + [v[|v| - 1]];
    }
  }

  /** Each position from `q` to the end of the spine occurs once in `Stops(q)`. */
  lemma {:induction false} StopsCount(q: nat, p: nat)
    requires q <= 12
    decreases 12 - q
    ensures multiset(Stops(q))[p] == if q <= p < 12 then 1 else 0
  {
    if q < 12 {
      StopsCount(q + 1, p);
    }
  }

  /** Only one spine handler stands at a position other than the card's. */
  lemma SamePosition(x: Server, y: Server)
    requires OnSpine(x) && !IsCard(x) && OnSpine(y) && SpinePos(y) == SpinePos(x)
    ensures y == x
  {
    SpinePosFacts(x);
    SpinePosFacts(y);
    assert Spine(Visa)[SpinePos(x)] == x;
  }

  /** Entering `y` adds one occurrence of position `p` exactly when `y` stands there. */
  lemma PositionCountSnoc(u: seq<Server>, y: Server, p: nat)
    ensures multiset(Positions(u + [y]))[p]
         == multiset(Positions(u))[p] + (if OnSpine(y) && SpinePos(y) == p then 1 else 0)
  {
    PositionsSnoc(u, y);
  }

  /** A spine handler other than a card occurs in `v` as often as its position in
      `Positions(v)`. */
  lemma {:induction false} PositionCount(v: seq<Server>, x: Server)
    requires OnSpine(x) && !IsCard(x)
    ensures multiset(v)[x] == multiset(Positions(v))[SpinePos(x)]
  {
    if v != [] {
      var u := v[..|v| - 1];
      var y := v[|v| - 1];
      PositionCount(u, x);
      assert v == u + [y];
      PositionCountSnoc(u, y, SpinePos(x));
      assert multiset(v) == multiset(u) + multiset{y};
      if OnSpine(y) && SpinePos(y) == SpinePos(x) {
        SamePosition(x, y);
      }
    }
  }

  /** Entering `y` adds one card visit exactly when `y` is a card. */
  lemma CardCountSnoc(u: seq<Server>, y: Server)
    ensures multiset(u + [y])[Visa] + multiset(u + [y])[AmericanExpress] + multiset(u + [y])[Mastercard]
         == multiset(u)[Visa] + multiset(u)[AmericanExpress] + multiset(u)[Mastercard]
            + (if IsCard(y) then 1 else 0)
  {
    assert multiset(u + [y]) == multiset(u) + multiset{y};
  }

  /** The cards together occur in `v` as often as position 5 in `Positions(v)`. */
  lemma {:induction false} CardPositionCount(v: seq<Server>)
    ensures multiset(v)[Visa] + multiset(v)[AmericanExpress] + multiset(v)[Mastercard]
         == multiset(Positions(v))[5]
  {
    if v != [] {
      var u := v[..|v| - 1];
      var y := v[|v| - 1];
      CardPositionCount(u);
      assert v == u + [y];
      CardCountSnoc(u, y);
      PositionCountSnoc(u, y, 5);
      assert (OnSpine(y) && SpinePos(y) == 5) == IsCard(y) by {
        if IsCard(y) {
          assert OnSpine(y);
        }
      }
    }
  }

  /** A walk along the spine from a position up to the card check's enters the card check,
      currency conversion and one card once each. */
  lemma OneCard(v: seq<Server>, q: nat)
    requires q <= 4 && Positions(v) == Stops(q)
    ensures multiset(v)[CardCheck] == 1 && multiset(v)[CurrencyConversion] == 1
    ensures multiset(v)[Visa] + multiset(v)[AmericanExpress] + multiset(v)[Mastercard] == 1
  {
    assert SpinePos(CardCheck) == 4 && SpinePos(CurrencyConversion) == 6;
    SpineOnce(v, q, CardCheck);
    SpineOnce(v, q, CurrencyConversion);
    CardOnce(v, q);
  }

  /** A walk along the spine from position `q` enters each later non-card spine handler once. */
  lemma SpineOnce(v: seq<Server>, q: nat, x: Server)
    requires OnSpine(x) && !IsCard(x) && q <= SpinePos(x) && Positions(v) == Stops(q)
    ensures multiset(v)[x] == 1
  {
    PositionCount(v, x);
    StopsCount(q, SpinePos(x));
  }

  /** A walk along the spine from a position up to the card's enters one card. */
  lemma CardOnce(v: seq<Server>, q: nat)
    requires q <= 5 && Positions(v) == Stops(q)
    ensures multiset(v)[Visa] + multiset(v)[AmericanExpress] + multiset(v)[Mastercard] == 1
  {
    CardPositionCount(v);
    StopsCount(q, 5);
  }
}
