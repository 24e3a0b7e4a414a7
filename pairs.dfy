/** How many times a transaction enters the discount and gift-wrap handlers. The purchase
    handler reaches the pair at most twice in all: a discount followed by a gift wrap only
    sets the flag, and once the flag is set the pair handlers stop calling each other. */
module Pairs {
  import Probabilities
  import opened Topology
  import opened Draws
  import opened Hops
  import opened Trace
  import opened Traversal

  lemma {:induction false} VisitPairs(env: Env, s: Server, st: State)
    requires |st.pathTimes| > 0
    decreases Flag(st), Rank(s), 3, 0
    ensures DiscountGiftWraps(st.visited) <= DiscountGiftWraps(Visit(env, s, st).visited)
                                          <= DiscountGiftWraps(st.visited) + PairBound(s, st.loop)
  {
    var st1 := Enter(env.tape, env.names, s, st);
    CallsPairs(env, s, st1);
    PairStep(st.visited, s);
  }

  lemma {:induction false} CallsPairs(env: Env, s: Server, st: State)
    requires |st.pathTimes| > 0
    decreases Flag(st), Rank(s), 2, 0
    ensures DiscountGiftWraps(st.visited) <= DiscountGiftWraps(Calls(env, s, st).visited)
                                          <= DiscountGiftWraps(st.visited) + PairCalls(s, st.loop)
  {
    match s
    case PurchaseBook => PurchasePairs(env, st);
    case Discount => PartnerPairs(env, GiftWrap, st);
    case GiftWrap => PartnerPairs(env, Discount, st);
    case CardCheck => CardPairs(env, st);
    case _ => CommonPairs(env, s, st);
  }

  lemma {:induction false} PurchasePairs(env: Env, st: State)
    requires |st.pathTimes| > 0
    decreases Flag(st), Rank(PurchaseBook), 1, 0
    ensures DiscountGiftWraps(st.visited) <= DiscountGiftWraps(Purchase(env, st).visited)
                                          <= DiscountGiftWraps(st.visited) + 2
  {
    var discount := Below(env.tape, st.drawn, env.probs(Probabilities.Discount));
    var st1 := Skip(st);
    if discount {
      VisitPairs(env, Discount, st1);
    }
    var st2 := if discount then Visit(env, Discount, st1) else st1;
    PurchaseRestPairs(env, discount, st2);
  }

  lemma {:induction false} PurchaseRestPairs(env: Env, discount: bool, st: State)
    requires |st.pathTimes| > 0
    decreases Flag(st), Rank(PurchaseBook), 0, 0
    ensures DiscountGiftWraps(st.visited) <= DiscountGiftWraps(PurchaseRest(env, discount, st).visited)
                                          <= DiscountGiftWraps(st.visited) + (if discount then 0 else 2)
  {
    var gift := Below(env.tape, st.drawn, env.probs(Probabilities.GiftWrap));
    var st1 := Skip(st).(loop := st.loop || (gift && discount));
    if gift && !st1.loop {
      VisitPairs(env, GiftWrap, st1);
    }
    var st2 := if gift && !st1.loop then Visit(env, GiftWrap, st1) else st1;
    VisitPairs(env, BookAvailability, st2);
  }

  lemma {:induction false} CardPairs(env: Env, st: State)
    requires |st.pathTimes| > 0
    decreases Flag(st), Rank(CardCheck), 1, 0
    ensures DiscountGiftWraps(Card(env, st).visited) == DiscountGiftWraps(st.visited)
  {
    var card := CardChoice(env, st.drawn);
    var st1 := if card == Visa then Skip(st) else Skip(Skip(st));
    assert st1.visited == st.visited && IsCard(card);
    VisitPairs(env, card, st1);
  }

  lemma {:induction false} CommonPairs(env: Env, s: Server, st: State)
    requires |st.pathTimes| > 0
    requires !(s.PurchaseBook? || s.Discount? || s.GiftWrap? || s.CardCheck?)
    decreases Flag(st), Rank(s), 1, 0
    ensures DiscountGiftWraps(st.visited) <= DiscountGiftWraps(Common(env, s, st).visited)
                                          <= DiscountGiftWraps(st.visited) + PairCalls(s, st.loop)
  {
    OptionalsRank(s);
    OptionalsPairFree(s);
    NextRank(s);
    NextPairs(s);
    var opts := Optionals(s);
    OptionalsPairs(env, opts, Rank(s), st);
    var st1 := VisitOptionals(env, opts, Rank(s), st);
    if Next(s).Some? {
      VisitPairs(env, Next(s).value, st1);
    }
  }

  /** No optional call reaches the pair handlers or the handlers above them. */
  lemma OptionalsPairFree(s: Server)
    ensures forall i :: 0 <= i < |Optionals(s)| ==> PairBound(Optionals(s)[i].target, false) == 0
  {
    OptionalsOffSpine(s);
    OptionalsGuarded(s);
  }

  /** Only the user interface handler's mandatory call, to the purchase handler, can reach
      the pair. */
  lemma NextPairs(s: Server)
    ensures forall loop :: Next(s).Some? ==> PairBound(Next(s).value, loop) == (if s.Ui? then 2 else 0)
  {
    NextRank(s);
    NextSpine(s);
  }

  lemma {:induction false} PartnerPairs(env: Env, partner: Server, st: State)
    requires |st.pathTimes| > 0 && (partner.Discount? || partner.GiftWrap?)
    decreases Flag(st), 0, 1, 0
    ensures DiscountGiftWraps(st.visited) <= DiscountGiftWraps(Partner(env, partner, st).visited)
                                          <= DiscountGiftWraps(st.visited) + (if st.loop then 0 else 1)
  {
    if !st.loop && Below(env.tape, st.drawn, env.probs(Probabilities.DiscountGiftWrap)) {
      VisitPairs(env, partner, Skip(st).(loop := true));
    }
  }

  lemma {:induction false} OptionalsPairs(env: Env, opts: seq<Optional>, bound: nat, st: State)
    requires |st.pathTimes| > 0
    requires forall i :: 0 <= i < |opts| ==> Rank(opts[i].target) < bound
    decreases Flag(st), bound, 0, |opts|
    ensures (forall i :: 0 <= i < |opts| ==> PairBound(opts[i].target, false) == 0) ==>
      DiscountGiftWraps(VisitOptionals(env, opts, bound, st).visited) == DiscountGiftWraps(st.visited)
  {
    if opts != [] {
      var st1 := Skip(st);
      var fired := Below(env.tape, st.drawn, env.probs(opts[0].chance));
      if fired {
        VisitPairs(env, opts[0].target, st1);
      }
      var st2 := if fired then Visit(env, opts[0].target, st1) else st1;
      var rest := opts[1..];
      assert forall i :: 0 <= i < |rest| ==> rest[i] == opts[i + 1];
      OptionalsPairs(env, rest, bound, st2);
    }
  }
}
