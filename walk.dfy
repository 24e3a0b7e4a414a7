/** The spine positions each handler of `simulate_process` walks through. A handler on the
    spine walks from its own position to the end of the spine; the pair handlers and the
    optional calls are off the spine and add no position. */
module Walk {
  import Probabilities
  import opened Topology
  import opened Draws
  import opened Hops
  import opened Trace
  import opened Traversal

  lemma {:induction false} VisitWalk(env: Env, s: Server, st: State)
    requires |st.pathTimes| > 0
    decreases Flag(st), Rank(s), 3, 0
    ensures Positions(Visit(env, s, st).visited) == Positions(st.visited) + SpineFrom(s)
  {
    var st1 := Enter(env.tape, env.names, s, st);
    CallsWalk(env, s, st1);
    SpineStep(st.visited, s);
  }

  lemma {:induction false} CallsWalk(env: Env, s: Server, st: State)
    requires |st.pathTimes| > 0
    decreases Flag(st), Rank(s), 2, 0
    ensures Positions(Calls(env, s, st).visited) == Positions(st.visited) + SpineAfter(s)
  {
    match s
    case PurchaseBook => PurchaseWalk(env, st);
    case Discount => PartnerWalk(env, GiftWrap, st);
    case GiftWrap => PartnerWalk(env, Discount, st);
    case CardCheck => CardWalk(env, st);
    case _ => CommonWalk(env, s, st);
  }

  lemma {:induction false} PurchaseWalk(env: Env, st: State)
    requires |st.pathTimes| > 0
    decreases Flag(st), Rank(PurchaseBook), 1, 0
    ensures Positions(Purchase(env, st).visited) == Positions(st.visited) + Stops(2)
  {
    var discount := Below(env.tape, st.drawn, env.probs(Probabilities.Discount));
    var st1 := Skip(st);
    if discount {
      VisitWalk(env, Discount, st1);
    }
    var st2 := if discount then Visit(env, Discount, st1) else st1;
    assert Positions(st2.visited) == Positions(st.visited);
    PurchaseRestWalk(env, discount, st2);
  }

  lemma {:induction false} PurchaseRestWalk(env: Env, discount: bool, st: State)
    requires |st.pathTimes| > 0
    decreases Flag(st), Rank(PurchaseBook), 0, 0
    ensures Positions(PurchaseRest(env, discount, st).visited) == Positions(st.visited) + Stops(2)
  {
    var gift := Below(env.tape, st.drawn, env.probs(Probabilities.GiftWrap));
    var st1 := Skip(st).(loop := st.loop || (gift && discount));
    if gift && !st1.loop {
      VisitWalk(env, GiftWrap, st1);
    }
    var st2 := if gift && !st1.loop then Visit(env, GiftWrap, st1) else st1;
    assert Positions(st2.visited) == Positions(st.visited);
    VisitWalk(env, BookAvailability, st2);
  }

  lemma {:induction false} CardWalk(env: Env, st: State)
    requires |st.pathTimes| > 0
    decreases Flag(st), Rank(CardCheck), 1, 0
    ensures Positions(Card(env, st).visited) == Positions(st.visited) + Stops(5)
  {
    var card := CardChoice(env, st.drawn);
    var st1 := if card == Visa then Skip(st) else Skip(Skip(st));
    assert st1.visited == st.visited && IsCard(card);
    VisitWalk(env, card, st1);
    SpinePosFacts(card);
  }

  lemma {:induction false} CommonWalk(env: Env, s: Server, st: State)
    requires |st.pathTimes| > 0
    requires !(s.PurchaseBook? || s.Discount? || s.GiftWrap? || s.CardCheck?)
    decreases Flag(st), Rank(s), 1, 0
    ensures Positions(Common(env, s, st).visited) == Positions(st.visited) + SpineAfter(s)
  {
    OptionalsRank(s);
    OptionalsOffSpine(s);
    NextRank(s);
    NextSpine(s);
    OptionalsWalk(env, Optionals(s), Rank(s), st);
    var st1 := VisitOptionals(env, Optionals(s), Rank(s), st);
    if Next(s).Some? {
      VisitWalk(env, Next(s).value, st1);
    }
  }

  lemma {:induction false} PartnerWalk(env: Env, partner: Server, st: State)
    requires |st.pathTimes| > 0 && (partner.Discount? || partner.GiftWrap?)
    decreases Flag(st), 0, 1, 0
    ensures Positions(Partner(env, partner, st).visited) == Positions(st.visited)
  {
    if !st.loop && Below(env.tape, st.drawn, env.probs(Probabilities.DiscountGiftWrap)) {
      VisitWalk(env, partner, Skip(st).(loop := true));
    }
  }

  lemma {:induction false} OptionalsWalk(env: Env, opts: seq<Optional>, bound: nat, st: State)
    requires |st.pathTimes| > 0
    requires forall i :: 0 <= i < |opts| ==> Rank(opts[i].target) < bound
    decreases Flag(st), bound, 0, |opts|
    ensures (forall i :: 0 <= i < |opts| ==> !OnSpine(opts[i].target)) ==>
      Positions(VisitOptionals(env, opts, bound, st).visited) == Positions(st.visited)
  {
    if opts != [] {
      var st1 := Skip(st);
      var fired := Below(env.tape, st.drawn, env.probs(opts[0].chance));
      if fired {
        VisitWalk(env, opts[0].target, st1);
      }
      var st2 := if fired then Visit(env, opts[0].target, st1) else st1;
      var rest := opts[1..];
      assert forall i :: 0 <= i < |rest| ==> rest[i] == opts[i + 1];
      OptionalsWalk(env, rest, bound, st2);
    }
  }
}
