/** With every optional-call probability at zero, no guarded call fires: the transaction only
    walks the spine. */
module Quiet {
  import Probabilities
  import opened Topology
  import opened Hops
  import opened Trace
  import opened Traversal

  lemma {:induction false} VisitQuiet(env: Env, s: Server, st: State)
    requires |st.pathTimes| > 0
    decreases Flag(st), Rank(s), 3, 0
    ensures Probabilities.NoOptionalCalls(env.probs) && OnSpine(s) && AllOnSpine(st.visited) ==>
      AllOnSpine(Visit(env, s, st).visited)
  {
    var st1 := Enter(env.tape, env.names, s, st);
    if OnSpine(s) && AllOnSpine(st.visited) {
      AllOnSpineSnoc(st.visited, s);
    }
    CallsQuiet(env, s, st1);
  }

  lemma {:induction false} CallsQuiet(env: Env, s: Server, st: State)
    requires |st.pathTimes| > 0
    decreases Flag(st), Rank(s), 2, 0
    ensures Probabilities.NoOptionalCalls(env.probs) && AllOnSpine(st.visited) ==>
      AllOnSpine(Calls(env, s, st).visited)
  {
    match s
    case PurchaseBook => PurchaseQuiet(env, st);
    case Discount => PartnerQuiet(env, GiftWrap, st);
    case GiftWrap => PartnerQuiet(env, Discount, st);
    case CardCheck => CardQuiet(env, st);
    case _ => CommonQuiet(env, s, st);
  }

  lemma {:induction false} PurchaseQuiet(env: Env, st: State)
    requires |st.pathTimes| > 0
    decreases Flag(st), Rank(PurchaseBook), 1, 0
    ensures Probabilities.NoOptionalCalls(env.probs) && AllOnSpine(st.visited) ==>
      AllOnSpine(Purchase(env, st).visited)
  {
    if Probabilities.NoOptionalCalls(env.probs) && AllOnSpine(st.visited) {
      assert Probabilities.IsOptional(Probabilities.Discount);
      PurchaseRestQuiet(env, false, Skip(st));
    }
  }

  lemma {:induction false} PurchaseRestQuiet(env: Env, discount: bool, st: State)
    requires |st.pathTimes| > 0
    decreases Flag(st), Rank(PurchaseBook), 0, 0
    ensures Probabilities.NoOptionalCalls(env.probs) && AllOnSpine(st.visited) ==>
      AllOnSpine(PurchaseRest(env, discount, st).visited)
  {
    if Probabilities.NoOptionalCalls(env.probs) && AllOnSpine(st.visited) {
      assert Probabilities.IsOptional(Probabilities.GiftWrap);
      VisitQuiet(env, BookAvailability, Skip(st).(loop := st.loop));
    }
  }

  lemma {:induction false} CardQuiet(env: Env, st: State)
    requires |st.pathTimes| > 0
    decreases Flag(st), Rank(CardCheck), 1, 0
    ensures Probabilities.NoOptionalCalls(env.probs) && AllOnSpine(st.visited) ==>
      AllOnSpine(Card(env, st).visited)
  {
    var card := CardChoice(env, st.drawn);
    var st1 := if card == Visa then Skip(st) else Skip(Skip(st));
    assert st1.visited == st.visited && OnSpine(card);
    VisitQuiet(env, card, st1);
  }

  lemma {:induction false} CommonQuiet(env: Env, s: Server, st: State)
    requires |st.pathTimes| > 0
    requires !(s.PurchaseBook? || s.Discount? || s.GiftWrap? || s.CardCheck?)
    decreases Flag(st), Rank(s), 1, 0
    ensures Probabilities.NoOptionalCalls(env.probs) && AllOnSpine(st.visited) ==>
      AllOnSpine(Common(env, s, st).visited)
  {
    OptionalsRank(s);
    OptionalsGuarded(s);
    NextRank(s);
    NextSpine(s);
    OptionalsQuiet(env, Optionals(s), Rank(s), st);
    var st1 := VisitOptionals(env, Optionals(s), Rank(s), st);
    if Next(s).Some? {
      VisitQuiet(env, Next(s).value, st1);
    }
  }

  lemma {:induction false} PartnerQuiet(env: Env, partner: Server, st: State)
    requires |st.pathTimes| > 0 && (partner.Discount? || partner.GiftWrap?)
    decreases Flag(st), 0, 1, 0
    ensures Probabilities.NoOptionalCalls(env.probs) ==> Partner(env, partner, st).visited == st.visited
  {
    if Probabilities.NoOptionalCalls(env.probs) {
      assert Probabilities.IsOptional(Probabilities.DiscountGiftWrap);
    }
  }

  lemma {:induction false} OptionalsQuiet(env: Env, opts: seq<Optional>, bound: nat, st: State)
    requires |st.pathTimes| > 0
    requires forall i :: 0 <= i < |opts| ==> Rank(opts[i].target) < bound
    decreases Flag(st), bound, 0, |opts|
    ensures Probabilities.NoOptionalCalls(env.probs) &&
            (forall i :: 0 <= i < |opts| ==> Probabilities.IsOptional(opts[i].chance)) ==>
            VisitOptionals(env, opts, bound, st).visited == st.visited
  {
    if opts != [] {
      var rest := opts[1..];
      assert forall i :: 0 <= i < |rest| ==> rest[i] == opts[i + 1];
      OptionalsQuiet(env, rest, bound, Skip(st));
    }
  }
}
