/** The parent rule of the call graph: the second-hand market and AI chatbot handlers are only
    ever entered as the first optional call of their one parent, so in every path they come
    right after it. */
module Parents {
  import Probabilities
  import opened Topology
  import opened Draws
  import opened Hops
  import opened Trace
  import opened Traversal

  lemma {:induction false} VisitParents(env: Env, s: Server, st: State)
    requires |st.pathTimes| > 0
    decreases Flag(st), Rank(s), 3, 0
    ensures ParentOk(st.visited) && CallOk(st.visited, s) ==> ParentOk(Visit(env, s, st).visited)
  {
    var st1 := Enter(env.tape, env.names, s, st);
    if ParentOk(st.visited) && CallOk(st.visited, s) {
      ParentOkSnoc(st.visited, s);
    }
    CallsParents(env, s, st1);
  }

  lemma {:induction false} CallsParents(env: Env, s: Server, st: State)
    requires |st.pathTimes| > 0
    decreases Flag(st), Rank(s), 2, 0
    ensures ParentOk(st.visited) && |st.visited| > 0 && st.visited[|st.visited| - 1] == s ==>
      ParentOk(Calls(env, s, st).visited)
  {
    match s
    case PurchaseBook => PurchaseParents(env, st);
    case Discount => PartnerParents(env, GiftWrap, st);
    case GiftWrap => PartnerParents(env, Discount, st);
    case CardCheck => CardParents(env, st);
    case _ => CommonParents(env, s, st);
  }

  lemma {:induction false} PurchaseParents(env: Env, st: State)
    requires |st.pathTimes| > 0
    decreases Flag(st), Rank(PurchaseBook), 1, 0
    ensures ParentOk(st.visited) ==> ParentOk(Purchase(env, st).visited)
  {
    if ParentOk(st.visited) {
      var discount := Below(env.tape, st.drawn, env.probs(Probabilities.Discount));
      var st1 := Skip(st);
      assert st1.visited == st.visited;
      if discount {
        VisitParents(env, Discount, st1);
      }
      var st2 := if discount then Visit(env, Discount, st1) else st1;
      PurchaseRestParents(env, discount, st2);
    }
  }

  lemma {:induction false} PurchaseRestParents(env: Env, discount: bool, st: State)
    requires |st.pathTimes| > 0
    decreases Flag(st), Rank(PurchaseBook), 0, 0
    ensures ParentOk(st.visited) ==> ParentOk(PurchaseRest(env, discount, st).visited)
  {
    if ParentOk(st.visited) {
      var gift := Below(env.tape, st.drawn, env.probs(Probabilities.GiftWrap));
      var st1 := Skip(st).(loop := st.loop || (gift && discount));
      var st2 := if gift && !st1.loop then Visit(env, GiftWrap, st1) else st1;
      if gift && !st1.loop {
        VisitParents(env, GiftWrap, st1);
      }
      VisitParents(env, BookAvailability, st2);
    }
  }

  lemma {:induction false} CardParents(env: Env, st: State)
    requires |st.pathTimes| > 0
    decreases Flag(st), Rank(CardCheck), 1, 0
    ensures ParentOk(st.visited) ==> ParentOk(Card(env, st).visited)
  {
    var card := CardChoice(env, st.drawn);
    var st1 := if card == Visa then Skip(st) else Skip(Skip(st));
    assert st1.visited == st.visited && IsCard(card);
    VisitParents(env, card, st1);
  }

  lemma {:induction false} CommonParents(env: Env, s: Server, st: State)
    requires |st.pathTimes| > 0
    requires !(s.PurchaseBook? || s.Discount? || s.GiftWrap? || s.CardCheck?)
    decreases Flag(st), Rank(s), 1, 0
    ensures ParentOk(st.visited) && |st.visited| > 0 && st.visited[|st.visited| - 1] == s ==>
      ParentOk(Common(env, s, st).visited)
  {
    OptionalsRank(s);
    NextRank(s);
    NextSpine(s);
    var opts := Optionals(s);
    if |st.visited| > 0 && st.visited[|st.visited| - 1] == s {
      OptionalsFollowParent(s, st.visited);
    }
    OptionalCallsParents(env, opts, Rank(s), st);
    var st1 := VisitOptionals(env, opts, Rank(s), st);
    if Next(s).Some? {
      VisitParents(env, Next(s).value, st1);
    }
  }

  /** After entering `s`, its optional calls respect the parent rule. */
  lemma OptionalsFollowParent(s: Server, v: seq<Server>)
    requires |v| > 0 && v[|v| - 1] == s
    ensures OptionalsOk(v, Optionals(s))
  {
    OptionalsParents(s);
  }

  lemma {:induction false} PartnerParents(env: Env, partner: Server, st: State)
    requires |st.pathTimes| > 0 && (partner.Discount? || partner.GiftWrap?)
    decreases Flag(st), 0, 1, 0
    ensures ParentOk(st.visited) ==> ParentOk(Partner(env, partner, st).visited)
  {
    if !st.loop && Below(env.tape, st.drawn, env.probs(Probabilities.DiscountGiftWrap)) {
      VisitParents(env, partner, Skip(st).(loop := true));
    }
  }

  lemma {:induction false} OptionalCallsParents(env: Env, opts: seq<Optional>, bound: nat, st: State)
    requires |st.pathTimes| > 0
    requires forall i :: 0 <= i < |opts| ==> Rank(opts[i].target) < bound
    decreases Flag(st), bound, 0, |opts|
    ensures ParentOk(st.visited) && OptionalsOk(st.visited, opts) ==>
      ParentOk(VisitOptionals(env, opts, bound, st).visited)
  {
    if opts != [] {
      var st1 := Skip(st);
      var fired := Below(env.tape, st.drawn, env.probs(opts[0].chance));
      if fired {
        VisitParents(env, opts[0].target, st1);
      }
      var st2 := if fired then Visit(env, opts[0].target, st1) else st1;
      var rest := opts[1..];
      assert forall i :: 0 <= i < |rest| ==> rest[i] == opts[i + 1];
      OptionalCallsParents(env, rest, bound, st2);
    }
  }
}
