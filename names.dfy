/** Every Request of a well-formed path goes to a replica of the handler entered: its
    destination is the handler's name, an underscore and a replica number between 1 and the
    handler's replica count. */
module Names {
  import opened Topology
  import opened Draws
  import opened Hops
  import opened Traversal

  lemma {:induction false} VisitNames(env: Env, s: Server, st: State)
    requires |st.pathTimes| > 0
    decreases Flag(st), Rank(s), 3, 0
    ensures WellFormed(st) && NamesOk(env.names, st) ==> NamesOk(env.names, Visit(env, s, st))
  {
    var st1 := Enter(env.tape, env.names, s, st);
    if WellFormed(st) && NamesOk(env.names, st) {
      EnterNames(env.tape, env.names, s, st);
    }
    CallsNames(env, s, st1);
  }

  lemma {:induction false} CallsNames(env: Env, s: Server, st: State)
    requires |st.pathTimes| > 0
    decreases Flag(st), Rank(s), 2, 0
    ensures WellFormed(st) && NamesOk(env.names, st) ==> NamesOk(env.names, Calls(env, s, st))
  {
    match s
    case PurchaseBook => PurchaseNames(env, st);
    case Discount => PartnerNames(env, GiftWrap, st);
    case GiftWrap => PartnerNames(env, Discount, st);
    case CardCheck => CardNames(env, st);
    case _ => CommonNames(env, s, st);
  }

  lemma {:induction false} PurchaseNames(env: Env, st: State)
    requires |st.pathTimes| > 0
    decreases Flag(st), Rank(PurchaseBook), 1, 0
    ensures WellFormed(st) && NamesOk(env.names, st) ==> NamesOk(env.names, Purchase(env, st))
  {
    var discount := Below(env.tape, st.drawn, env.probs(Probabilities.Discount));
    var st1 := Skip(st);
    if discount {
      VisitNames(env, Discount, st1);
    }
    var st2 := if discount then Visit(env, Discount, st1) else st1;
    PurchaseRestNames(env, discount, st2);
  }

  lemma {:induction false} PurchaseRestNames(env: Env, discount: bool, st: State)
    requires |st.pathTimes| > 0
    decreases Flag(st), Rank(PurchaseBook), 0, 0
    ensures WellFormed(st) && NamesOk(env.names, st) ==> NamesOk(env.names, PurchaseRest(env, discount, st))
  {
    if WellFormed(st) && NamesOk(env.names, st) {
      var gift := Below(env.tape, st.drawn, env.probs(Probabilities.GiftWrap));
      var st1 := Skip(st).(loop := st.loop || (gift && discount));
      var st2 := if gift && !st1.loop then Visit(env, GiftWrap, st1) else st1;
      if gift && !st1.loop {
        VisitNames(env, GiftWrap, st1);
      }
      VisitNames(env, BookAvailability, st2);
    }
  }

  lemma {:induction false} CardNames(env: Env, st: State)
    requires |st.pathTimes| > 0
    decreases Flag(st), Rank(CardCheck), 1, 0
    ensures WellFormed(st) && NamesOk(env.names, st) ==> NamesOk(env.names, Card(env, st))
  {
    var card := CardChoice(env, st.drawn);
    var st1 := if card == Visa then Skip(st) else Skip(Skip(st));
    assert st1.visited == st.visited && st1.log == st.log && st1.pathTimes == st.pathTimes;
    VisitNames(env, card, st1);
  }

  lemma {:induction false} CommonNames(env: Env, s: Server, st: State)
    requires |st.pathTimes| > 0
    requires !(s.PurchaseBook? || s.Discount? || s.GiftWrap? || s.CardCheck?)
    decreases Flag(st), Rank(s), 1, 0
    ensures WellFormed(st) && NamesOk(env.names, st) ==> NamesOk(env.names, Common(env, s, st))
  {
    OptionalsRank(s);
    NextRank(s);
    OptionalsNames(env, Optionals(s), Rank(s), st);
    var st1 := VisitOptionals(env, Optionals(s), Rank(s), st);
    if Next(s).Some? {
      VisitNames(env, Next(s).value, st1);
    }
  }

  lemma {:induction false} PartnerNames(env: Env, partner: Server, st: State)
    requires |st.pathTimes| > 0 && (partner.Discount? || partner.GiftWrap?)
    decreases Flag(st), 0, 1, 0
    ensures WellFormed(st) && NamesOk(env.names, st) ==> NamesOk(env.names, Partner(env, partner, st))
  {
    if !st.loop && Below(env.tape, st.drawn, env.probs(Probabilities.DiscountGiftWrap)) {
      VisitNames(env, partner, Skip(st).(loop := true));
    }
  }

  lemma {:induction false} OptionalsNames(env: Env, opts: seq<Optional>, bound: nat, st: State)
    requires |st.pathTimes| > 0
    requires forall i :: 0 <= i < |opts| ==> Rank(opts[i].target) < bound
    decreases Flag(st), bound, 0, |opts|
    ensures WellFormed(st) && NamesOk(env.names, st) ==>
      NamesOk(env.names, VisitOptionals(env, opts, bound, st))
  {
    if opts != [] {
      var st1 := Skip(st);
      var fired := Below(env.tape, st.drawn, env.probs(opts[0].chance));
      if fired {
        VisitNames(env, opts[0].target, st1);
      }
      var st2 := if fired then Visit(env, opts[0].target, st1) else st1;
      var rest := opts[1..];
      assert forall i :: 0 <= i < |rest| ==> rest[i] == opts[i + 1];
      OptionalsNames(env, rest, bound, st2);
    }
  }
}
