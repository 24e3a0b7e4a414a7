/** `simulate_process`: the nested node handlers, threading the transaction state. */
module Traversal {
  import opened Text
  import Probabilities
  import opened Topology
  import opened Draws
  import opened Hops

  /** What the handlers read but never change: the random tape, the probability table and the
      name each handler logs itself under (`LogName` in the source). */
  datatype Env = Env(tape: Tape, probs: Probabilities.Table, names: Server -> Name)

  /** The first component of the termination measure: the discount/gift-wrap flag, once set,
      is never cleared. */
  function Flag(st: State): nat {
    if st.loop then 0 else 1
  }

  /** `r` continues `st`: the same transaction with more visits, entries and clock values, the
      flag never cleared, `total_delay` untouched, and a well-formed path kept well-formed. */
  predicate Grows(st: State, r: State) {
    && Prefixed(st, r)
    && r.totalDelay == st.totalDelay && (st.loop ==> r.loop)
    && |r.pathTimes| > 0
    && (WellFormed(st) ==> WellFormed(r))
  }

  lemma GrowsTrans(a: State, b: State, c: State)
    requires Grows(a, b) && Grows(b, c)
    ensures Grows(a, c)
  {
    assert c.visited[..|a.visited|] == c.visited[..|b.visited|][..|a.visited|];
    assert c.log[..|a.log|] == c.log[..|b.log|][..|a.log|];
    assert c.pathTimes[..|a.pathTimes|] == c.pathTimes[..|b.pathTimes|][..|a.pathTimes|];
  }

  /** One draw of `random.random()` that changes nothing else. */
  function Skip(st: State): (r: State)
    requires |st.pathTimes| > 0
    ensures Grows(st, r) && r.loop == st.loop
  {
    st.(drawn := st.drawn + 1)
  }

  /** The handler for `s`: its own hop, then its calls. */
  function Visit(env: Env, s: Server, st: State): (r: State)
    requires |st.pathTimes| > 0
    decreases Flag(st), Rank(s), 3, 0
    ensures Grows(st, r) && |st.visited| < |r.visited| && r.visited[|st.visited|] == s
  {
    var st1 := Enter(env.tape, env.names, s, st);
    assert Grows(st, st1);
    var r := Calls(env, s, st1);
    GrowsTrans(st, st1, r);
    assert r.visited[|st.visited|] == st1.visited[|st.visited|];
    r
  }

  /** What a handler does after its hop. */
  function Calls(env: Env, s: Server, st: State): (r: State)
    requires |st.pathTimes| > 0
    decreases Flag(st), Rank(s), 2, 0
    ensures Grows(st, r)
  {
    match s
    case PurchaseBook => Purchase(env, st)
    case Discount => Partner(env, GiftWrap, st)
    case GiftWrap => Partner(env, Discount, st)
    case CardCheck => Card(env, st)
    case _ => Common(env, s, st)
  }

  /** The purchase handler after its hop: the discount is tried first. */
  function Purchase(env: Env, st: State): (r: State)
    requires |st.pathTimes| > 0
    decreases Flag(st), Rank(PurchaseBook), 1, 0
    ensures Grows(st, r)
  {
    var discount := Below(env.tape, st.drawn, env.probs(Probabilities.Discount));
    var st1 := Skip(st);
    var st2 := if discount then Visit(env, Discount, st1) else st1;
    var r := PurchaseRest(env, discount, st2);
    GrowsTrans(st, st1, st2);
    GrowsTrans(st, st2, r);
    r
  }

  /** The rest of the purchase handler, knowing whether the discount was applied: the gift
      wrap is tried, and after a discount it only sets the flag; then the book-availability
      handler. */
  function PurchaseRest(env: Env, discount: bool, st: State): (r: State)
    requires |st.pathTimes| > 0
    decreases Flag(st), Rank(PurchaseBook), 0, 0
    ensures Grows(st, r)
  {
    var gift := Below(env.tape, st.drawn, env.probs(Probabilities.GiftWrap));
    var st1 := Skip(st).(loop := st.loop || (gift && discount));
    var st2 := if gift && !st1.loop then Visit(env, GiftWrap, st1) else st1;
    var r := Visit(env, BookAvailability, st2);
    GrowsTrans(st, st1, st2);
    GrowsTrans(st, st2, r);
    r
  }

  /** The card-check handler after its hop: Visa on the first draw, otherwise a fresh draw
      against the Visa plus American Express threshold chooses American Express, else
      Mastercard. */
  function Card(env: Env, st: State): (r: State)
    requires |st.pathTimes| > 0
    decreases Flag(st), Rank(CardCheck), 1, 0
    ensures Grows(st, r)
  {
    var card := CardChoice(env, st.drawn);
    var st1 := if card == Visa then Skip(st) else Skip(Skip(st));
    var r := Visit(env, card, st1);
    GrowsTrans(st, st1, r);
    r
  }

  /** The card `card_check` picks with the draws from position `k`. */
  function CardChoice(env: Env, k: nat): (card: Server)
    ensures IsCard(card)
  {
    if Below(env.tape, k, env.probs(Probabilities.Visa)) then Visa
    else if Below(env.tape, k + 1, env.probs(Probabilities.Visa) + env.probs(Probabilities.AExpress))
    then AmericanExpress
    else Mastercard
  }

  /** With the shipped probability table every card network is chosen by some tape: Visa when
      the first draw is under 60, American Express when it is not and the second draw is under
      90, Mastercard otherwise. */
  lemma ShippedCards(k: nat)
    ensures exists tape: Tape :: CardChoice(Env(tape, Probabilities.Source, LogName), k) == Visa
    ensures exists tape: Tape :: CardChoice(Env(tape, Probabilities.Source, LogName), k) == AmericanExpress
    ensures exists tape: Tape :: CardChoice(Env(tape, Probabilities.Source, LogName), k) == Mastercard
  {
    var visa: Tape := _ => 0;
    var amex: Tape := i => if i == k then 99 else 0;
    var mastercard: Tape := _ => 99;
    assert CardChoice(Env(visa, Probabilities.Source, LogName), k) == Visa;
    assert CardChoice(Env(amex, Probabilities.Source, LogName), k) == AmericanExpress;
    assert CardChoice(Env(mastercard, Probabilities.Source, LogName), k) == Mastercard;
  }

  /** The other handlers after their hop: the optional calls in order, then the mandatory
      call if there is one. */
  function Common(env: Env, s: Server, st: State): (r: State)
    requires |st.pathTimes| > 0
    requires !(s.PurchaseBook? || s.Discount? || s.GiftWrap? || s.CardCheck?)
    decreases Flag(st), Rank(s), 1, 0
    ensures Grows(st, r)
  {
    OptionalsRank(s);
    NextRank(s);
    var st1 := VisitOptionals(env, Optionals(s), Rank(s), st);
    if Next(s).Some? then
      var r := Visit(env, Next(s).value, st1);
      GrowsTrans(st, st1, r);
      r
    else st1
  }

  /** The tail of the discount and gift-wrap handlers: unless the flag is set, draw, and on
      success set the flag and call the partner handler. */
  function Partner(env: Env, partner: Server, st: State): (r: State)
    requires |st.pathTimes| > 0 && (partner.Discount? || partner.GiftWrap?)
    decreases Flag(st), 0, 1, 0
    ensures Grows(st, r)
  {
    if st.loop then st
    else if Below(env.tape, st.drawn, env.probs(Probabilities.DiscountGiftWrap)) then
      var st1 := Skip(st).(loop := true);
      var r := Visit(env, partner, st1);
      GrowsTrans(st, st1, r);
      r
    else Skip(st)
  }

  /** The optional calls of a handler, in order: each draws once and calls its target on
      success. */
  function VisitOptionals(env: Env, opts: seq<Optional>, bound: nat, st: State): (r: State)
    requires |st.pathTimes| > 0
    requires forall i :: 0 <= i < |opts| ==> Rank(opts[i].target) < bound
    decreases Flag(st), bound, 0, |opts|
    ensures Grows(st, r)
  {
    if opts == [] then st
    else
      var st1 := Skip(st);
      var st2 := if Below(env.tape, st.drawn, env.probs(opts[0].chance)) then Visit(env, opts[0].target, st1) else st1;
      var r := VisitOptionals(env, opts[1..], bound, st2);
      GrowsTrans(st, st1, st2);
      GrowsTrans(st, st2, r);
      r
  }

  /** The state `simulate_process` starts from: the zero-padded id, an empty path and one
      clock value drawn from [0, 1000]. */
  function Init(env: Env, uid: nat): (st: State)
    ensures WellFormed(st) && st.log == [] && st.visited == []
    ensures |st.pathTimes| == 1 && 0 <= st.pathTimes[0] <= 1000
    ensures st.id == FormatId(uid) && !st.loop && st.totalDelay == 0
  {
    State(FormatId(uid), [], [RandInt(env.tape, 0, 0, 1000)], 0, false, 1, [])
  }

  /** One transaction: the user interface handler run from the initial state. */
  function Run(env: Env, uid: nat): State {
    Visit(env, Ui, Init(env, uid))
  }

  /** One transaction of `simulate_process`, with the source's handler names. */
  function Simulate(tape: Tape, probs: Probabilities.Table, uid: nat): State {
    Run(Env(tape, probs, LogName), uid)
  }
}
