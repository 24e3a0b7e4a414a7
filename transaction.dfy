/** What every transaction of `simulate_process` looks like, for every tape, every probability
    table and every naming of the handlers. */
module Transaction {
  import Probabilities
  import opened Text
  import opened Topology
  import opened Log
  import opened Hops
  import opened Trace
  import opened Traversal
  import Walk
  import Pairs
  import Parents
  import Quiet
  import Names

  /** The path is well formed hop by hop, every Request goes to a replica of the handler
      entered, the id is the zero-padded unique id, `total_delay` stays 0, and the first entry
      is a Request from "user" at the initial clock value, which lies in [0, 1000]. */
  lemma RunPath(env: Env, uid: nat)
    ensures WellFormed(Run(env, uid)) && NamesOk(env.names, Run(env, uid))
    ensures Run(env, uid).id == FormatId(uid) && Run(env, uid).totalDelay == 0
    ensures |Run(env, uid).log| >= 2
    ensures Run(env, uid).log[0].kind == Request && Run(env, uid).log[0].src == "user"
    ensures 0 <= Run(env, uid).log[0].time <= 1000
  {
    var st := Init(env, uid);
    var r := Run(env, uid);
    Names.VisitNames(env, Ui, st);
    assert HopOk(r, 0);
    assert r.pathTimes[0] == r.pathTimes[..1][0] == st.pathTimes[0];
  }

  /** The times of a transaction's entries strictly increase along its path. */
  lemma RunTimesIncrease(env: Env, uid: nat, i: nat, j: nat)
    requires i < j < |Run(env, uid).log|
    ensures Run(env, uid).log[i].time < Run(env, uid).log[j].time
  {
    RunPath(env, uid);
    TimesIncrease(Run(env, uid), i, j);
  }

  /** The spine handlers of a transaction are the twelve of the mandatory spine, in order,
      through one card. */
  lemma RunSpine(env: Env, uid: nat)
    ensures var w := SpineVisits(Run(env, uid).visited);
      |w| == 12 && IsCard(w[5]) && w == Spine(w[5])
  {
    Walk.VisitWalk(env, Ui, Init(env, uid));
    WholeSpine(Run(env, uid).visited);
  }

  /** The card check is entered once and enters exactly one card handler, and currency
      conversion is entered exactly once. */
  lemma RunOneCard(env: Env, uid: nat)
    ensures var v := Run(env, uid).visited;
      multiset(v)[CardCheck] == 1 && multiset(v)[CurrencyConversion] == 1
    ensures var v := Run(env, uid).visited;
      multiset(v)[Visa] + multiset(v)[AmericanExpress] + multiset(v)[Mastercard] == 1
  {
    Walk.VisitWalk(env, Ui, Init(env, uid));
    OneCard(Run(env, uid).visited, SpinePos(Ui));
  }

  /** The discount and gift-wrap handlers are entered at most twice in all. */
  lemma RunPairs(env: Env, uid: nat)
    ensures DiscountGiftWraps(Run(env, uid).visited) <= 2
  {
    Pairs.VisitPairs(env, Ui, Init(env, uid));
  }

  /** The second-hand market handler is only entered right after the external inventory
      handler, and the AI chatbot handler only right after the premium customer check. */
  lemma RunParents(env: Env, uid: nat)
    ensures var v := Run(env, uid).visited;
      forall k :: 0 <= k < |v| && v[k] == SecondHandMarket ==> k > 0 && v[k - 1] == ExternalInventory
    ensures var v := Run(env, uid).visited;
      forall k :: 0 <= k < |v| && v[k] == AiChatbot ==> k > 0 && v[k - 1] == PremiumCustomerCheck
  {
    Parents.VisitParents(env, Ui, Init(env, uid));
    var v := Run(env, uid).visited;
    assert ParentOk(v);
    forall k | 0 <= k < |v| && (v[k] == SecondHandMarket || v[k] == AiChatbot)
      ensures k > 0 && ParentOf(v[k - 1], v[k])
    {
      assert FirstChildOnly(v[k]);
    }
  }

  /** When no optional call can fire, a transaction is exactly the spine: twelve handlers and
      twenty-four entries. */
  lemma RunQuiet(env: Env, uid: nat)
    requires Probabilities.NoOptionalCalls(env.probs)
    ensures var v := Run(env, uid).visited;
      |v| == 12 && IsCard(v[5]) && v == Spine(v[5])
    ensures |Run(env, uid).log| == 24
  {
    var v := Run(env, uid).visited;
    Quiet.VisitQuiet(env, Ui, Init(env, uid));
    AllOnSpineVisits(v);
    RunSpine(env, uid);
    RunPath(env, uid);
  }
}
