/** `simulate_process` as the source runs it: one mutable `state` dict, changed in place by
    `server_process` and by the handlers that set the discount/gift-wrap flag. Every method is
    proved to leave the state that the threaded specification in `Traversal` computes. */
module Process {
  import opened Text
  import Probabilities
  import Delays
  import opened Topology
  import opened Draws
  import opened Log
  import opened Hops
  import Traversal

  class Transaction {
    /** The tape, the probability table and the handler names. */
    const env: Traversal.Env
    /** The `state` dict; its `drawn` field is the position of the next draw on the tape. */
    var state: State

    /** The initial state: the zero-padded id, an empty path and a first clock value drawn
        from [0, 1000]. */
    constructor(env: Traversal.Env, uid: nat)
      ensures this.env == env && state == Traversal.Init(env, uid)
    {
      this.env := env;
      state := State(FormatId(uid), [], [], 0, false, 0, []);
      new;
      var start := NextInt(0, 1000);
      state := state.(pathTimes := [start]);
    }

    /** `random.randint(a, b)`. */
    method NextInt(a: int, b: int) returns (r: int)
      requires a <= b
      modifies this
      ensures r == RandInt(env.tape, old(state.drawn), a, b)
      ensures state == old(state).(drawn := old(state.drawn) + 1)
    {
      r := a + env.tape(state.drawn) % (b - a + 1);
      state := state.(drawn := state.drawn + 1);
    }

    /** `random.random() < p`. */
    method NextChance(p: nat) returns (fired: bool)
      modifies this
      ensures fired == Below(env.tape, old(state.drawn), p)
      ensures state == old(state).(drawn := old(state.drawn) + 1)
    {
      fired := env.tape(state.drawn) % Probabilities.Scale < p;
      state := state.(drawn := state.drawn + 1);
    }

    /** `server_process(state, name, delay, n)`: draw the delay and the replica, then append
        the Request, the Response and the next clock value. */
    method ServerProcess(name: Name, delay: Delays.DelayClass, n: nat)
      requires |state.pathTimes| > 0 && n >= 1
      modifies this
      ensures state == Hop(env.tape, old(state), name, delay, n)
    {
      ghost var st := state;
      var prevTime := state.pathTimes[|state.pathTimes| - 1];
      var newTime, newServer := DrawHop(name, delay, n);
      var prevServer := PrevServer(state.log);
      state := state.(log := state.log + [Entry(prevServer, newServer, prevTime, Request, state.id),
                                          Entry(newServer, prevServer, newTime, Response, state.id)],
                      pathTimes := state.pathTimes + [newTime + 1]);
      HopOfDraws(env.tape, st, name, delay, n, newTime, newServer);
    }

    /** The draws of `server_process`: the delay, and with more than one replica a jitter and
        a replica number; the Response time and the replica's label. */
    method DrawHop(name: Name, delay: Delays.DelayClass, n: nat) returns (newTime: int, newServer: string)
      requires |state.pathTimes| > 0 && n >= 1
      modifies this
      ensures newTime == old(state.pathTimes[|state.pathTimes| - 1]) + HopDelay(env.tape, old(state.drawn), delay, n)
      ensures newServer == Label(name, HopReplica(env.tape, old(state.drawn) + 2, n))
      ensures state == old(state).(drawn := old(state.drawn) + HopDraws(n))
    {
      var prevTime := state.pathTimes[|state.pathTimes| - 1];
      if n != 1 {
        var base := NextInt(Delays.Range(delay).0, Delays.Range(delay).1);
        var jitter := NextInt(1, 2);
        newTime := prevTime + (base + jitter * (n / 4));
        var number := NextInt(1, n);
        newServer := Label(name, number);
      } else {
        var base := NextInt(Delays.Range(delay).0, Delays.Range(delay).1);
        newTime := prevTime + base;
        newServer := Label(name, 1);
      }
    }

    /** The first line of handler `s`: its hop, under the name it logs itself with. */
    method Enter(s: Server)
      requires |state.pathTimes| > 0
      modifies this
      ensures state == Hops.Enter(env.tape, env.names, s, old(state))
    {
      state := state.(visited := state.visited + [s]);
      ServerProcess(env.names(s), DelayOf(s), Replicas(s));
    }

    /** The handler for `s`. */
    method Visit(s: Server)
      requires |state.pathTimes| > 0
      modifies this
      decreases Traversal.Flag(state), Rank(s), 3, 0
      ensures state == Traversal.Visit(env, s, old(state))
    {
      Enter(s);
      Calls(s);
    }

    /** What handler `s` does after its hop. */
    method Calls(s: Server)
      requires |state.pathTimes| > 0
      modifies this
      decreases Traversal.Flag(state), Rank(s), 2, 0
      ensures state == Traversal.Calls(env, s, old(state))
    {
      match s
      case PurchaseBook => Purchase();
      case Discount => Partner(GiftWrap);
      case GiftWrap => Partner(Discount);
      case CardCheck => Card();
      case _ => Common(s);
    }

    /** `purchase_book_server` after its hop: the discount is tried first. */
    method Purchase()
      requires |state.pathTimes| > 0
      modifies this
      decreases Traversal.Flag(state), Rank(PurchaseBook), 1, 0
      ensures state == Traversal.Purchase(env, old(state))
    {
      ghost var st := state;
      var discount := NextChance(env.probs(Probabilities.Discount));
      ghost var st1 := Traversal.Skip(st);
      assert state == st1;
      if discount {
        Visit(Discount);
      }
      assert state == if discount then Traversal.Visit(env, Discount, st1) else st1;
      PurchaseRest(discount);
    }

    /** The rest of `purchase_book_server`: after a discount the gift wrap only sets the flag;
        then the book-availability handler. */
    method PurchaseRest(discount: bool)
      requires |state.pathTimes| > 0
      modifies this
      decreases Traversal.Flag(state), Rank(PurchaseBook), 0, 0
      ensures state == Traversal.PurchaseRest(env, discount, old(state))
    {
      ghost var st := state;
      var gift := NextChance(env.probs(Probabilities.GiftWrap));
      if gift && discount {
        state := state.(loop := true);
      }
      ghost var st1 := Traversal.Skip(st).(loop := st.loop || (gift && discount));
      assert state == st1;
      if gift && !state.loop {
        Visit(GiftWrap);
      }
      assert state == if gift && !st1.loop then Traversal.Visit(env, GiftWrap, st1) else st1;
      Visit(BookAvailability);
    }

    /** `card_check` after its hop: Visa on the first draw, else a fresh draw against the Visa
        plus American Express threshold, else Mastercard. */
    method Card()
      requires |state.pathTimes| > 0
      modifies this
      decreases Traversal.Flag(state), Rank(CardCheck), 1, 0
      ensures state == Traversal.Card(env, old(state))
    {
      ghost var st := state;
      var visa := NextChance(env.probs(Probabilities.Visa));
      if visa {
        assert Traversal.CardChoice(env, st.drawn) == Visa && state == Traversal.Skip(st);
        Visit(Visa);
      } else {
        var amex := NextChance(env.probs(Probabilities.Visa) + env.probs(Probabilities.AExpress));
        assert state == Traversal.Skip(Traversal.Skip(st));
        if amex {
          assert Traversal.CardChoice(env, st.drawn) == AmericanExpress;
          Visit(AmericanExpress);
        } else {
          assert Traversal.CardChoice(env, st.drawn) == Mastercard;
          Visit(Mastercard);
        }
      }
    }

    /** Every other handler after its hop: its optional calls, then its mandatory call. */
    method Common(s: Server)
      requires |state.pathTimes| > 0
      requires !(s.PurchaseBook? || s.Discount? || s.GiftWrap? || s.CardCheck?)
      modifies this
      decreases Traversal.Flag(state), Rank(s), 1, 0
      ensures state == Traversal.Common(env, s, old(state))
    {
      OptionalsRank(s);
      NextRank(s);
      VisitOptionals(Optionals(s), Rank(s));
      if Next(s).Some? {
        Visit(Next(s).value);
      }
    }

    /** The tail of `discount_server` and `gift_wrap_server`: unless the flag is set, draw, and
        on success set the flag and call the partner. */
    method Partner(partner: Server)
      requires |state.pathTimes| > 0 && (partner.Discount? || partner.GiftWrap?)
      modifies this
      decreases Traversal.Flag(state), 0, 1, 0
      ensures state == Traversal.Partner(env, partner, old(state))
    {
      ghost var st := state;
      if !state.loop {
        var fired := NextChance(env.probs(Probabilities.DiscountGiftWrap));
        if fired {
          state := state.(loop := true);
          assert state == Traversal.Skip(st).(loop := true);
          Visit(partner);
        } else {
          assert state == Traversal.Skip(st);
        }
      }
    }

    /** The optional calls of a handler, in order: one draw each, and the call on success. */
    method VisitOptionals(opts: seq<Optional>, bound: nat)
      requires |state.pathTimes| > 0
      requires forall i :: 0 <= i < |opts| ==> Rank(opts[i].target) < bound
      modifies this
      decreases Traversal.Flag(state), bound, 0, |opts|
      ensures state == Traversal.VisitOptionals(env, opts, bound, old(state))
    {
      if opts != [] {
        ghost var st := state;
        var fired := NextChance(env.probs(opts[0].chance));
        ghost var st1 := Traversal.Skip(st);
        assert state == st1;
        if fired {
          Visit(opts[0].target);
        }
        assert state == if fired then Traversal.Visit(env, opts[0].target, st1) else st1;
        VisitOptionals(opts[1..], bound);
      }
    }
  }

  /** `simulate_process(data_id, unique_id)`: run the user-interface handler from a fresh
      state and return the path. */
  method SimulateProcess(env: Traversal.Env, uid: nat) returns (path: seq<string>)
    ensures path == Render(Traversal.Run(env, uid).log)
  {
    var t := new Transaction(env, uid);
    t.Visit(Ui);
    path := Render(t.state.log);
  }
}
