/**
  The stores of homework08_lifesim: loaders add stock, buyers take it, each store behind a mutex.
  Every access to a store is its own step, so the mutexes are what keeps the goods together.
 */
module LifeSim {
  import opened Sums

  /** LOADER_INCREMENT, CUSTOMER_NEED and DEF_STORE_CAP. */
  datatype Config = Config(increment: nat, customerNeed: nat, storeCap: nat)

  datatype Holder = Nobody | HeldByLoader(l: nat) | HeldByBuyer(b: nat)

  datatype Store = Store(stock: nat, mutex: Holder)

  /** Where a loader stands in its loop over the stores. */
  datatype Loader =
    | Trying(i: nat)               // before pthread_mutex_trylock
    | Reading(i: nat)              // inside, before reading the stock
    | Writing(i: nat, seen: nat)   // before writing seen + LOADER_INCREMENT
    | Unloading(i: nat)            // before the unlock

  /** Where a buyer stands. */
  datatype Place =
    | Outside                        // at the while test
    | Visiting(i: nat)               // before pthread_mutex_lock
    | Inside(i: nat)                 // inside, before looking at the stock
    | Emptying(i: nat, amount: nat)  // need is already reduced by amount, the stock not yet
    | Paying(i: nat, amount: nat)    // the stock is already reduced by amount, need not yet
    | Leaving(i: nat)                // before the unlock
    | Home

  datatype Buyer = Buyer(need: nat, place: Place)

  datatype Market = Market(stores: seq<Store>, loaders: seq<Loader>, buyers: seq<Buyer>, loads: nat)

  datatype Event = Load(l: nat) | Buy(b: nat)

  function Init(cfg: Config, storesNum: nat, loadersNum: nat, customersNum: nat): Market {
    Market(seq(storesNum, i => Store(cfg.storeCap, Nobody)), seq(loadersNum, i => Trying(0)),
           seq(customersNum, i => Buyer(cfg.customerNeed, Outside)), 0)
  }

  function Next(cfg: Config, m: Market, e: Event): Market {
    match e
    case Load(l) => if l < |m.loaders| then LoaderNext(cfg, m, l) else m
    case Buy(b) => if b < |m.buyers| then BuyerNext(m, b) else m
  }

  function LoaderNext(cfg: Config, m: Market, l: nat): Market
    requires l < |m.loaders|
  {
    var i := m.loaders[l].i;
    if i >= |m.stores| then m.(loaders := m.loaders[l := Trying(0)])
    else
      var st := m.stores[i];
      match m.loaders[l]
      case Trying(_) =>
        if st.mutex == Nobody
        then LoaderAt(m, l, Reading(i), i, Store(st.stock, HeldByLoader(l)))
        else LoaderAt(m, l, Trying(i + 1), i, st)
      case Reading(_) => LoaderAt(m, l, Writing(i, st.stock), i, st)
      case Writing(_, seen) =>
        LoaderAt(m, l, Unloading(i), i, Store(seen + cfg.increment, st.mutex)).(loads := m.loads + 1)
      case Unloading(_) => LoaderAt(m, l, Trying(i + 1), i, Store(st.stock, Nobody))
  }

  function LoaderAt(m: Market, l: nat, loader: Loader, i: nat, store: Store): Market
    requires l < |m.loaders| && i < |m.stores|
  {
    m.(loaders := m.loaders[l := loader], stores := m.stores[i := store])
  }

  function BuyerNext(m: Market, b: nat): Market
    requires b < |m.buyers|
  {
    var need := m.buyers[b].need;
    match m.buyers[b].place
    case Outside => m.(buyers := m.buyers[b := Buyer(need, if need > 0 then Visiting(0) else Home)])
    case Home => m
    case _ =>
      var i := m.buyers[b].place.i;
      if i >= |m.stores| then m.(buyers := m.buyers[b := Buyer(need, Outside)])
      else BuyerAtStore(m, b, need, i, m.stores[i])
  }

  function BuyerAtStore(m: Market, b: nat, need: nat, i: nat, st: Store): Market
    requires b < |m.buyers| && i < |m.stores|
  {
    match m.buyers[b].place
    case Visiting(_) =>
      if st.mutex == Nobody then BuyerAt(m, b, Buyer(need, Inside(i)), i, Store(st.stock, HeldByBuyer(b))) else m
    case Inside(_) =>
      if st.stock == 0 then BuyerAt(m, b, Buyer(need, Leaving(i)), i, st)
      else if need > st.stock then BuyerAt(m, b, Buyer(need - st.stock, Emptying(i, st.stock)), i, st)
      else BuyerAt(m, b, Buyer(need, Paying(i, need)), i, Store(st.stock - need, st.mutex))
    case Emptying(_, _) => BuyerAt(m, b, Buyer(need, Leaving(i)), i, Store(0, st.mutex))
    case Paying(_, _) => BuyerAt(m, b, Buyer(0, Leaving(i)), i, st)
    case Leaving(_) => BuyerAt(m, b, Buyer(need, Visiting(i + 1)), i, Store(st.stock, Nobody))
    case _ => m
  }

  function BuyerAt(m: Market, b: nat, buyer: Buyer, i: nat, store: Store): Market
    requires b < |m.buyers| && i < |m.stores|
  {
    m.(buyers := m.buyers[b := buyer], stores := m.stores[i := store])
  }

  function Run(cfg: Config, m: Market, es: seq<Event>): Market
    decreases |es|
  {
    if es == [] then m else Run(cfg, Next(cfg, m, es[0]), es[1..])
  }

  // ----- Accounting -----

  function Stock(st: Store): int { st.stock }

  /** What a buyer still has to buy. */
  function Outstanding(b: Buyer): int { b.need - if b.place.Paying? then b.place.amount else 0 }

  /** What a buyer has yet to take out of the stores: more than Outstanding while emptying one. */
  function Uncollected(b: Buyer): int { Outstanding(b) + if b.place.Emptying? then b.place.amount else 0 }

  /** The goods are all in the stores or bought. */
  ghost predicate Conserved(cfg: Config, m: Market, initial: int) {
    Total(m.stores, Stock) + cfg.customerNeed * |m.buyers| == initial + cfg.increment * m.loads + Total(m.buyers, Uncollected)
  }

  predicate BuyerHolds(b: Buyer, i: nat) { Shopping(b) && b.place.i == i }

  predicate Shopping(b: Buyer) { b.place.Inside? || b.place.Emptying? || b.place.Paying? || b.place.Leaving? }

  predicate LoaderHolds(l: Loader, i: nat) { !l.Trying? && l.i == i }

  predicate LoaderOk(m: Market, l: nat)
    requires l < |m.loaders|
  {
    var loader := m.loaders[l];
    !loader.Trying? ==>
      && loader.i < |m.stores| && m.stores[loader.i].mutex == HeldByLoader(l)
      && (loader.Writing? ==> loader.seen == m.stores[loader.i].stock)
  }

  predicate BuyerOk(m: Market, b: nat)
    requires b < |m.buyers|
  {
    var buyer := m.buyers[b];
    && (Shopping(buyer) ==> buyer.place.i < |m.stores| && m.stores[buyer.place.i].mutex == HeldByBuyer(b))
    && (buyer.place.Emptying? ==> buyer.place.amount == m.stores[buyer.place.i].stock)
    && (buyer.place.Paying? ==> buyer.place.amount == buyer.need)
    && (buyer.place.Home? ==> buyer.need == 0)
  }

  /** A thread between its lock and its unlock holds the mutex, and what it has seen of the store is
      still true. */
  ghost predicate MutexesKept(m: Market) {
    && (forall l :: 0 <= l < |m.loaders| ==> LoaderOk(m, l))
    && (forall b :: 0 <= b < |m.buyers| ==> BuyerOk(m, b))
  }

  /** A held mutex has a holder inside the store, who can always take its next step. */
  ghost predicate HoldersInside(m: Market) {
    forall i :: 0 <= i < |m.stores| ==> HolderInside(m, m.stores[i].mutex, i)
  }

  predicate HolderInside(m: Market, h: Holder, i: nat) {
    match h
    case Nobody => true
    case HeldByLoader(l) => l < |m.loaders| && LoaderHolds(m.loaders[l], i)
    case HeldByBuyer(b) => b < |m.buyers| && BuyerHolds(m.buyers[b], i)
  }

  ghost predicate Inv(cfg: Config, m: Market, initial: int) {
    Conserved(cfg, m, initial) && MutexesKept(m) && HoldersInside(m)
  }

  lemma LoaderMutexes(cfg: Config, m: Market, l: nat)
    requires MutexesKept(m) && HoldersInside(m) && l < |m.loaders|
    ensures MutexesKept(LoaderNext(cfg, m, l)) && HoldersInside(LoaderNext(cfg, m, l))
  {
    assert LoaderOk(m, l);
    var m' := LoaderNext(cfg, m, l);
    forall k | 0 <= k < |m'.loaders|
      ensures LoaderOk(m', k)
    {
      assert LoaderOk(m, k);
    }
    forall k | 0 <= k < |m'.buyers|
      ensures BuyerOk(m', k)
    {
      assert BuyerOk(m, k);
    }
  }

  lemma BuyerMutexes(m: Market, b: nat)
    requires MutexesKept(m) && HoldersInside(m) && b < |m.buyers|
    ensures MutexesKept(BuyerNext(m, b)) && HoldersInside(BuyerNext(m, b))
  {
    assert BuyerOk(m, b);
    var m' := BuyerNext(m, b);
    forall k | 0 <= k < |m'.loaders|
      ensures LoaderOk(m', k)
    {
      assert LoaderOk(m, k);
    }
    forall k | 0 <= k < |m'.buyers|
      ensures BuyerOk(m', k)
    {
      assert BuyerOk(m, k);
    }
  }

  lemma LoaderConserves(cfg: Config, m: Market, l: nat, initial: int)
    requires Conserved(cfg, m, initial) && l < |m.loaders| && LoaderOk(m, l)
    ensures Conserved(cfg, LoaderNext(cfg, m, l), initial)
  {
    var i := m.loaders[l].i;
    if i < |m.stores| {
      var m' := LoaderNext(cfg, m, l);
      TotalUpdate(m.stores, i, m'.stores[i], Stock);
      assert m'.buyers == m.buyers && m'.stores == m.stores[i := m'.stores[i]];
      assert Stock(m'.stores[i]) - Stock(m.stores[i]) == cfg.increment * (m'.loads - m.loads);
      assert cfg.increment * (m'.loads - m.loads) == cfg.increment * m'.loads - cfg.increment * m.loads;
    }
  }

  lemma BuyerConserves(cfg: Config, m: Market, b: nat, initial: int)
    requires Conserved(cfg, m, initial) && b < |m.buyers| && BuyerOk(m, b)
    ensures Conserved(cfg, BuyerNext(m, b), initial)
  {
    var m' := BuyerNext(m, b);
    TotalUpdate(m.buyers, b, m'.buyers[b], Uncollected);
    var p := m.buyers[b].place;
    if !p.Outside? && !p.Home? && p.i < |m.stores| {
      TotalUpdate(m.stores, p.i, m'.stores[p.i], Stock);
    }
  }

  lemma EventInv(cfg: Config, m: Market, e: Event, initial: int)
    requires Inv(cfg, m, initial)
    ensures Inv(cfg, Next(cfg, m, e), initial)
  {
    match e {
      case Load(l) =>
        if l < |m.loaders| {
          LoaderMutexes(cfg, m, l);
          LoaderConserves(cfg, m, l, initial);
        }
      case Buy(b) =>
        if b < |m.buyers| {
          BuyerMutexes(m, b);
          BuyerConserves(cfg, m, b, initial);
        }
    }
  }

  lemma {:induction false} RunInv(cfg: Config, m: Market, es: seq<Event>, initial: int)
    requires Inv(cfg, m, initial)
    ensures Inv(cfg, Run(cfg, m, es), initial)
    decreases |es|
  {
    if es != [] {
      EventInv(cfg, m, es[0], initial);
      RunInv(cfg, Next(cfg, m, es[0]), es[1..], initial);
    }
  }

  lemma InitInv(cfg: Config, storesNum: nat, loadersNum: nat, customersNum: nat)
    ensures Inv(cfg, Init(cfg, storesNum, loadersNum, customersNum), cfg.storeCap * storesNum)
  {
    var m := Init(cfg, storesNum, loadersNum, customersNum);
    TotalWithin(m.stores, Stock, cfg.storeCap, cfg.storeCap);
    TotalWithin(m.buyers, Uncollected, cfg.customerNeed, cfg.customerNeed);
    assert cfg.increment * 0 == 0;
    assert forall l :: 0 <= l < |m.loaders| ==> m.loaders[l] == Trying(0);
    assert forall b :: 0 <= b < |m.buyers| ==> m.buyers[b].place == Outside;
  }

  lemma {:induction false} SizesKept(cfg: Config, m: Market, es: seq<Event>)
    ensures var m' := Run(cfg, m, es);
            |m'.stores| == |m.stores| && |m'.loaders| == |m.loaders| && |m'.buyers| == |m.buyers|
    decreases |es|
  {
    if es != [] { SizesKept(cfg, Next(cfg, m, es[0]), es[1..]); }
  }

  // ----- What holds over every run -----

  /** Stock + goods bought = initial stock + goods loaded, in every reachable state; a buyer who is
      emptying a store has not collected the goods yet. */
  lemma GoodsConserved(cfg: Config, storesNum: nat, loadersNum: nat, customersNum: nat, es: seq<Event>)
    ensures var m := Run(cfg, Init(cfg, storesNum, loadersNum, customersNum), es);
            Total(m.stores, Stock) + (cfg.customerNeed * customersNum - Total(m.buyers, Uncollected))
            == cfg.storeCap * storesNum + cfg.increment * m.loads
  {
    var m0 := Init(cfg, storesNum, loadersNum, customersNum);
    InitInv(cfg, storesNum, loadersNum, customersNum);
    RunInv(cfg, m0, es, cfg.storeCap * storesNum);
    SizesKept(cfg, m0, es);
  }

  /** When every customer has joined, the loads cover the total need minus the initial stock, and what
      was loaded on top of that is still in the stores. */
  lemma LoadsCoverNeed(cfg: Config, storesNum: nat, loadersNum: nat, customersNum: nat, es: seq<Event>)
    requires var m := Run(cfg, Init(cfg, storesNum, loadersNum, customersNum), es);
             forall b :: 0 <= b < |m.buyers| ==> m.buyers[b].place == Home
    ensures var m := Run(cfg, Init(cfg, storesNum, loadersNum, customersNum), es);
            && cfg.increment * m.loads >= cfg.customerNeed * customersNum - cfg.storeCap * storesNum
            && Total(m.stores, Stock)
               == cfg.increment * m.loads + cfg.storeCap * storesNum - cfg.customerNeed * customersNum
  {
    var m := Run(cfg, Init(cfg, storesNum, loadersNum, customersNum), es);
    InitInv(cfg, storesNum, loadersNum, customersNum);
    RunInv(cfg, Init(cfg, storesNum, loadersNum, customersNum), es, cfg.storeCap * storesNum);
    GoodsConserved(cfg, storesNum, loadersNum, customersNum, es);
    forall v | v in m.buyers
      ensures Uncollected(v) == 0
    {
      var b :| 0 <= b < |m.buyers| && m.buyers[b] == v;
      assert BuyerOk(m, b);
    }
    TotalWithin(m.buyers, Uncollected, 0, 0);
    TotalNonNegative(m.stores, Stock);
  }

  /** What the next step of an event buys: min(need, stock) when a buyer looks at a store's stock. */
  function Purchase(m: Market, e: Event): nat {
    if e.Buy? && e.b < |m.buyers| && m.buyers[e.b].place.Inside? && m.buyers[e.b].place.i < |m.stores| then
      var need, stock := m.buyers[e.b].need, m.stores[m.buyers[e.b].place.i].stock;
      if need > stock then stock else need
    else 0
  }

  predicate InNeedAtStock(m: Market, e: Event) {
    && e.Buy? && e.b < |m.buyers| && m.buyers[e.b].place.Inside? && m.buyers[e.b].need > 0
    && m.buyers[e.b].place.i < |m.stores| && m.stores[m.buyers[e.b].place.i].stock > 0
  }

  /** Every purchase lowers the outstanding need by what it buys, and nothing else changes it: the total
      need is a decreasing measure, and a buyer in need at a stocked store always buys something. */
  lemma NeedDecreases(cfg: Config, m: Market, e: Event)
    requires MutexesKept(m)
    ensures Total(Next(cfg, m, e).buyers, Outstanding) == Total(m.buyers, Outstanding) - Purchase(m, e)
    ensures InNeedAtStock(m, e) ==> Purchase(m, e) > 0
  {
    if e.Buy? && e.b < |m.buyers| {
      assert BuyerOk(m, e.b);
      TotalUpdate(m.buyers, e.b, BuyerNext(m, e.b).buyers[e.b], Outstanding);
    }
  }

  lemma {:induction false} NeedFalls(cfg: Config, m: Market, es: seq<Event>, initial: int)
    requires Inv(cfg, m, initial)
    ensures 0 <= Total(Run(cfg, m, es).buyers, Outstanding) <= Total(m.buyers, Outstanding)
    decreases |es|
  {
    if es == [] {
      forall v | v in m.buyers
        ensures Outstanding(v) >= 0
      {
        var b :| 0 <= b < |m.buyers| && m.buyers[b] == v;
        assert BuyerOk(m, b);
      }
      TotalNonNegative(m.buyers, Outstanding);
    } else {
      NeedDecreases(cfg, m, es[0]);
      EventInv(cfg, m, es[0], initial);
      NeedFalls(cfg, Next(cfg, m, es[0]), es[1..], initial);
    }
  }

  /** The outstanding need is never negative, and however a run goes on, it never grows again. */
  lemma NeedNeverGrows(cfg: Config, storesNum: nat, loadersNum: nat, customersNum: nat, es: seq<Event>, more: seq<Event>)
    ensures var m := Run(cfg, Init(cfg, storesNum, loadersNum, customersNum), es);
            0 <= Total(Run(cfg, m, more).buyers, Outstanding) <= Total(m.buyers, Outstanding)
  {
    InitInv(cfg, storesNum, loadersNum, customersNum);
    RunInv(cfg, Init(cfg, storesNum, loadersNum, customersNum), es, cfg.storeCap * storesNum);
    NeedFalls(cfg, Run(cfg, Init(cfg, storesNum, loadersNum, customersNum), es), more, cfg.storeCap * storesNum);
  }

  /** Whoever holds a store's mutex can take its next step, so a buyer at a locked store waits for a thread
      that can move: no deadlock on the mutexes. */
  lemma HolderCanMove(cfg: Config, storesNum: nat, loadersNum: nat, customersNum: nat, es: seq<Event>, i: nat)
    returns (e: Event)
    requires var m := Run(cfg, Init(cfg, storesNum, loadersNum, customersNum), es);
             i < |m.stores| && m.stores[i].mutex != Nobody
    ensures var m := Run(cfg, Init(cfg, storesNum, loadersNum, customersNum), es);
            && e == (match m.stores[i].mutex case HeldByLoader(l) => Load(l) case HeldByBuyer(b) => Buy(b))
            && Next(cfg, m, e) != m
  {
    var m := Run(cfg, Init(cfg, storesNum, loadersNum, customersNum), es);
    InitInv(cfg, storesNum, loadersNum, customersNum);
    RunInv(cfg, Init(cfg, storesNum, loadersNum, customersNum), es, cfg.storeCap * storesNum);
    match m.stores[i].mutex {
      case HeldByLoader(l) =>
        e := Load(l);
        assert LoaderNext(cfg, m, l).loaders[l] != m.loaders[l];
      case HeldByBuyer(b) =>
        e := Buy(b);
        assert BuyerNext(m, b).buyers[b] != m.buyers[b];
    }
  }

  // ----- The program -----

  /** The global array of stores and the threads that walk over it. */
  class Simulation {
    const cfg: Config
    var stores: seq<Store>
    var loaders: seq<Loader>
    var buyers: seq<Buyer>
    ghost var loads: nat

    ghost function State(): Market
      reads this
    {
      Market(stores, loaders, buyers, loads)
    }

    constructor (cfg: Config, storesNum: nat, loadersNum: nat, customersNum: nat)
      ensures this.cfg == cfg && State() == Init(cfg, storesNum, loadersNum, customersNum)
      ensures Inv(cfg, State(), cfg.storeCap * storesNum)
    {
      InitInv(cfg, storesNum, loadersNum, customersNum);
      this.cfg := cfg;
      stores := seq(storesNum, i => Store(cfg.storeCap, Nobody));
      loaders := seq(loadersNum, i => Trying(0));
      buyers := seq(customersNum, i => Buyer(cfg.customerNeed, Outside));
      loads := 0;
    }

    method LoaderStep(l: nat)
      requires l < |loaders|
      modifies this
      ensures State() == Next(cfg, old(State()), Load(l))
    {
      var i := loaders[l].i;
      if i >= |stores| {
        loaders := loaders[l := Trying(0)];
        return;
      }
      match loaders[l] {
        case Trying(_) =>
          if stores[i].mutex == Nobody {
            stores := stores[i := stores[i].(mutex := HeldByLoader(l))];
            loaders := loaders[l := Reading(i)];
          } else {
            loaders := loaders[l := Trying(i + 1)];
          }
        case Reading(_) =>
          loaders := loaders[l := Writing(i, stores[i].stock)];
        case Writing(_, seen) =>
          stores := stores[i := stores[i].(stock := seen + cfg.increment)];
          loads := loads + 1;
          loaders := loaders[l := Unloading(i)];
        case Unloading(_) =>
          stores := stores[i := stores[i].(mutex := Nobody)];
          loaders := loaders[l := Trying(i + 1)];
      }
    }

    method BuyerStep(b: nat)
      requires b < |buyers|
      modifies this
      ensures State() == Next(cfg, old(State()), Buy(b))
    {
      var need, place := buyers[b].need, buyers[b].place;
      if place.Home? { return; }
      if place.Outside? {
        buyers := buyers[b := Buyer(need, if need > 0 then Visiting(0) else Home)];
        return;
      }
      var i := place.i;
      if i >= |stores| {
        buyers := buyers[b := Buyer(need, Outside)];
        return;
      }
      match place {
        case Visiting(_) =>
          if stores[i].mutex == Nobody {
            stores := stores[i := stores[i].(mutex := HeldByBuyer(b))];
            buyers := buyers[b := Buyer(need, Inside(i))];
          }
        case Inside(_) =>
          if stores[i].stock == 0 {
            buyers := buyers[b := Buyer(need, Leaving(i))];
          } else if need > stores[i].stock {
            buyers := buyers[b := Buyer(need - stores[i].stock, Emptying(i, stores[i].stock))];
          } else {
            stores := stores[i := stores[i].(stock := stores[i].stock - need)];
            buyers := buyers[b := Buyer(need, Paying(i, need))];
          }
        case Emptying(_, _) =>
          stores := stores[i := stores[i].(stock := 0)];
          buyers := buyers[b := Buyer(need, Leaving(i))];
        case Paying(_, _) =>
          buyers := buyers[b := Buyer(0, Leaving(i))];
        case Leaving(_) =>
          stores := stores[i := stores[i].(mutex := Nobody)];
          buyers := buyers[b := Buyer(need, Visiting(i + 1))];
      }
    }

    method Perform(e: Event, ghost initial: int)
      requires Inv(cfg, State(), initial)
      modifies this
      ensures State() == Next(cfg, old(State()), e) && Inv(cfg, State(), initial)
    {
      EventInv(cfg, State(), e, initial);
      match e {
        case Load(l) => if l < |loaders| { LoaderStep(l); }
        case Buy(b) => if b < |buyers| { BuyerStep(b); }
      }
    }

    /** Whatever the schedule, the goods in the stores and the goods collected are the goods of the start and
        the goods loaded. */
    method Execute(es: seq<Event>, ghost initial: int)
      requires Inv(cfg, State(), initial)
      modifies this
      ensures State() == Run(cfg, old(State()), es) && Inv(cfg, State(), initial)
      ensures Total(stores, Stock) + (cfg.customerNeed * |buyers| - Total(buyers, Uncollected))
              == initial + cfg.increment * loads
    {
      for k := 0 to |es|
        invariant Run(cfg, State(), es[k..]) == Run(cfg, old(State()), es) && Inv(cfg, State(), initial)
      {
        Perform(es[k], initial);
      }
    }
  }
}
