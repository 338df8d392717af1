/**
  Where the threads of homework08_lifesim get: what one round over the stores does, who waits for whom, and
  from which markets everybody gets home.
 */
module LifeSimRuns {
  import opened Sums
  import opened LifeSim

  // ----- What a buyer's round does -----

  predicate AllFree(m: Market) { forall i :: 0 <= i < |m.stores| ==> m.stores[i].mutex == Nobody }

  predicate OnlyBuys(es: seq<Event>, b: nat) { forall e :: e in es ==> e == Buy(b) }

  function Least(a: nat, b: nat): nat { if a < b then a else b }

  /** Every store gives what it has, as long as there is need. */
  function Sold(stores: seq<Store>, need: nat): seq<Store> {
    if stores == [] then []
    else
      var amount := Least(need, stores[0].stock);
      [Store(stores[0].stock - amount, stores[0].mutex)] + Sold(stores[1..], need - amount)
  }

  /** The need that is left then. */
  function Unmet(stores: seq<Store>, need: nat): nat {
    if stores == [] then need else Unmet(stores[1..], need - Least(need, stores[0].stock))
  }

  /** The market after a buyer has gone on from store i to the end. */
  function BuyerDone(m: Market, b: nat, i: nat): Market
    requires b < |m.buyers| && i <= |m.stores|
  {
    var need := m.buyers[b].need;
    m.(stores := m.stores[..i] + Sold(m.stores[i..], need), buyers := m.buyers[b := Buyer(Unmet(m.stores[i..], need), Outside)])
  }

  /** With the mutexes free a buyer in need goes round all the stores by its own steps and is back outside. */
  lemma BuyerRound(cfg: Config, m: Market, b: nat) returns (es: seq<Event>)
    requires AllFree(m) && b < |m.buyers| && m.buyers[b].place == Outside && m.buyers[b].need > 0
    ensures OnlyBuys(es, b)
    ensures var need := m.buyers[b].need;
            Run(cfg, m, es) == m.(stores := Sold(m.stores, need), buyers := m.buyers[b := Buyer(Unmet(m.stores, need), Outside)])
  {
    var need := m.buyers[b].need;
    var m' := m.(buyers := m.buyers[b := Buyer(need, Visiting(0))]);
    assert BuyerNext(m, b) == m';
    es := VisitFrom(cfg, m', b, 0);
    assert m'.stores[..0] + Sold(m'.stores[0..], need) == Sold(m.stores, need) by { assert m.stores[0..] == m.stores; }
    assert m'.buyers[b := Buyer(Unmet(m.stores, need), Outside)] == m.buyers[b := Buyer(Unmet(m.stores, need), Outside)];
    es := FirstThen(cfg, m, Buy(b), es);
  }

  /** The round meets the need as far as the stock goes, and takes from the stores what it meets. */
  lemma {:induction false} RoundMeetsNeed(stores: seq<Store>, need: nat)
    ensures var total := Total(stores, Stock);
            && total >= 0
            && Unmet(stores, need) == (if need > total then need - total else 0)
            && Total(Sold(stores, need), Stock) == total - (need - Unmet(stores, need))
  {
    if stores != [] {
      var amount := Least(need, stores[0].stock);
      RoundMeetsNeed(stores[1..], need - amount);
      TotalTail(stores, Stock);
      TotalTail(Sold(stores, need), Stock);
      assert Sold(stores, need)[1..] == Sold(stores[1..], need - amount);
    }
  }

  /** Nothing is put into a store, and the mutexes are as before. */
  lemma {:induction false} SoldAtMost(stores: seq<Store>, need: nat)
    ensures var sold := Sold(stores, need);
            && |sold| == |stores|
            && forall j :: 0 <= j < |stores| ==> sold[j].stock <= stores[j].stock && sold[j].mutex == stores[j].mutex
  {
    if stores != [] {
      var amount := Least(need, stores[0].stock);
      var sold, rest := Sold(stores, need), Sold(stores[1..], need - amount);
      SoldAtMost(stores[1..], need - amount);
      assert forall j :: 1 <= j < |stores| ==> sold[j] == rest[j - 1] && stores[j] == stores[1..][j - 1];
    }
  }

  /** Every store before one that is used is emptied. */
  lemma {:induction false} EmptiedInOrder(stores: seq<Store>, need: nat, i: nat, j: nat)
    requires i < j < |stores| && |Sold(stores, need)| == |stores| && Sold(stores, need)[j].stock < stores[j].stock
    ensures Sold(stores, need)[i].stock == 0
  {
    var amount := Least(need, stores[0].stock);
    var rest := Sold(stores[1..], need - amount);
    assert Sold(stores, need)[j] == rest[j - 1] && stores[j] == stores[1..][j - 1];
    if i > 0 {
      EmptiedInOrder(stores[1..], need - amount, i - 1, j - 1);
      assert Sold(stores, need)[i] == rest[i - 1];
    } else if need <= stores[0].stock {
      NoNeedNothingSold(stores[1..]);
    }
  }

  lemma {:induction false} NoNeedNothingSold(stores: seq<Store>)
    ensures Sold(stores, 0) == stores
  {
    if stores != [] { NoNeedNothingSold(stores[1..]); }
  }

  // ----- What a loader's round does -----

  predicate OnlyLoads(es: seq<Event>, l: nat) { forall e :: e in es ==> e == Load(l) }

  /** Every store whose mutex is free gets a load, the others are passed over. */
  function Loaded(cfg: Config, stores: seq<Store>): seq<Store> {
    seq(|stores|, i requires 0 <= i < |stores| =>
      if stores[i].mutex == Nobody then Store(stores[i].stock + cfg.increment, Nobody) else stores[i])
  }

  function FreeCount(stores: seq<Store>): nat {
    if stores == [] then 0 else (if stores[0].mutex == Nobody then 1 else 0) + FreeCount(stores[1..])
  }

  /** The market after a loader has gone on from store i to the end. */
  function LoaderDone(cfg: Config, m: Market, l: nat, i: nat): Market
    requires l < |m.loaders| && i <= |m.stores|
  {
    m.(stores := m.stores[..i] + Loaded(cfg, m.stores[i..]), loaders := m.loaders[l := Trying(0)],
       loads := m.loads + FreeCount(m.stores[i..]))
  }

  /** A loader goes on over the stores from store i and is back at the first one by its own steps, whoever holds
      which mutex. */
  lemma LoaderRound(cfg: Config, m: Market, l: nat, i: nat) returns (es: seq<Event>)
    requires l < |m.loaders| && m.loaders[l] == Trying(i) && i <= |m.stores|
    ensures OnlyLoads(es, l)
    ensures Run(cfg, m, es) == LoaderDone(cfg, m, l, i)
  {
    es := LoadFrom(cfg, m, l, i);
  }

  // ----- Who waits -----

  /** A loader never waits. */
  lemma LoaderNeverWaits(cfg: Config, m: Market, l: nat)
    requires l < |m.loaders| && m.stores != []
    ensures Next(cfg, m, Load(l)) != m
  {
    assert Next(cfg, m, Load(l)).loaders[l] != m.loaders[l];
  }

  /** A buyer waits exactly at a store whose mutex is held, and stays home exactly when it is there. */
  lemma BuyerWaitsExactly(cfg: Config, m: Market, b: nat)
    requires b < |m.buyers|
    ensures var p := m.buyers[b].place;
            Next(cfg, m, Buy(b)) == m
            <==> p.Home? || (p.Visiting? && p.i < |m.stores| && m.stores[p.i].mutex != Nobody)
  {
    assert Next(cfg, m, Buy(b)) == m ==> BuyerNext(m, b).buyers[b] == m.buyers[b];
  }

  // ----- When everybody gets home -----

  predicate AllHome(m: Market) { forall b :: 0 <= b < |m.buyers| ==> m.buyers[b].place == Home }

  ghost predicate CanGoHome(cfg: Config, m: Market) { exists es :: AllHome(Run(cfg, m, es)) }

  /** From a reachable market some run brings everybody home if and only if the stores hold what the buyers have
      yet to collect, or somebody can load more. */
  lemma EverybodyHomeExactly(cfg: Config, storesNum: nat, loadersNum: nat, customersNum: nat, es: seq<Event>)
    ensures var m := Run(cfg, Init(cfg, storesNum, loadersNum, customersNum), es);
            CanGoHome(cfg, m)
            <==> Total(m.stores, Stock) >= Total(m.buyers, Uncollected) || (loadersNum > 0 && storesNum > 0 && cfg.increment > 0)
  {
    var m := Run(cfg, Init(cfg, storesNum, loadersNum, customersNum), es);
    var initial := cfg.storeCap * storesNum;
    InitInv(cfg, storesNum, loadersNum, customersNum);
    RunInv(cfg, Init(cfg, storesNum, loadersNum, customersNum), es, initial);
    SizesKept(cfg, Init(cfg, storesNum, loadersNum, customersNum), es);
    if Slack(m) >= 0 || (loadersNum > 0 && storesNum > 0 && cfg.increment > 0) {
      var more := BringHome(cfg, m, initial);
      assert AllHome(Run(cfg, m, more));
    } else {
      forall more
        ensures !AllHome(Run(cfg, m, more))
      {
        NotEnough(cfg, m, initial, more);
      }
    }
  }

  // ----- One step, then more -----

  lemma FirstThen(cfg: Config, m: Market, e: Event, more: seq<Event>) returns (es: seq<Event>)
    ensures Run(cfg, m, es) == Run(cfg, Next(cfg, m, e), more)
    ensures forall x :: x in es ==> x == e || x in more
  {
    es := [e] + more;
    assert es[1..] == more;
  }

  lemma {:induction false} RunConcat(cfg: Config, m: Market, a: seq<Event>, b: seq<Event>)
    ensures Run(cfg, m, a + b) == Run(cfg, Run(cfg, m, a), b)
    decreases |a|
  {
    if a == [] {
      assert a + b == b;
    } else {
      assert (a + b)[1..] == a[1..] + b;
      RunConcat(cfg, Next(cfg, m, a[0]), a[1..], b);
    }
  }

  // ----- A buyer's steps -----

  /** At one store: in, what there is of the need, out. */
  lemma OneStore(cfg: Config, m: Market, b: nat, i: nat) returns (es: seq<Event>)
    requires b < |m.buyers| && i < |m.stores| && m.buyers[b].place == Visiting(i) && m.stores[i].mutex == Nobody
    ensures OnlyBuys(es, b)
    ensures var need, stock := m.buyers[b].need, m.stores[i].stock;
            var amount := Least(need, stock);
            Run(cfg, m, es)
            == m.(stores := m.stores[i := Store(stock - amount, Nobody)], buyers := m.buyers[b := Buyer(need - amount, Visiting(i + 1))])
  {
    var need, stock := m.buyers[b].need, m.stores[i].stock;
    var m1 := BuyerAt(m, b, Buyer(need, Inside(i)), i, Store(stock, HeldByBuyer(b)));
    es := InsideOut(cfg, m1, b, i);
    es := FirstThen(cfg, m, Buy(b), es);
    assert BuyerNext(m, b) == m1;
  }

  lemma InsideOut(cfg: Config, m: Market, b: nat, i: nat) returns (es: seq<Event>)
    requires b < |m.buyers| && i < |m.stores| && m.buyers[b].place == Inside(i)
    ensures OnlyBuys(es, b)
    ensures var need, stock := m.buyers[b].need, m.stores[i].stock;
            var amount := Least(need, stock);
            Run(cfg, m, es) == BuyerAt(m, b, Buyer(need - amount, Visiting(i + 1)), i, Store(stock - amount, Nobody))
  {
    var need, stock, mutex := m.buyers[b].need, m.stores[i].stock, m.stores[i].mutex;
    var amount := Least(need, stock);
    var m3 := BuyerAt(m, b, Buyer(need - amount, Leaving(i)), i, Store(stock - amount, mutex));
    es := FirstThen(cfg, m3, Buy(b), []);
    assert BuyerNext(m3, b) == BuyerAt(m, b, Buyer(need - amount, Visiting(i + 1)), i, Store(stock - amount, Nobody));
    if stock == 0 {
      assert BuyerNext(m, b) == m3;
    } else {
      var m2 := BuyerNext(m, b);
      assert BuyerNext(m2, b) == m3;
      es := FirstThen(cfg, m2, Buy(b), es);
    }
    es := FirstThen(cfg, m, Buy(b), es);
  }

  lemma {:induction false} VisitFrom(cfg: Config, m: Market, b: nat, i: nat) returns (es: seq<Event>)
    requires AllFree(m) && b < |m.buyers| && i <= |m.stores| && m.buyers[b].place == Visiting(i)
    ensures OnlyBuys(es, b)
    ensures Run(cfg, m, es) == BuyerDone(m, b, i)
    decreases |m.stores| - i
  {
    if i == |m.stores| {
      es := FirstThen(cfg, m, Buy(b), []);
      assert m.stores[..i] + [] == m.stores;
    } else {
      var first := OneStore(cfg, m, b, i);
      var rest := VisitFrom(cfg, Run(cfg, m, first), b, i + 1);
      RunConcat(cfg, m, first, rest);
      es := first + rest;
      BoughtAfterOne(m, Run(cfg, m, first), b, i);
    }
  }

  lemma BoughtAfterOne(m: Market, m': Market, b: nat, i: nat)
    requires b < |m.buyers| && i < |m.stores| && m.stores[i].mutex == Nobody
    requires var need, stock := m.buyers[b].need, m.stores[i].stock;
             var amount := Least(need, stock);
             m' == m.(stores := m.stores[i := Store(stock - amount, Nobody)], buyers := m.buyers[b := Buyer(need - amount, Visiting(i + 1))])
    ensures BuyerDone(m', b, i + 1) == BuyerDone(m, b, i)
  {
    var need := m.buyers[b].need;
    AfterOneStore(m.stores, i, need, Least(need, m.stores[i].stock));
    assert m'.buyers[b := Buyer(Unmet(m.stores[i..], need), Outside)] == m.buyers[b := Buyer(Unmet(m.stores[i..], need), Outside)];
  }

  lemma AfterOneStore(stores: seq<Store>, i: nat, need: nat, amount: nat)
    requires i < |stores| && stores[i].mutex == Nobody && amount == Least(need, stores[i].stock)
    ensures var stores' := stores[i := Store(stores[i].stock - amount, Nobody)];
            && stores'[..i + 1] + Sold(stores'[i + 1..], need - amount) == stores[..i] + Sold(stores[i..], need)
            && Unmet(stores'[i + 1..], need - amount) == Unmet(stores[i..], need)
  {
    var stores' := stores[i := Store(stores[i].stock - amount, Nobody)];
    assert stores'[i + 1..] == stores[i..][1..] && stores[i..][0] == stores[i];
    assert stores'[..i + 1] == stores[..i] + [stores'[i]];
  }

  // ----- A loader's steps -----

  lemma LoadOne(cfg: Config, m: Market, l: nat, i: nat) returns (es: seq<Event>)
    requires l < |m.loaders| && i < |m.stores| && m.loaders[l] == Trying(i) && m.stores[i].mutex == Nobody
    ensures OnlyLoads(es, l)
    ensures Run(cfg, m, es) == OneLoaded(cfg, m, l, i)
  {
    var stock := m.stores[i].stock;
    var m1 := LoaderAt(m, l, Reading(i), i, Store(stock, HeldByLoader(l)));
    assert LoaderNext(cfg, m, l) == m1;
    es := LoadInside(cfg, m1, l, i);
    es := FirstThen(cfg, m, Load(l), es);
    assert OneLoaded(cfg, m1, l, i) == OneLoaded(cfg, m, l, i);
  }

  function OneLoaded(cfg: Config, m: Market, l: nat, i: nat): Market
    requires l < |m.loaders| && i < |m.stores|
  {
    m.(stores := m.stores[i := Store(m.stores[i].stock + cfg.increment, Nobody)], loaders := m.loaders[l := Trying(i + 1)],
       loads := m.loads + 1)
  }

  lemma LoadInside(cfg: Config, m: Market, l: nat, i: nat) returns (es: seq<Event>)
    requires l < |m.loaders| && i < |m.stores| && m.loaders[l] == Reading(i)
    ensures OnlyLoads(es, l)
    ensures Run(cfg, m, es) == OneLoaded(cfg, m, l, i)
  {
    var stock, mutex := m.stores[i].stock, m.stores[i].mutex;
    var m2 := m.(loaders := m.loaders[l := Writing(i, stock)]);
    assert m.stores[i := m.stores[i]] == m.stores && LoaderNext(cfg, m, l) == m2;
    var m3 := m.(loaders := m.loaders[l := Unloading(i)], stores := m.stores[i := Store(stock + cfg.increment, mutex)], loads := m.loads + 1);
    assert LoaderNext(cfg, m2, l) == m3;
    assert LoaderNext(cfg, m3, l) == OneLoaded(cfg, m, l, i);
    es := FirstThen(cfg, m3, Load(l), []);
    es := FirstThen(cfg, m2, Load(l), es);
    es := FirstThen(cfg, m, Load(l), es);
  }

  lemma {:induction false} LoadFrom(cfg: Config, m: Market, l: nat, i: nat) returns (es: seq<Event>)
    requires l < |m.loaders| && m.loaders[l] == Trying(i) && i <= |m.stores|
    ensures OnlyLoads(es, l)
    ensures Run(cfg, m, es) == LoaderDone(cfg, m, l, i)
    decreases |m.stores| - i
  {
    if i == |m.stores| {
      es := FirstThen(cfg, m, Load(l), []);
      assert m.stores[..i] + [] == m.stores;
    } else {
      var first: seq<Event>;
      if m.stores[i].mutex == Nobody {
        first := LoadOne(cfg, m, l, i);
      } else {
        first := FirstThen(cfg, m, Load(l), []);
        assert m.stores[i := m.stores[i]] == m.stores;
      }
      var m' := Run(cfg, m, first);
      var rest := LoadFrom(cfg, m', l, i + 1);
      RunConcat(cfg, m, first, rest);
      es := first + rest;
      DoneAfterOne(cfg, m, m', l, i);
    }
  }

  lemma DoneAfterOne(cfg: Config, m: Market, m': Market, l: nat, i: nat)
    requires l < |m.loaders| && i < |m.stores|
    requires m' == if m.stores[i].mutex == Nobody then OneLoaded(cfg, m, l, i) else m.(loaders := m.loaders[l := Trying(i + 1)])
    ensures LoaderDone(cfg, m', l, i + 1) == LoaderDone(cfg, m, l, i)
  {
    AfterOneLoad(cfg, m.stores, i);
    assert m.stores[i := m.stores[i]] == m.stores;
    assert m'.stores == m.stores[i := Loaded(cfg, m.stores)[i]];
    assert m'.loaders[l := Trying(0)] == m.loaders[l := Trying(0)];
  }

  lemma AfterOneLoad(cfg: Config, stores: seq<Store>, i: nat)
    requires i < |stores|
    ensures var st := Loaded(cfg, stores)[i];
            var stores' := stores[i := st];
            && stores'[..i + 1] + Loaded(cfg, stores'[i + 1..]) == stores[..i] + Loaded(cfg, stores[i..])
            && (if stores[i].mutex == Nobody then 1 else 0) + FreeCount(stores'[i + 1..]) == FreeCount(stores[i..])
  {
    assert stores[i..][1..] == stores[i := Loaded(cfg, stores)[i]][i + 1..];
  }

  // ----- Getting home -----

  /** What the stores hold beyond what the buyers have yet to collect. */
  function Slack(m: Market): int { Total(m.stores, Stock) - Total(m.buyers, Uncollected) }

  lemma {:induction false} LoadsGrow(cfg: Config, m: Market, es: seq<Event>)
    ensures Run(cfg, m, es).loads >= m.loads
    ensures m.loaders == [] || m.stores == [] ==> Run(cfg, m, es).loads == m.loads
    decreases |es|
  {
    if es != [] {
      var m' := Next(cfg, m, es[0]);
      assert |m'.loaders| == |m.loaders| && |m'.stores| == |m.stores|;
      LoadsGrow(cfg, m', es[1..]);
    }
  }

  /** Only loads change the slack. */
  lemma SlackOf(cfg: Config, m: Market, initial: int, es: seq<Event>)
    requires Inv(cfg, m, initial)
    ensures var m' := Run(cfg, m, es);
            Inv(cfg, m', initial) && Slack(m') - Slack(m) == cfg.increment * (m'.loads - m.loads) && Slack(m') >= Slack(m)
  {
    var m' := Run(cfg, m, es);
    RunInv(cfg, m, es, initial);
    SizesKept(cfg, m, es);
    LoadsGrow(cfg, m, es);
    Distribute(cfg.increment, m'.loads, m.loads);
  }

  lemma Distribute(a: nat, b: nat, c: nat)
    ensures a * (b - c) == a * b - a * c && (b >= c ==> a * (b - c) >= 0)
  {
  }

  /** Without a possible load nobody gets home who has more to collect than there is. */
  lemma NotEnough(cfg: Config, m: Market, initial: int, es: seq<Event>)
    requires Inv(cfg, m, initial) && Slack(m) < 0 && (m.loaders == [] || m.stores == [] || cfg.increment == 0)
    ensures !AllHome(Run(cfg, m, es))
  {
    NoMoreSlack(cfg, m, initial, es);
    if AllHome(Run(cfg, m, es)) {
      HomeCollected(Run(cfg, m, es));
    }
  }

  lemma NoMoreSlack(cfg: Config, m: Market, initial: int, es: seq<Event>)
    requires Inv(cfg, m, initial) && (m.loaders == [] || m.stores == [] || cfg.increment == 0)
    ensures Slack(Run(cfg, m, es)) == Slack(m) && MutexesKept(Run(cfg, m, es))
  {
    SlackOf(cfg, m, initial, es);
    LoadsGrow(cfg, m, es);
    if cfg.increment != 0 {
      assert cfg.increment * (Run(cfg, m, es).loads - m.loads) == cfg.increment * 0;
    }
  }

  lemma HomeCollected(m: Market)
    requires MutexesKept(m) && AllHome(m)
    ensures Slack(m) >= 0
  {
    forall v | v in m.buyers
      ensures Uncollected(v) == 0
    {
      var b :| 0 <= b < |m.buyers| && m.buyers[b] == v;
      assert BuyerOk(m, b);
    }
    TotalWithin(m.buyers, Uncollected, 0, 0);
    TotalNonNegative(m.stores, Stock);
  }

  function HeldUnit(st: Store): int { if st.mutex == Nobody then 0 else 1 }

  /** The steps that the holder of a mutex is from its unlock. */
  function Distance(m: Market, h: Holder): nat {
    match h
    case Nobody => 0
    case HeldByLoader(l) =>
      if l >= |m.loaders| then 0
      else (match m.loaders[l] case Reading(_) => 3 case Writing(_, _) => 2 case _ => 1)
    case HeldByBuyer(b) =>
      if b >= |m.buyers| then 0
      else (match m.buyers[b].place case Inside(_) => 3 case Emptying(_, _) => 2 case Paying(_, _) => 2 case _ => 1)
  }

  function HolderEvent(h: Holder): Event
    requires h != Nobody
  {
    match h
    case HeldByLoader(l) => Load(l)
    case HeldByBuyer(b) => Buy(b)
  }

  /** The holder's step: nearer to the unlock, or the unlock, and no other mutex changes. */
  lemma HolderStep(cfg: Config, m: Market, i: nat)
    requires MutexesKept(m) && HoldersInside(m) && i < |m.stores| && m.stores[i].mutex != Nobody
    ensures var h := m.stores[i].mutex;
            var m' := Next(cfg, m, HolderEvent(h));
            && |m'.stores| == |m.stores|
            && (forall j :: 0 <= j < |m.stores| && j != i ==> m'.stores[j].mutex == m.stores[j].mutex)
            && (m'.stores[i].mutex == Nobody || (m'.stores[i].mutex == h && Distance(m', h) < Distance(m, h)))
  {
    assert HolderInside(m, m.stores[i].mutex, i);
  }

  lemma {:induction false} FreeOne(cfg: Config, m: Market, initial: int, i: nat) returns (es: seq<Event>)
    requires Inv(cfg, m, initial) && i < |m.stores| && m.stores[i].mutex != Nobody
    ensures var m' := Run(cfg, m, es);
            && |m'.stores| == |m.stores| && m'.stores[i].mutex == Nobody
            && (forall j :: 0 <= j < |m.stores| && j != i ==> m'.stores[j].mutex == m.stores[j].mutex)
    decreases Distance(m, m.stores[i].mutex)
  {
    var e := HolderEvent(m.stores[i].mutex);
    var m' := Next(cfg, m, e);
    HolderStep(cfg, m, i);
    EventInv(cfg, m, e, initial);
    es := [];
    if m'.stores[i].mutex != Nobody {
      es := FreeOne(cfg, m', initial, i);
    }
    es := FirstThen(cfg, m, e, es);
  }

  /** One after the other the mutexes below k are freed. */
  lemma {:induction false} FreeAll(cfg: Config, m: Market, initial: int, k: nat) returns (es: seq<Event>)
    requires Inv(cfg, m, initial) && k <= |m.stores| && forall j :: k <= j < |m.stores| ==> m.stores[j].mutex == Nobody
    ensures AllFree(Run(cfg, m, es))
    decreases k
  {
    if k == 0 {
      es := [];
    } else {
      var first := [];
      if m.stores[k - 1].mutex != Nobody { first := FreeOne(cfg, m, initial, k - 1); }
      RunInv(cfg, m, first, initial);
      var rest := FreeAll(cfg, Run(cfg, m, first), initial, k - 1);
      RunConcat(cfg, m, first, rest);
      es := first + rest;
    }
  }

  lemma {:induction false} AllCounted(stores: seq<Store>)
    requires forall i :: 0 <= i < |stores| ==> stores[i].mutex == Nobody
    ensures FreeCount(stores) == |stores|
  {
    if stores != [] { AllCounted(stores[1..]); }
  }

  lemma LoadedFree(cfg: Config, m: Market, l: nat, i: nat)
    requires AllFree(m) && l < |m.loaders| && i <= |m.stores|
    ensures AllFree(LoaderDone(cfg, m, l, i)) && LoaderDone(cfg, m, l, i).loads == m.loads + (|m.stores| - i)
  {
    AllCounted(m.stores[i..]);
  }

  /** Rounds of loader 0 until the stores hold enough. */
  lemma {:induction false} LoadEnough(cfg: Config, m: Market, initial: int) returns (es: seq<Event>)
    requires Inv(cfg, m, initial) && AllFree(m) && m.loaders != [] && m.stores != [] && cfg.increment > 0
    requires m.loaders[0] == Trying(0)
    ensures AllFree(Run(cfg, m, es)) && Slack(Run(cfg, m, es)) >= 0
    decreases 0 - Slack(m)
  {
    if Slack(m) >= 0 {
      es := [];
    } else {
      var first := LoaderRound(cfg, m, 0, 0);
      var m' := Run(cfg, m, first);
      LoadedFree(cfg, m, 0, 0);
      SlackOf(cfg, m, initial, first);
      Positive(cfg.increment, m'.loads - m.loads);
      var rest := LoadEnough(cfg, m', initial);
      RunConcat(cfg, m, first, rest);
      es := first + rest;
    }
  }

  lemma Positive(a: int, b: int)
    requires a > 0 && b > 0
    ensures a * b > 0
  {
  }

  /** With the mutexes free a loader is between two stores. */
  lemma AllFreeLoaders(m: Market, l: nat)
    requires MutexesKept(m) && AllFree(m) && l < |m.loaders|
    ensures m.loaders[l].Trying?
  {
    assert LoaderOk(m, l);
  }

  /** The loader finishes the round it is in. */
  lemma BackToStart(cfg: Config, m: Market, initial: int) returns (es: seq<Event>)
    requires Inv(cfg, m, initial) && AllFree(m) && m.loaders != []
    ensures var m' := Run(cfg, m, es);
            AllFree(m') && |m'.loaders| == |m.loaders| && m'.loaders[0] == Trying(0)
  {
    AllFreeLoaders(m, 0);
    var i := m.loaders[0].i;
    if i <= |m.stores| {
      es := LoaderRound(cfg, m, 0, i);
      LoadedFree(cfg, m, 0, i);
    } else {
      es := FirstThen(cfg, m, Load(0), []);
    }
  }

  /** With the mutexes free a buyer is outside a store and has as much to collect as it needs. */
  lemma AllFreeBuyers(m: Market, b: nat)
    requires MutexesKept(m) && AllFree(m) && b < |m.buyers|
    ensures !Shopping(m.buyers[b]) && Uncollected(m.buyers[b]) == m.buyers[b].need
  {
    assert BuyerOk(m, b);
  }

  lemma NeedIsThere(m: Market, b: nat)
    requires MutexesKept(m) && AllFree(m) && Slack(m) >= 0 && b < |m.buyers|
    ensures m.buyers[b].need <= Total(m.stores, Stock)
  {
    forall v | v in m.buyers
      ensures Uncollected(v) >= 0
    {
      var k :| 0 <= k < |m.buyers| && m.buyers[k] == v;
      AllFreeBuyers(m, k);
    }
    AllFreeBuyers(m, b);
    TotalAtLeast(m.buyers, b, Uncollected);
  }

  /** The buyer is or gets outside. */
  lemma GetOutside(cfg: Config, m: Market, initial: int, b: nat) returns (es: seq<Event>)
    requires Inv(cfg, m, initial) && AllFree(m) && b < |m.buyers| && m.buyers[b].place != Home
    ensures var m' := Run(cfg, m, es);
            && AllFree(m') && |m'.buyers| == |m.buyers| && m'.buyers[b].place == Outside
            && forall k :: 0 <= k < |m.buyers| && k != b ==> m'.buyers[k] == m.buyers[k]
  {
    AllFreeBuyers(m, b);
    var p := m.buyers[b].place;
    if p == Outside {
      es := [];
    } else if p.i > |m.stores| {
      es := FirstThen(cfg, m, Buy(b), []);
    } else {
      es := VisitFrom(cfg, m, b, p.i);
      SoldAtMost(m.stores[p.i..], m.buyers[b].need);
    }
  }

  /** From outside, with enough in the stores, the buyer gets home. */
  lemma GetHome(cfg: Config, m: Market, initial: int, b: nat) returns (es: seq<Event>)
    requires Inv(cfg, m, initial) && AllFree(m) && Slack(m) >= 0 && b < |m.buyers| && m.buyers[b].place == Outside
    ensures var m' := Run(cfg, m, es);
            && AllFree(m') && |m'.buyers| == |m.buyers| && m'.buyers[b].place == Home
            && forall k :: 0 <= k < |m.buyers| && k != b ==> m'.buyers[k] == m.buyers[k]
  {
    if m.buyers[b].need == 0 {
      es := FirstThen(cfg, m, Buy(b), []);
    } else {
      var round := BuyerRound(cfg, m, b);
      NeedIsThere(m, b);
      RoundMeetsNeed(m.stores, m.buyers[b].need);
      SoldAtMost(m.stores, m.buyers[b].need);
      var home := FirstThen(cfg, Run(cfg, m, round), Buy(b), []);
      RunConcat(cfg, m, round, home);
      es := round + home;
    }
  }

  /** One buyer after the other. */
  lemma {:induction false} SendHome(cfg: Config, m: Market, initial: int, b: nat) returns (es: seq<Event>)
    requires Inv(cfg, m, initial) && AllFree(m) && Slack(m) >= 0 && b <= |m.buyers|
    requires forall k :: 0 <= k < b ==> m.buyers[k].place == Home
    ensures AllHome(Run(cfg, m, es))
    decreases |m.buyers| - b
  {
    if b == |m.buyers| {
      es := [];
    } else {
      var first := [];
      if m.buyers[b].place != Home {
        first := OneHome(cfg, m, initial, b);
      }
      SlackOf(cfg, m, initial, first);
      var rest := SendHome(cfg, Run(cfg, m, first), initial, b + 1);
      RunConcat(cfg, m, first, rest);
      es := first + rest;
    }
  }

  lemma OneHome(cfg: Config, m: Market, initial: int, b: nat) returns (es: seq<Event>)
    requires Inv(cfg, m, initial) && AllFree(m) && Slack(m) >= 0 && b < |m.buyers| && m.buyers[b].place != Home
    ensures var m' := Run(cfg, m, es);
            && AllFree(m') && |m'.buyers| == |m.buyers| && m'.buyers[b].place == Home
            && forall k :: 0 <= k < |m.buyers| && k != b ==> m'.buyers[k] == m.buyers[k]
  {
    var first := GetOutside(cfg, m, initial, b);
    SlackOf(cfg, m, initial, first);
    var rest := GetHome(cfg, Run(cfg, m, first), initial, b);
    RunConcat(cfg, m, first, rest);
    es := first + rest;
  }

  /** Everybody lets go of the stores, loader 0 loads what is missing, and the buyers go home. */
  lemma BringHome(cfg: Config, m: Market, initial: int) returns (es: seq<Event>)
    requires Inv(cfg, m, initial)
    requires Slack(m) >= 0 || (m.loaders != [] && m.stores != [] && cfg.increment > 0)
    ensures AllHome(Run(cfg, m, es))
  {
    var first := FreeAll(cfg, m, initial, |m.stores|);
    SlackOf(cfg, m, initial, first);
    SizesKept(cfg, m, first);
    var m1 := Run(cfg, m, first);
    var second := StockUp(cfg, m1, initial);
    SlackOf(cfg, m1, initial, second);
    var third := SendHome(cfg, Run(cfg, m1, second), initial, 0);
    RunConcat(cfg, m1, second, third);
    RunConcat(cfg, m, first, second + third);
    es := first + (second + third);
  }

  lemma StockUp(cfg: Config, m: Market, initial: int) returns (es: seq<Event>)
    requires Inv(cfg, m, initial) && AllFree(m)
    requires Slack(m) >= 0 || (m.loaders != [] && m.stores != [] && cfg.increment > 0)
    ensures AllFree(Run(cfg, m, es)) && Slack(Run(cfg, m, es)) >= 0
  {
    if Slack(m) >= 0 {
      es := [];
    } else {
      var first := BackToStart(cfg, m, initial);
      SlackOf(cfg, m, initial, first);
      SizesKept(cfg, m, first);
      var rest := LoadEnough(cfg, Run(cfg, m, first), initial);
      RunConcat(cfg, m, first, rest);
      es := first + rest;
    }
  }
}
