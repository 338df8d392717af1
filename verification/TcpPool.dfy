/**
  The TCP side of homework16_client_service/src/multiproto_server.c: the main thread hands connections to a
  growing pool of workers. Connections are fresh tokens, because closed descriptors are reused.
 */
module TcpPool {
  import opened Sums

  /** alloc is SERVER_DEF_ALLOC, maxMsg is SERVER_Q_MAXMSG. */
  datatype Config = Config(alloc: nat, maxMsg: nat)

  /** Where a worker stands in `_tcp_server_thread`. */
  datatype Worker =
    | Starting               // before the first post of "free"
    | Receiving              // at mq_receive
    | Taken(conn: nat)       // before the wait on "free"
    | Claimed(conn: nat)     // before the post of "busy"
    | Serving(conn: nat)     // recv and close
    | Finished               // closed, before the wait on "busy"
    | Released               // before the post of "free"
    | Counting               // before the post of "served"

  /** Where the main thread stands in `multiproto_server`. */
  datatype Main =
    | Booting(left: nat)              // creating the first workers
    | Polling
    | Checking(conn: nat)             // reading "free"
    | Comparing(conn: nat)            // "free" was 0, reading "busy"
    | Growing(conn: nat, left: nat)   // creating more workers
    | Sending(conn: nat)              // at mq_send

  /** The shared state, and after it the history: the connections accepted, taken from the queue and
      closed, in order, and the number of growths. */
  datatype Pool = Pool(
    free: nat, busy: nat, served: nat, queue: seq<nat>, workers: seq<Worker>, main: Main, threadsCount: nat,
    accepted: seq<nat>, taken: seq<nat>, closed: seq<nat>, growths: nat)

  /** A client connects; the main thread moves on; worker w moves on. */
  datatype Event = Accept(conn: nat) | Main | Work(w: nat)

  function Init(cfg: Config): Pool {
    Pool(0, 0, 0, [], [], Booting(cfg.alloc), cfg.alloc, [], [], [], 0)
  }

  /** One atomic step. A thread that would block, and an event that cannot happen, change nothing. */
  function Next(cfg: Config, s: Pool, e: Event): Pool {
    match e
    case Accept(conn) =>
      if s.main == Polling && conn !in s.accepted
      then s.(main := Checking(conn), accepted := s.accepted + [conn]) else s
    case Main => MainNext(cfg, s)
    case Work(w) => if w < |s.workers| then WorkerNext(s, w) else s
  }

  function MainNext(cfg: Config, s: Pool): Pool {
    match s.main
    case Booting(left) =>
      if left > 0 then s.(workers := s.workers + [Starting], main := Booting(left - 1)) else s.(main := Polling)
    case Polling => s
    case Checking(conn) => s.(main := if s.free == 0 then Comparing(conn) else Sending(conn))
    case Comparing(conn) =>
      s.(main := if s.busy == s.threadsCount then Growing(conn, cfg.alloc) else Checking(conn))
    case Growing(conn, left) =>
      if left > 0 then s.(workers := s.workers + [Starting], main := Growing(conn, left - 1))
      else s.(threadsCount := s.threadsCount + cfg.alloc, main := Sending(conn), growths := s.growths + 1)
    case Sending(conn) =>
      if |s.queue| < cfg.maxMsg then s.(queue := s.queue + [conn], main := Polling) else s
  }

  function WorkerNext(s: Pool, w: nat): Pool
    requires w < |s.workers|
  {
    match s.workers[w]
    case Starting => s.(free := s.free + 1, workers := s.workers[w := Receiving])
    case Receiving =>
      if s.queue == [] then s
      else s.(queue := s.queue[1..], taken := s.taken + [s.queue[0]], workers := s.workers[w := Taken(s.queue[0])])
    case Taken(conn) =>
      if s.free == 0 then s else s.(free := s.free - 1, workers := s.workers[w := Claimed(conn)])
    case Claimed(conn) => s.(busy := s.busy + 1, workers := s.workers[w := Serving(conn)])
    case Serving(conn) => s.(closed := s.closed + [conn], workers := s.workers[w := Finished])
    case Finished =>
      if s.busy == 0 then s else s.(busy := s.busy - 1, workers := s.workers[w := Released])
    case Released => s.(free := s.free + 1, workers := s.workers[w := Counting])
    case Counting => s.(served := s.served + 1, workers := s.workers[w := Receiving])
  }

  function Run(cfg: Config, s: Pool, es: seq<Event>): Pool
    decreases |es|
  {
    if es == [] then s else Run(cfg, Next(cfg, s, es[0]), es[1..])
  }

  // ----- What each worker contributes -----

  /** 1 between a worker's post of "free" and its next wait on it. */
  function FreeUnits(w: Worker): int { if w.Receiving? || w.Taken? || w.Counting? then 1 else 0 }

  /** 1 between a worker's post of "busy" and its wait on it. */
  function BusyUnits(w: Worker): int { if w.Serving? || w.Finished? then 1 else 0 }

  /** 1 for a worker not yet started or between two semaphore calls. */
  function TransitUnits(w: Worker): int { if w.Starting? || w.Claimed? || w.Released? then 1 else 0 }

  /** 1 between a worker's close and its post of "served". */
  function UncountedUnits(w: Worker): int { if w.Finished? || w.Released? || w.Counting? then 1 else 0 }

  function Holding(w: Worker): multiset<nat> {
    if w.Taken? || w.Claimed? || w.Serving? then multiset{w.conn} else multiset{}
  }

  function InHand(m: Main): seq<nat> {
    if m.Checking? || m.Comparing? || m.Growing? || m.Sending? then [m.conn] else []
  }

  // ----- The invariant -----

  ghost predicate SemaphoresCount(s: Pool) {
    && s.free == Total(s.workers, FreeUnits)
    && s.busy == Total(s.workers, BusyUnits)
    && s.served + Total(s.workers, UncountedUnits) == |s.closed|
  }

  ghost predicate OrderKept(cfg: Config, s: Pool) {
    |s.queue| <= cfg.maxMsg && s.accepted == s.taken + s.queue + InHand(s.main)
  }

  ghost predicate TakenHeldOrClosed(s: Pool) {
    multiset(s.taken) == multiset(s.closed) + Gather(s.workers, Holding)
  }

  ghost predicate SizeBounded(cfg: Config, s: Pool) {
    && s.threadsCount == Size(cfg, s.growths)
    && |s.workers| == s.threadsCount + Created(cfg, s.main)
    && s.growths + (if s.main.Checking? || s.main.Comparing? || s.main.Growing? then 1 else 0) <= |s.accepted|
  }

  /** The size of a pool that grew k times. */
  function Size(cfg: Config, k: nat): nat {
    if k == 0 then cfg.alloc else Size(cfg, k - 1) + cfg.alloc
  }

  lemma {:induction false} SizeIsMultiple(cfg: Config, k: nat)
    ensures Size(cfg, k) == cfg.alloc * (1 + k)
  {
    if k > 0 { SizeIsMultiple(cfg, k - 1); }
  }

  lemma {:induction false} SizeAtLeast(cfg: Config, k: nat)
    ensures Size(cfg, k) >= cfg.alloc
  {
    if k > 0 { SizeAtLeast(cfg, k - 1); }
  }

  /** Workers created but not yet in tcp_threads_count, or the other way round. */
  function Created(cfg: Config, m: Main): int {
    if m.Booting? then 0 - m.left else if m.Growing? then cfg.alloc - m.left else 0
  }

  ghost predicate Inv(cfg: Config, s: Pool) {
    SemaphoresCount(s) && OrderKept(cfg, s) && TakenHeldOrClosed(s) && Distinct(s.accepted) && SizeBounded(cfg, s)
  }

  lemma WorkerSemaphores(s: Pool, w: nat)
    requires SemaphoresCount(s) && w < |s.workers|
    ensures SemaphoresCount(WorkerNext(s, w))
  {
    var v := WorkerNext(s, w).workers[w];
    TotalUpdate(s.workers, w, v, FreeUnits);
    TotalUpdate(s.workers, w, v, BusyUnits);
    TotalUpdate(s.workers, w, v, UncountedUnits);
  }

  /** What the main thread's own steps leave alone, and the one change they make to the workers. */
  lemma MainFrame(cfg: Config, s: Pool)
    ensures var s' := MainNext(cfg, s);
            && s'.free == s.free && s'.busy == s.busy && s'.served == s.served
            && s'.taken == s.taken && s'.closed == s.closed && s'.accepted == s.accepted
            && (s'.workers == s.workers || s'.workers == s.workers + [Starting])
  {
  }

  lemma SameSemaphores(s: Pool, s': Pool)
    requires SemaphoresCount(s) && s'.free == s.free && s'.busy == s.busy && s'.served == s.served
    requires s'.closed == s.closed && (s'.workers == s.workers || s'.workers == s.workers + [Starting])
    ensures SemaphoresCount(s')
  {
    TotalAppend(s.workers, Starting, FreeUnits);
    TotalAppend(s.workers, Starting, BusyUnits);
    TotalAppend(s.workers, Starting, UncountedUnits);
  }

  lemma WorkerHoldings(s: Pool, w: nat)
    requires TakenHeldOrClosed(s) && w < |s.workers|
    ensures TakenHeldOrClosed(WorkerNext(s, w))
  {
    if s.workers[w].Receiving? && s.queue != [] {
      TakeHoldings(s, w);
    } else if s.workers[w].Serving? {
      CloseHoldings(s, w);
    } else {
      WorkerKeepsHoldings(s, w);
      GatherSame(s.workers, w, WorkerNext(s, w).workers[w], Holding);
    }
  }

  lemma WorkerKeepsHoldings(s: Pool, w: nat)
    requires w < |s.workers| && !s.workers[w].Serving? && (s.workers[w].Receiving? ==> s.queue == [])
    ensures var s' := WorkerNext(s, w);
            && s'.taken == s.taken && s'.closed == s.closed && s'.workers == s.workers[w := s'.workers[w]]
            && Holding(s'.workers[w]) == Holding(s.workers[w])
  {
  }

  lemma TakeHoldings(s: Pool, w: nat)
    requires TakenHeldOrClosed(s) && w < |s.workers| && s.workers[w].Receiving? && s.queue != []
    ensures TakenHeldOrClosed(WorkerNext(s, w))
  {
    var v := Taken(s.queue[0]);
    GatherGain(s.workers, w, v, Holding);
  }

  lemma CloseHoldings(s: Pool, w: nat)
    requires TakenHeldOrClosed(s) && w < |s.workers| && s.workers[w].Serving?
    ensures TakenHeldOrClosed(WorkerNext(s, w))
  {
    GatherLose(s.workers, w, Finished, Holding);
    BagMoves(s.taken, s.closed, Gather(s.workers, Holding), Gather(s.workers[w := Finished], Holding), s.workers[w].conn);
  }

  lemma BagMoves(a: seq<nat>, b: seq<nat>, m: multiset<nat>, m': multiset<nat>, x: nat)
    requires multiset(a) == multiset(b) + m && m == m' + multiset{x}
    ensures multiset(a) == multiset(b + [x]) + m'
  {
  }

  lemma MainOrder(cfg: Config, s: Pool)
    requires OrderKept(cfg, s)
    ensures OrderKept(cfg, MainNext(cfg, s))
  {
    if s.main.Sending? {
      assert s.taken + s.queue + [s.main.conn] == s.taken + (s.queue + [s.main.conn]) + [];
    }
  }

  lemma MainSize(cfg: Config, s: Pool)
    requires SizeBounded(cfg, s)
    ensures SizeBounded(cfg, MainNext(cfg, s))
  {
  }

  lemma WorkInv(cfg: Config, s: Pool, w: nat)
    requires Inv(cfg, s) && w < |s.workers|
    ensures Inv(cfg, WorkerNext(s, w))
  {
    WorkerSemaphores(s, w);
    WorkerHoldings(s, w);
    WorkerKeeps(s, w);
  }

  lemma WorkerKeeps(s: Pool, w: nat)
    requires w < |s.workers|
    ensures var s' := WorkerNext(s, w);
            && s'.main == s.main && s'.accepted == s.accepted && s'.threadsCount == s.threadsCount
            && s'.growths == s.growths && |s'.workers| == |s.workers|
  {
  }

  lemma AcceptInv(cfg: Config, s: Pool, conn: nat)
    requires Inv(cfg, s)
    ensures Inv(cfg, Next(cfg, s, Accept(conn)))
  {
    assert s.taken + s.queue + [] == s.taken + s.queue;
  }

  lemma EventInv(cfg: Config, s: Pool, e: Event)
    requires Inv(cfg, s)
    ensures Inv(cfg, Next(cfg, s, e))
  {
    match e {
      case Accept(conn) => AcceptInv(cfg, s, conn);
      case Main =>
        MainFrame(cfg, s);
        SameSemaphores(s, MainNext(cfg, s));
        MainOrder(cfg, s);
        MainSize(cfg, s);
      case Work(w) => if w < |s.workers| { WorkInv(cfg, s, w); }
    }
  }

  lemma InitInv(cfg: Config)
    ensures Inv(cfg, Init(cfg))
  {
  }

  lemma {:induction false} RunInv(cfg: Config, s: Pool, es: seq<Event>)
    requires Inv(cfg, s)
    ensures Inv(cfg, Run(cfg, s, es))
    decreases |es|
  {
    if es != [] {
      EventInv(cfg, s, es[0]);
      RunInv(cfg, Next(cfg, s, es[0]), es[1..]);
    }
  }

  // ----- What holds over every run -----

  /** The semaphores count the workers, and free + busy + workers in transit = workers created. */
  lemma WorkersAccountedFor(cfg: Config, es: seq<Event>)
    ensures var s := Run(cfg, Init(cfg), es);
            && s.free == Total(s.workers, FreeUnits) && s.busy == Total(s.workers, BusyUnits)
            && s.free + s.busy + Total(s.workers, TransitUnits) == |s.workers|
            && s.served == |s.closed| - Total(s.workers, UncountedUnits)
  {
    RunInv(cfg, Init(cfg), es);
    AllUnits(Run(cfg, Init(cfg), es).workers);
  }

  function FreeOrBusy(w: Worker): int { FreeUnits(w) + BusyUnits(w) }
  function One(w: Worker): int { 1 }

  lemma AllUnits(ws: seq<Worker>)
    ensures Total(ws, FreeUnits) + Total(ws, BusyUnits) + Total(ws, TransitUnits) == |ws|
  {
    TotalSplit(ws, FreeUnits, BusyUnits, FreeOrBusy);
    TotalSplit(ws, FreeOrBusy, TransitUnits, One);
    TotalWithin(ws, One, 1, 1);
  }

  /** Neither sem_wait in a worker ever blocks: the worker's next step always moves it on. */
  lemma WaitsNeverBlock(cfg: Config, es: seq<Event>, w: nat)
    requires w < |Run(cfg, Init(cfg), es).workers|
    ensures var s := Run(cfg, Init(cfg), es);
            && (s.workers[w].Taken? ==> Next(cfg, s, Work(w)).workers[w].Claimed?)
            && (s.workers[w].Finished? ==> Next(cfg, s, Work(w)).workers[w].Released?)
  {
    RunInv(cfg, Init(cfg), es);
    UnitsAvailable(Run(cfg, Init(cfg), es), w);
  }

  lemma UnitsAvailable(s: Pool, w: nat)
    requires SemaphoresCount(s) && w < |s.workers|
    ensures (s.workers[w].Taken? ==> s.free > 0) && (s.workers[w].Finished? ==> s.busy > 0)
  {
    TotalAtLeast(s.workers, w, FreeUnits);
    TotalAtLeast(s.workers, w, BusyUnits);
  }

  /** No connection is lost, duplicated or reordered on its way to the workers, the queue keeps its
      bound, and every connection taken is either held by one worker or closed, once. */
  lemma ConnectionsConserved(cfg: Config, es: seq<Event>)
    ensures var s := Run(cfg, Init(cfg), es);
            && s.accepted == s.taken + s.queue + InHand(s.main) && |s.queue| <= cfg.maxMsg
            && multiset(s.taken) == multiset(s.closed) + Gather(s.workers, Holding)
            && Distinct(s.closed)
            && (forall v, w :: 0 <= v < w < |s.workers| ==> Holding(s.workers[v]) !! Holding(s.workers[w]))
            && (forall w :: 0 <= w < |s.workers| ==> Holding(s.workers[w]) !! multiset(s.closed))
  {
    RunInv(cfg, Init(cfg), es);
    var s := Run(cfg, Init(cfg), es);
    TakenOnce(cfg, s);
    forall i, j | 0 <= i < j < |s.closed|
      ensures s.closed[i] != s.closed[j]
    {
      if s.closed[i] == s.closed[j] { TwicePresent(s.closed, i, j); }
      assert multiset(s.closed)[s.closed[i]] <= multiset(s.taken)[s.closed[i]];
    }
    forall v, w | 0 <= v < w < |s.workers|
      ensures Holding(s.workers[v]) !! Holding(s.workers[w])
    {
      GatherTwo(s.workers, v, w, Holding);
      DisjointParts(multiset(s.taken), Holding(s.workers[v]), Holding(s.workers[w]));
    }
    forall w | 0 <= w < |s.workers|
      ensures Holding(s.workers[w]) !! multiset(s.closed)
    {
      GatherUpdate(s.workers, w, s.workers[w], Holding);
      DisjointParts(multiset(s.taken), Holding(s.workers[w]), multiset(s.closed));
    }
  }

  lemma DisjointParts(whole: multiset<nat>, a: multiset<nat>, b: multiset<nat>)
    requires a + b <= whole && forall c :: whole[c] <= 1
    ensures a !! b
  {
    forall c
      ensures c !in a || c !in b
    {
      assert (a + b)[c] <= whole[c];
    }
  }

  lemma TakenOnce(cfg: Config, s: Pool)
    requires OrderKept(cfg, s) && Distinct(s.accepted)
    ensures forall c :: multiset(s.taken)[c] <= 1
  {
    assert s.taken == s.accepted[..|s.taken|];
    DistinctMultiset(s.taken);
  }

  /** The pool grows by whole steps, at most once per accepted connection, and never beyond the most
      workers ever busy at once plus one step. */
  lemma NeverOverProvisions(cfg: Config, es: seq<Event>)
    ensures var s := Run(cfg, Init(cfg), es);
            && s.threadsCount == cfg.alloc * (1 + s.growths) && s.growths <= |s.accepted|
            && s.threadsCount <= PeakBusy(cfg, Init(cfg), es) + cfg.alloc
            && |s.workers| <= PeakBusy(cfg, Init(cfg), es) + cfg.alloc
  {
    RunInv(cfg, Init(cfg), es);
    SizeIsMultiple(cfg, Run(cfg, Init(cfg), es).growths);
    PeakBounds(cfg, Init(cfg), es, 0);
  }

  /** The most workers busy at once in the states of a run. */
  function PeakBusy(cfg: Config, s: Pool, es: seq<Event>): int
    decreases |es|
  {
    var now := Total(s.workers, BusyUnits);
    if es == [] then now else
      var later := PeakBusy(cfg, Next(cfg, s, es[0]), es[1..]);
      if later > now then later else now
  }

  /** The pool size that the main thread has decided on. */
  function Decided(cfg: Config, s: Pool): int {
    s.threadsCount + if s.main.Growing? then cfg.alloc else 0
  }

  lemma {:induction false} PeakBounds(cfg: Config, s: Pool, es: seq<Event>, peak: int)
    requires Inv(cfg, s) && Decided(cfg, s) <= peak + cfg.alloc
    ensures var top := if PeakBusy(cfg, s, es) > peak then PeakBusy(cfg, s, es) else peak;
            Decided(cfg, Run(cfg, s, es)) <= top + cfg.alloc
    decreases |es|
  {
    if es != [] {
      var now := Total(s.workers, BusyUnits);
      DecidedStep(cfg, s, es[0]);
      EventInv(cfg, s, es[0]);
      PeakBounds(cfg, Next(cfg, s, es[0]), es[1..], if now > peak then now else peak);
    }
  }

  lemma DecidedStep(cfg: Config, s: Pool, e: Event)
    requires Inv(cfg, s)
    ensures var s' := Next(cfg, s, e);
            Decided(cfg, s') == Decided(cfg, s) || Decided(cfg, s') == Total(s.workers, BusyUnits) + cfg.alloc
  {
    if e.Work? && e.w < |s.workers| { WorkerKeeps(s, e.w); }
  }

  /** The main thread decides to grow only while every created worker is busy. */
  lemma GrowsOnlyWhenAllBusy(cfg: Config, es: seq<Event>, w: nat)
    requires var s := Run(cfg, Init(cfg), es);
             s.main.Comparing? && Next(cfg, s, Main).main.Growing? && w < |s.workers|
    ensures BusyUnits(Run(cfg, Init(cfg), es).workers[w]) == 1
  {
    RunInv(cfg, Init(cfg), es);
    TotalFull(Run(cfg, Init(cfg), es).workers, BusyUnits, w);
  }

  /** While the main thread waits for a free worker without growing, some worker is about to post a
      semaphore: it never waits for a client. */
  lemma MainWaitsOnlyForPosts(cfg: Config, es: seq<Event>) returns (w: nat)
    requires var s := Run(cfg, Init(cfg), es);
             s.main.Checking? && s.free == 0 && s.busy != s.threadsCount
    ensures var s := Run(cfg, Init(cfg), es);
            w < |s.workers| && (s.workers[w].Starting? || s.workers[w].Claimed? || s.workers[w].Released?)
  {
    RunInv(cfg, Init(cfg), es);
    var s := Run(cfg, Init(cfg), es);
    AllUnits(s.workers);
    TotalAtMostOnes(s.workers, BusyUnits);
    w := TotalWitness(s.workers, TransitUnits);
  }

  ghost predicate Quiescent(cfg: Config, s: Pool) {
    && Next(cfg, s, Main) == s
    && forall w :: 0 <= w < |s.workers| ==> Next(cfg, s, Work(w)).workers[w] == s.workers[w]
  }

  /** When no thread can move, every accepted connection has been closed and counted. */
  lemma QuiescentMeansServed(cfg: Config, es: seq<Event>)
    requires cfg.alloc > 0 && cfg.maxMsg > 0 && Quiescent(cfg, Run(cfg, Init(cfg), es))
    ensures var s := Run(cfg, Init(cfg), es);
            && s.main == Polling && s.queue == [] && (forall w :: 0 <= w < |s.workers| ==> s.workers[w] == Receiving)
            && s.served == |s.accepted| && multiset(s.closed) == multiset(s.accepted)
  {
    RunInv(cfg, Init(cfg), es);
    var s := Run(cfg, Init(cfg), es);
    forall w | 0 <= w < |s.workers|
      ensures s.workers[w] == Receiving && s.queue == []
    {
      WaitsNeverBlock(cfg, es, w);
      QuiescentWorker(cfg, s, w);
    }
    SizeAtLeast(cfg, s.growths);
    QuiescentMain(cfg, s);
    NobodyHolds(s.workers);
    AllServed(s);
  }

  lemma QuiescentWorker(cfg: Config, s: Pool, w: nat)
    requires w < |s.workers| && Next(cfg, s, Work(w)).workers[w] == s.workers[w]
    requires s.workers[w].Taken? ==> Next(cfg, s, Work(w)).workers[w].Claimed?
    requires s.workers[w].Finished? ==> Next(cfg, s, Work(w)).workers[w].Released?
    ensures s.workers[w] == Receiving && s.queue == []
  {
  }

  lemma QuiescentMain(cfg: Config, s: Pool)
    requires cfg.maxMsg > 0 && Next(cfg, s, Main) == s && (|s.workers| > 0 ==> s.queue == [])
    requires s.workers == [] ==> s.main.Booting?
    ensures s.main == Polling
  {
  }

  lemma AllServed(s: Pool)
    requires SemaphoresCount(s) && TakenHeldOrClosed(s) && s.accepted == s.taken
    requires Gather(s.workers, Holding) == multiset{} && Total(s.workers, UncountedUnits) == 0
    ensures s.served == |s.accepted| && multiset(s.closed) == multiset(s.accepted)
  {
    assert |multiset(s.closed)| == |multiset(s.taken)|;
  }

  lemma {:induction false} NobodyHolds(ws: seq<Worker>)
    requires forall w :: 0 <= w < |ws| ==> ws[w] == Receiving
    ensures Gather(ws, Holding) == multiset{} && Total(ws, UncountedUnits) == 0
  {
    if ws != [] { NobodyHolds(ws[..|ws| - 1]); }
  }

  // ----- Every client is handed over -----

  /** A step of main, or a semaphore call of a worker that is not yet started or between two of them: nobody
      waits for a client and nobody takes from the queue. */
  predicate Unhindered(s: Pool, e: Event) {
    e.Main? || (e.Work? && e.w < |s.workers| && TransitUnits(s.workers[e.w]) == 1)
  }

  predicate AllUnhindered(cfg: Config, s: Pool, es: seq<Event>)
    decreases |es|
  {
    es != [] ==> Unhindered(s, es[0]) && AllUnhindered(cfg, Next(cfg, s, es[0]), es[1..])
  }

  /** The connection has joined the queue, and n workers the pool. */
  predicate HandedOver(s: Pool, s': Pool, conn: nat, n: int) {
    && s'.queue == s.queue + [conn] && s'.main == Polling && |s'.workers| == |s.workers| + n
    && s'.accepted == s.accepted && s'.taken == s.taken && s'.closed == s.closed
  }

  /** Step e, and then the steps of more. */
  lemma FirstThen(cfg: Config, s: Pool, e: Event, more: seq<Event>) returns (es: seq<Event>)
    requires Unhindered(s, e) && AllUnhindered(cfg, Next(cfg, s, e), more)
    ensures AllUnhindered(cfg, s, es) && Run(cfg, s, es) == Run(cfg, Next(cfg, s, e), more)
  {
    es := [e] + more;
    assert es[1..] == more;
  }

  lemma SendNow(cfg: Config, s: Pool, conn: nat) returns (es: seq<Event>)
    requires s.main == Sending(conn) && |s.queue| < cfg.maxMsg
    ensures AllUnhindered(cfg, s, es) && HandedOver(s, Run(cfg, s, es), conn, 0)
  {
    es := FirstThen(cfg, s, Main, []);
  }

  /** main creates the workers that are left and sends. */
  lemma {:induction false} GrowAndSend(cfg: Config, s: Pool, conn: nat, left: nat) returns (es: seq<Event>)
    requires s.main == Growing(conn, left) && |s.queue| < cfg.maxMsg
    ensures AllUnhindered(cfg, s, es) && HandedOver(s, Run(cfg, s, es), conn, left)
    decreases left
  {
    var s' := MainNext(cfg, s);
    if left == 0 {
      es := SendNow(cfg, s', conn);
    } else {
      es := GrowAndSend(cfg, s', conn, left - 1);
    }
    es := FirstThen(cfg, s, Main, es);
  }

  /** A free worker: main sends without growing. */
  lemma SendToFree(cfg: Config, s: Pool, conn: nat) returns (es: seq<Event>)
    requires s.free > 0 && s.busy != s.threadsCount && |s.queue| < cfg.maxMsg
    requires s.main == Checking(conn) || s.main == Comparing(conn)
    ensures AllUnhindered(cfg, s, es) && HandedOver(s, Run(cfg, s, es), conn, 0)
  {
    var s' := MainNext(cfg, s);
    if s.main == Checking(conn) {
      es := SendNow(cfg, s', conn);
    } else {
      es := SendNow(cfg, MainNext(cfg, s'), conn);
      es := FirstThen(cfg, s', Main, es);
    }
    es := FirstThen(cfg, s, Main, es);
  }

  /** All the workers are busy: main creates as many as one step of growth has. */
  lemma GrowAllBusy(cfg: Config, s: Pool, conn: nat) returns (es: seq<Event>)
    requires s.free == 0 && s.busy == s.threadsCount && |s.queue| < cfg.maxMsg
    requires s.main == Checking(conn) || s.main == Comparing(conn)
    ensures AllUnhindered(cfg, s, es) && HandedOver(s, Run(cfg, s, es), conn, cfg.alloc)
  {
    var s' := MainNext(cfg, s);
    if s.main == Comparing(conn) {
      es := GrowAndSend(cfg, s', conn, cfg.alloc);
    } else {
      es := GrowAndSend(cfg, MainNext(cfg, s'), conn, cfg.alloc);
      es := FirstThen(cfg, s', Main, es);
    }
    es := FirstThen(cfg, s, Main, es);
  }

  /** A worker in transit posts, and is in transit no longer. */
  lemma TransitStep(cfg: Config, s: Pool, w: nat)
    requires w < |s.workers| && TransitUnits(s.workers[w]) == 1
    ensures var s' := WorkerNext(s, w);
            && Total(s'.workers, TransitUnits) == Total(s.workers, TransitUnits) - 1
            && |s'.workers| == |s.workers| && s'.queue == s.queue && s'.main == s.main && s'.accepted == s.accepted
            && s'.taken == s.taken && s'.closed == s.closed && s'.threadsCount == s.threadsCount
  {
    TotalUpdate(s.workers, w, WorkerNext(s, w).workers[w], TransitUnits);
  }

  /** What the semaphores tell main: a free worker means that not all are busy. */
  lemma CountsTell(cfg: Config, s: Pool)
    requires SemaphoresCount(s) && SizeBounded(cfg, s) && !s.main.Booting? && !s.main.Growing?
    ensures s.free + s.busy + Total(s.workers, TransitUnits) == s.threadsCount == |s.workers|
    ensures Total(s.workers, TransitUnits) >= 0
  {
    AllUnits(s.workers);
    TotalNonNegative(s.workers, TransitUnits);
  }

  /** While main decides, the workers in transit post one after the other, until one is free or all are busy. */
  lemma {:induction false} Decide(cfg: Config, s: Pool, conn: nat) returns (es: seq<Event>, n: nat)
    requires Inv(cfg, s) && |s.queue| < cfg.maxMsg && (s.main == Checking(conn) || s.main == Comparing(conn))
    ensures AllUnhindered(cfg, s, es) && HandedOver(s, Run(cfg, s, es), conn, n) && (n == 0 || n == cfg.alloc)
    ensures s.free > 0 ==> n == 0
    ensures s.busy == |s.workers| ==> n == cfg.alloc
    decreases Total(s.workers, TransitUnits)
  {
    CountsTell(cfg, s);
    if s.free > 0 {
      n := 0;
      es := SendToFree(cfg, s, conn);
    } else if s.busy == s.threadsCount {
      n := cfg.alloc;
      es := GrowAllBusy(cfg, s, conn);
    } else {
      var w := TotalWitness(s.workers, TransitUnits);
      TransitStep(cfg, s, w);
      WorkInv(cfg, s, w);
      CountsTell(cfg, WorkerNext(s, w));
      es, n := Decide(cfg, WorkerNext(s, w), conn);
      es := FirstThen(cfg, s, Work(w), es);
    }
  }

  /** In every reachable state in which main has a connection in hand and the queue has room, steps of main and
      posts of workers in transit alone put it into the queue. The pool grows by one step or, while main is
      growing it, by what is left of one; not at all if a worker is between its post of free and its next wait;
      and by exactly one step if all are busy. */
  lemma EveryClientIsHandedOver(cfg: Config, es: seq<Event>, conn: nat) returns (more: seq<Event>, n: nat)
    requires var s := Run(cfg, Init(cfg), es);
             InHand(s.main) == [conn] && |s.queue| < cfg.maxMsg
    ensures var s := Run(cfg, Init(cfg), es);
            && AllUnhindered(cfg, s, more) && HandedOver(s, Run(cfg, s, more), conn, n)
            && (s.main.Growing? ==> n == s.main.left) && (s.main.Sending? ==> n == 0)
            && (s.main.Checking? || s.main.Comparing? ==>
                  && (n == 0 || n == cfg.alloc)
                  && ((exists w :: 0 <= w < |s.workers| && FreeUnits(s.workers[w]) == 1) ==> n == 0)
                  && ((forall w :: 0 <= w < |s.workers| ==> BusyUnits(s.workers[w]) == 1) ==> n == cfg.alloc))
  {
    var s := Run(cfg, Init(cfg), es);
    RunInv(cfg, Init(cfg), es);
    assert InHand(s.main)[0] == conn;
    if s.main.Sending? {
      n := 0;
      more := SendNow(cfg, s, conn);
    } else if s.main.Growing? {
      n := s.main.left;
      more := GrowAndSend(cfg, s, conn, n);
    } else {
      more, n := Decide(cfg, s, conn);
      FreeOrAllBusy(s);
    }
  }

  lemma FreeOrAllBusy(s: Pool)
    requires SemaphoresCount(s)
    ensures (exists w :: 0 <= w < |s.workers| && FreeUnits(s.workers[w]) == 1) ==> s.free > 0
    ensures (forall w :: 0 <= w < |s.workers| ==> BusyUnits(s.workers[w]) == 1) ==> s.busy == |s.workers|
  {
    if w :| 0 <= w < |s.workers| && FreeUnits(s.workers[w]) == 1 {
      TotalAtLeast(s.workers, w, FreeUnits);
    }
    if forall w :: 0 <= w < |s.workers| ==> BusyUnits(s.workers[w]) == 1 {
      TotalWithin(s.workers, BusyUnits, 1, 1);
    }
  }

  // ----- The server -----

  class Server {
    const cfg: Config
    var free: nat
    var busy: nat
    var served: nat
    var queue: seq<nat>
    var workers: seq<Worker>
    var main: Main
    var threadsCount: nat
    var accepted: seq<nat>   // the history
    ghost var taken: seq<nat>
    ghost var closed: seq<nat>
    ghost var growths: nat

    ghost function State(): Pool
      reads this
    {
      Pool(free, busy, served, queue, workers, main, threadsCount, accepted, taken, closed, growths)
    }

    constructor (cfg: Config)
      ensures this.cfg == cfg && State() == Init(cfg) && Inv(cfg, State())
    {
      InitInv(cfg);
      this.cfg := cfg;
      free, busy, served := 0, 0, 0;
      queue, workers := [], [];
      threadsCount, main := cfg.alloc, Booting(cfg.alloc);
      accepted, taken, closed, growths := [], [], [], 0;
    }

    method AcceptClient(conn: nat)
      requires main == Polling && conn !in accepted
      modifies this
      ensures State() == Next(cfg, old(State()), Accept(conn))
    {
      accepted := accepted + [conn];
      main := Checking(conn);
    }

    method MainStep()
      modifies this
      ensures State() == Next(cfg, old(State()), Main)
    {
      match main {
        case Booting(left) =>
          if left > 0 {
            workers := workers + [Starting];
            main := Booting(left - 1);
          } else {
            main := Polling;
          }
        case Polling =>
        case Checking(conn) =>
          main := if free == 0 then Comparing(conn) else Sending(conn);
        case Comparing(conn) =>
          main := if busy == threadsCount then Growing(conn, cfg.alloc) else Checking(conn);
        case Growing(conn, left) =>
          if left > 0 {
            workers := workers + [Starting];
            main := Growing(conn, left - 1);
          } else {
            threadsCount := threadsCount + cfg.alloc;
            growths := growths + 1;
            main := Sending(conn);
          }
        case Sending(conn) =>
          if |queue| < cfg.maxMsg {
            queue := queue + [conn];
            main := Polling;
          }
      }
    }

    method WorkerStep(w: nat)
      requires w < |workers|
      modifies this
      ensures State() == Next(cfg, old(State()), Work(w))
    {
      match workers[w] {
        case Starting =>
          free := free + 1;
          workers := workers[w := Receiving];
        case Receiving =>
          if queue != [] {
            var conn := queue[0];
            queue := queue[1..];
            taken := taken + [conn];
            workers := workers[w := Taken(conn)];
          }
        case Taken(conn) =>
          if free > 0 {
            free := free - 1;
            workers := workers[w := Claimed(conn)];
          }
        case Claimed(conn) =>
          busy := busy + 1;
          workers := workers[w := Serving(conn)];
        case Serving(conn) =>
          closed := closed + [conn];
          workers := workers[w := Finished];
        case Finished =>
          if busy > 0 {
            busy := busy - 1;
            workers := workers[w := Released];
          }
        case Released =>
          free := free + 1;
          workers := workers[w := Counting];
        case Counting =>
          served := served + 1;
          workers := workers[w := Receiving];
      }
    }

    method Perform(e: Event)
      requires Inv(cfg, State())
      modifies this
      ensures State() == Next(cfg, old(State()), e) && Inv(cfg, State())
    {
      EventInv(cfg, State(), e);
      match e {
        case Accept(conn) => if main == Polling && conn !in accepted { AcceptClient(conn); }
        case Main => MainStep();
        case Work(w) => if w < |workers| { WorkerStep(w); }
      }
    }

    /** Whatever the schedule, the semaphores count the workers and no connection is lost or reordered on
        its way to them. */
    method Execute(es: seq<Event>)
      requires Inv(cfg, State())
      modifies this
      ensures State() == Run(cfg, old(State()), es) && Inv(cfg, State())
      ensures free + busy + Total(workers, TransitUnits) == |workers|
      ensures accepted == taken + queue + InHand(main) && |queue| <= cfg.maxMsg
      ensures multiset(taken) == multiset(closed) + Gather(workers, Holding)
    {
      for k := 0 to |es|
        invariant Run(cfg, State(), es[k..]) == Run(cfg, old(State()), es) && Inv(cfg, State())
      {
        Perform(es[k]);
      }
      AllUnits(workers);
    }
  }
}
