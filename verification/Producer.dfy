/**
  The TCP half of the producer server of homework16_client_service: a listener polls all the clients'
  sockets and hands the readable ones to a pool of workers through a bounded queue; a worker answers one
  message and sends the socket back through a second bounded queue.
 */
module Producer {
  import opened Sums

  /** An entry of tcp_pfds: events and revents hold POLLIN or not. */
  datatype PollFd = PollFd(fd: int, events: bool, revents: bool)

  datatype WorkerAt =
    | Receiving          // at mq_receive
    | Serving(fd: int)   // receives and answers the client's message
    | Acking(fd: int)    // at mq_send to the acknowledgement queue

  datatype ListenerAt =
    | Polling
    | Registering             // testing revents of the main thread's queue
    | Rearming                // testing revents of the acknowledgement queue
    | Dispatching(k: nat)     // testing entry k of the table

  /** The queues from the main thread (arriving), to the workers (work) and back (acks); pfds is the table
      from entry 2 on, incoming and acked are revents of entries 0 and 1, served is the semaphore.
      The history: sockets accepted, sent to work, taken, sent back and received back. */
  datatype Server = Server(
    arriving: seq<int>, pfds: seq<PollFd>, incoming: bool, acked: bool, listener: ListenerAt, served: nat,
    work: seq<int>, workers: seq<WorkerAt>, acks: seq<int>,
    accepted: seq<int>, dispatched: seq<int>, taken: seq<int>, returned: seq<int>, drained: seq<int>)

  datatype Event =
    | Accept(fd: int)                                    // the main thread sends a new socket
    | Hire                                               // the main thread creates a worker
    | Poll(incoming: bool, acked: bool, ready: seq<bool>)  // poll returns
    | Listen(junk: bool)                                 // the listener's next step; a new entry's revents is junk
    | Work(w: nat)

  const INIT := Server([], [], false, false, Polling, 0, [], [], [], [], [], [], [], [])

  /** poll reports only what is there and asked for. */
  predicate Polled(s: Server, incoming: bool, acked: bool, ready: seq<bool>) {
    && |ready| == |s.pfds| && (incoming ==> s.arriving != []) && (acked ==> s.acks != [])
    && forall k :: 0 <= k < |ready| && ready[k] ==> s.pfds[k].events
  }

  /** One atomic step with queues of capacity cap; a blocked step leaves the state as it is. */
  function Next(cap: nat, s: Server, e: Event): Server {
    match e
    case Accept(fd) =>
      if |s.arriving| < cap && fd !in s.accepted
      then s.(arriving := s.arriving + [fd], accepted := s.accepted + [fd]) else s
    case Hire => s.(workers := s.workers + [Receiving])
    case Poll(incoming, acked, ready) =>
      if s.listener == Polling && Polled(s, incoming, acked, ready)
      then s.(incoming := incoming, acked := acked, pfds := Reported(s.pfds, ready), listener := Registering) else s
    case Listen(junk) => ListenerNext(cap, s, junk)
    case Work(w) => if w < |s.workers| then WorkerNext(cap, s, w) else s
  }

  /** What poll writes into revents. */
  function Reported(pfds: seq<PollFd>, ready: seq<bool>): seq<PollFd>
    requires |ready| == |pfds|
  {
    seq(|pfds|, k requires 0 <= k < |pfds| => pfds[k].(revents := ready[k]))
  }

  function ListenerNext(cap: nat, s: Server, junk: bool): Server {
    match s.listener
    case Polling => s
    case Registering =>
      if !s.incoming then s.(listener := Rearming)
      else if s.arriving == [] then s
      else s.(arriving := s.arriving[1..], served := s.served + 1, pfds := s.pfds + [PollFd(s.arriving[0], true, junk)],
              incoming := false, listener := Rearming)
    case Rearming =>
      if !s.acked then s.(listener := Dispatching(0))
      else if s.acks == [] then s
      else s.(acks := s.acks[1..], drained := s.drained + [s.acks[0]], pfds := Rearmed(s.pfds, s.acks[0]),
              acked := false, listener := Dispatching(0))
    case Dispatching(k) =>
      if k >= |s.pfds| then s.(listener := Polling)
      else if !s.pfds[k].revents then s.(listener := Dispatching(k + 1))
      else if |s.work| >= cap then s
      else s.(work := s.work + [s.pfds[k].fd], dispatched := s.dispatched + [s.pfds[k].fd],
              pfds := s.pfds[k := s.pfds[k].(revents := false)], listener := Dispatching(k + 1))
  }

  /** The first entry of the socket asks for POLLIN again. */
  function Rearmed(pfds: seq<PollFd>, fd: int): seq<PollFd> {
    if pfds == [] then []
    else if pfds[0].fd == fd then [pfds[0].(events := true)] + pfds[1..]
    else [pfds[0]] + Rearmed(pfds[1..], fd)
  }

  function WorkerNext(cap: nat, s: Server, w: nat): Server
    requires w < |s.workers|
  {
    match s.workers[w]
    case Receiving =>
      if s.work == [] then s
      else s.(work := s.work[1..], taken := s.taken + [s.work[0]], workers := s.workers[w := Serving(s.work[0])])
    case Serving(fd) => s.(workers := s.workers[w := Acking(fd)])
    case Acking(fd) =>
      if |s.acks| >= cap then s
      else s.(acks := s.acks + [fd], returned := s.returned + [fd], workers := s.workers[w := Receiving])
  }

  function Run(cap: nat, s: Server, es: seq<Event>): Server
    decreases |es|
  {
    if es == [] then s else Run(cap, Next(cap, s, es[0]), es[1..])
  }

  // ----- The table -----

  function Fds(pfds: seq<PollFd>): seq<int> {
    seq(|pfds|, k requires 0 <= k < |pfds| => pfds[k].fd)
  }

  predicate AllAsk(pfds: seq<PollFd>) { forall k :: 0 <= k < |pfds| ==> pfds[k].events }

  /** The table only grows, in the order in which the sockets were accepted. */
  predicate TableOk(s: Server) { s.accepted == Fds(s.pfds) + s.arriving }

  predicate ListenerOk(cap: nat, s: Server) {
    && s.served == |s.pfds| && |s.arriving| <= cap && AllAsk(s.pfds)
    && (s.listener == Registering && s.incoming ==> s.arriving != [])
    && ((s.listener == Registering || s.listener == Rearming) && s.acked ==> s.acks != [])
  }

  lemma {:induction false} RearmedChangesNothing(pfds: seq<PollFd>, fd: int)
    requires AllAsk(pfds)
    ensures Rearmed(pfds, fd) == pfds
  {
    if pfds != [] && pfds[0].fd != fd { RearmedChangesNothing(pfds[1..], fd); }
  }

  lemma ListenListener(cap: nat, s: Server, junk: bool)
    requires ListenerOk(cap, s)
    ensures ListenerOk(cap, ListenerNext(cap, s, junk))
  {
    if s.listener == Rearming && s.acks != [] { RearmedChangesNothing(s.pfds, s.acks[0]); }
  }

  lemma EventListener(cap: nat, s: Server, e: Event)
    requires ListenerOk(cap, s)
    ensures ListenerOk(cap, Next(cap, s, e))
  {
    if e.Listen? { ListenListener(cap, s, e.junk); }
  }

  lemma EventDistinct(cap: nat, s: Server, e: Event)
    requires Distinct(s.accepted)
    ensures Distinct(Next(cap, s, e).accepted)
  {
  }

  /** What a step does to the table. */
  lemma EventFds(cap: nat, s: Server, e: Event)
    requires ListenerOk(cap, s)
    ensures var s' := Next(cap, s, e);
            || (Fds(s'.pfds) == Fds(s.pfds) && s'.arriving == s.arriving && s'.accepted == s.accepted)
            || (e.Listen? && s.arriving != [] && Fds(s'.pfds) == Fds(s.pfds) + [s.arriving[0]] && s'.arriving == s.arriving[1..]
                && s'.accepted == s.accepted)
            || (e.Accept? && s'.pfds == s.pfds && s'.arriving == s.arriving + [e.fd] && s'.accepted == s.accepted + [e.fd])
  {
    var s' := Next(cap, s, e);
    if e.Listen? && s.listener == Rearming && s.acks != [] { RearmedChangesNothing(s.pfds, s.acks[0]); }
    if e.Listen? && s.listener == Registering && s.incoming && s.arriving != [] {
      assert Fds(s'.pfds) == Fds(s.pfds) + [s.arriving[0]];
    } else {
      assert Fds(s'.pfds) == Fds(s.pfds);
    }
  }

  lemma EventTable(cap: nat, s: Server, e: Event)
    requires TableOk(s) && ListenerOk(cap, s)
    ensures TableOk(Next(cap, s, e))
  {
    EventFds(cap, s, e);
  }

  // ----- The round trip of a socket -----

  function Holding(w: WorkerAt): multiset<int> { if w == Receiving then multiset{} else multiset{w.fd} }

  /** Both queues are first-in first-out and within their capacity. */
  predicate QueuesOk(cap: nat, s: Server) {
    && s.dispatched == s.taken + s.work && |s.work| <= cap
    && s.returned == s.drained + s.acks && |s.acks| <= cap
  }

  ghost predicate HoldingsOk(s: Server) {
    multiset(s.taken) == multiset(s.returned) + Gather(s.workers, Holding)
  }

  /** Only sockets of the table are dispatched. */
  ghost predicate DispatchedOk(s: Server) { forall fd :: fd in s.dispatched ==> fd in Fds(s.pfds) }

  ghost predicate Inv(cap: nat, s: Server) {
    && TableOk(s) && ListenerOk(cap, s) && Distinct(s.accepted)
    && QueuesOk(cap, s) && HoldingsOk(s) && DispatchedOk(s)
  }

  lemma ListenQueues(cap: nat, s: Server, junk: bool)
    requires QueuesOk(cap, s)
    ensures QueuesOk(cap, ListenerNext(cap, s, junk))
  {
    if s.listener == Rearming && s.acks != [] {
      assert s.drained + s.acks == s.drained + [s.acks[0]] + s.acks[1..];
    }
  }

  lemma WorkQueues(cap: nat, s: Server, w: nat)
    requires QueuesOk(cap, s) && w < |s.workers|
    ensures QueuesOk(cap, WorkerNext(cap, s, w))
  {
    if s.workers[w] == Receiving && s.work != [] {
      assert s.taken + s.work == s.taken + [s.work[0]] + s.work[1..];
    }
  }

  lemma EventQueues(cap: nat, s: Server, e: Event)
    requires QueuesOk(cap, s)
    ensures QueuesOk(cap, Next(cap, s, e))
  {
    match e {
      case Listen(junk) => ListenQueues(cap, s, junk);
      case Work(w) => if w < |s.workers| { WorkQueues(cap, s, w); }
      case _ =>
    }
  }

  lemma HireHoldings(s: Server)
    requires HoldingsOk(s)
    ensures HoldingsOk(s.(workers := s.workers + [Receiving]))
  {
    GatherAppend(s.workers, Receiving, Holding);
    assert Gather(s.workers, Holding) + multiset{} == Gather(s.workers, Holding);
  }

  /** Only the workers' steps and a hire touch what is taken, sent back and held. */
  lemma HoldingsFrame(cap: nat, s: Server, e: Event)
    requires !e.Work? && !e.Hire?
    ensures var s' := Next(cap, s, e);
            s'.taken == s.taken && s'.returned == s.returned && s'.workers == s.workers
  {
  }

  lemma EventHoldings(cap: nat, s: Server, e: Event)
    requires HoldingsOk(s)
    ensures HoldingsOk(Next(cap, s, e))
  {
    if e.Hire? {
      HireHoldings(s);
    } else if e.Work? {
      if e.w < |s.workers| { WorkHoldings(cap, s, e.w); }
    } else {
      HoldingsFrame(cap, s, e);
    }
  }

  lemma WorkHoldings(cap: nat, s: Server, w: nat)
    requires HoldingsOk(s) && w < |s.workers|
    ensures HoldingsOk(WorkerNext(cap, s, w))
  {
    var s' := WorkerNext(cap, s, w);
    match s.workers[w] {
      case Receiving =>
        if s.work != [] {
          GatherGain(s.workers, w, Serving(s.work[0]), Holding);
          Gained(s.taken, s.returned, Gather(s.workers, Holding), Gather(s'.workers, Holding), s.work[0]);
        }
      case Serving(fd) => GatherSame(s.workers, w, Acking(fd), Holding);
      case Acking(fd) =>
        if |s.acks| < cap {
          GatherLose(s.workers, w, Receiving, Holding);
          Lost(s.taken, s.returned, Gather(s.workers, Holding), Gather(s'.workers, Holding), fd);
        }
    }
  }

  lemma Gained(a: seq<int>, b: seq<int>, m: multiset<int>, m': multiset<int>, x: int)
    requires multiset(a) == multiset(b) + m && m' == m + multiset{x}
    ensures multiset(a + [x]) == multiset(b) + m'
  {
  }

  lemma Lost(a: seq<int>, b: seq<int>, m: multiset<int>, m': multiset<int>, x: int)
    requires multiset(a) == multiset(b) + m && m == m' + multiset{x}
    ensures multiset(a) == multiset(b + [x]) + m'
  {
  }

  lemma EventDispatched(cap: nat, s: Server, e: Event)
    requires DispatchedOk(s) && ListenerOk(cap, s)
    ensures DispatchedOk(Next(cap, s, e))
  {
    EventFds(cap, s, e);
    var s' := Next(cap, s, e);
    if s'.dispatched != s.dispatched {
      var k := s.listener.k;
      assert s'.dispatched == s.dispatched + [Fds(s.pfds)[k]];
    }
  }

  lemma EventInv(cap: nat, s: Server, e: Event)
    requires Inv(cap, s)
    ensures Inv(cap, Next(cap, s, e))
  {
    EventListener(cap, s, e);
    EventDistinct(cap, s, e);
    EventTable(cap, s, e);
    EventQueues(cap, s, e);
    EventHoldings(cap, s, e);
    EventDispatched(cap, s, e);
  }

  lemma {:induction false} RunInv(cap: nat, s: Server, es: seq<Event>)
    requires Inv(cap, s)
    ensures Inv(cap, Run(cap, s, es))
    decreases |es|
  {
    if es != [] {
      EventInv(cap, s, es[0]);
      RunInv(cap, Next(cap, s, es[0]), es[1..]);
    }
  }

  // ----- What holds over every run -----

  /** Every accepted socket has exactly one entry, in the order of acceptance, or is still on its way; the
      served semaphore counts the entries; every entry goes on asking for POLLIN. */
  lemma TableGrowsInOrder(cap: nat, es: seq<Event>)
    ensures var s := Run(cap, INIT, es);
            && s.accepted == Fds(s.pfds) + s.arriving && Distinct(Fds(s.pfds))
            && s.served == |s.pfds| && |s.arriving| <= cap && AllAsk(s.pfds)
  {
    RunInv(cap, INIT, es);
    var s := Run(cap, INIT, es);
    assert Fds(s.pfds) == s.accepted[..|s.pfds|];
  }

  /** Dispatches are conserved: what was dispatched is taken, in order, or still queued; what was taken is
      held by a worker or was sent back; what was sent back is drained, in order, or still queued. */
  lemma DispatchesConserved(cap: nat, es: seq<Event>)
    ensures var s := Run(cap, INIT, es);
            && s.dispatched == s.taken + s.work && |s.work| <= cap
            && multiset(s.taken) == Gather(s.workers, Holding) + multiset(s.returned)
            && s.returned == s.drained + s.acks && |s.acks| <= cap
  {
    RunInv(cap, INIT, es);
  }

  /** Every socket in a queue or with a worker is in the table. */
  lemma EverySocketIsKnown(cap: nat, es: seq<Event>, fd: int)
    requires var s := Run(cap, INIT, es);
             fd in s.work || fd in s.acks || fd in Gather(s.workers, Holding)
    ensures fd in Fds(Run(cap, INIT, es).pfds)
  {
    RunInv(cap, INIT, es);
    Known(cap, Run(cap, INIT, es), fd);
  }

  lemma Known(cap: nat, s: Server, fd: int)
    requires QueuesOk(cap, s) && HoldingsOk(s) && DispatchedOk(s)
    requires fd in s.work || fd in s.acks || fd in Gather(s.workers, Holding)
    ensures fd in Fds(s.pfds)
  {
    if fd !in s.work {
      if fd in s.acks { assert fd in s.returned && fd in multiset(s.returned); }
      assert fd in multiset(s.taken);
    }
    assert fd in s.dispatched;
  }

  // ----- A round of the listener -----

  /** The sockets of the readable entries, in table order. */
  function ReadyFds(pfds: seq<PollFd>): seq<int> {
    if pfds == [] then [] else (if pfds[0].revents then [pfds[0].fd] else []) + ReadyFds(pfds[1..])
  }

  /** The sockets that the listener has still to send in its round. */
  function StillDue(s: Server): seq<int> {
    match s.listener
    case Polling => []
    case Dispatching(k) => if k <= |s.pfds| then ReadyFds(s.pfds[k..]) else []
    case _ => ReadyFds(s.pfds)
  }

  /** A new entry is due as well if its revents happened to be set. */
  function JunkOf(s: Server, e: Event): seq<int> {
    if e.Listen? && e.junk && s.listener == Registering && s.incoming && s.arriving != [] then [s.arriving[0]] else []
  }

  function Junk(cap: nat, s: Server, es: seq<Event>): seq<int>
    decreases |es|
  {
    if es == [] then [] else JunkOf(s, es[0]) + Junk(cap, Next(cap, s, es[0]), es[1..])
  }

  /** The listener does not poll before the end. */
  predicate OneRound(cap: nat, s: Server, es: seq<Event>)
    decreases |es|
  {
    es != [] ==> s.listener != Polling && OneRound(cap, Next(cap, s, es[0]), es[1..])
  }

  lemma {:induction false} ReadyAppend(pfds: seq<PollFd>, entry: PollFd)
    ensures ReadyFds(pfds + [entry]) == ReadyFds(pfds) + if entry.revents then [entry.fd] else []
  {
    if pfds != [] {
      ReadyAppend(pfds[1..], entry);
      assert (pfds + [entry])[1..] == pfds[1..] + [entry];
    }
  }

  lemma ReadyFrom(pfds: seq<PollFd>, k: nat)
    requires k < |pfds|
    ensures ReadyFds(pfds[k..]) == (if pfds[k].revents then [pfds[k].fd] else []) + ReadyFds(pfds[k + 1..])
  {
    assert pfds[k..][0] == pfds[k] && pfds[k..][1..] == pfds[k + 1..];
  }

  /** What was sent and what is due in this round. */
  function Owed(s: Server): seq<int> { s.dispatched + StillDue(s) }

  predicate InTable(s: Server) { s.listener.Dispatching? ==> s.listener.k <= |s.pfds| }

  lemma SendDue(cap: nat, s: Server, k: nat)
    requires s.listener == Dispatching(k) && k < |s.pfds| && s.pfds[k].revents && |s.work| < cap
    ensures InTable(ListenerNext(cap, s, false)) && Owed(ListenerNext(cap, s, false)) == Owed(s)
  {
    var s' := ListenerNext(cap, s, false);
    ReadyFrom(s.pfds, k);
    assert s'.pfds[k + 1..] == s.pfds[k + 1..];
    ThreeParts(s.dispatched, [s.pfds[k].fd], ReadyFds(s.pfds[k + 1..]));
  }

  lemma DispatchDue(cap: nat, s: Server, k: nat)
    requires s.listener == Dispatching(k) && InTable(s)
    ensures InTable(ListenerNext(cap, s, false)) && Owed(ListenerNext(cap, s, false)) == Owed(s)
  {
    if k < |s.pfds| {
      if s.pfds[k].revents {
        if |s.work| < cap { SendDue(cap, s, k); }
      } else {
        ReadyFrom(s.pfds, k);
        assert [] + ReadyFds(s.pfds[k + 1..]) == ReadyFds(s.pfds[k + 1..]);
      }
    }
  }

  /** Before its tests of the table the listener only learns what is due. */
  lemma LearnDue(cap: nat, s: Server, junk: bool)
    requires AllAsk(s.pfds) && (s.listener == Registering || s.listener == Rearming)
    ensures var s' := ListenerNext(cap, s, junk);
            && InTable(s') && s'.dispatched == s.dispatched && StillDue(s') == StillDue(s) + JunkOf(s, Listen(junk))
  {
    var s' := ListenerNext(cap, s, junk);
    assert StillDue(s) + [] == StillDue(s);
    if s.listener == Registering && s.incoming && s.arriving != [] {
      ReadyAppend(s.pfds, PollFd(s.arriving[0], true, junk));
    } else if s.listener == Rearming {
      if s.acked && s.acks != [] { RearmedChangesNothing(s.pfds, s.acks[0]); }
      assert s'.pfds[0..] == s.pfds;
    }
  }

  lemma EventDue(cap: nat, s: Server, e: Event)
    requires AllAsk(s.pfds) && s.listener != Polling && InTable(s)
    ensures InTable(Next(cap, s, e)) && Owed(Next(cap, s, e)) == Owed(s) + JunkOf(s, e)
  {
    assert Owed(s) + [] == Owed(s);
    if e.Listen? {
      if s.listener.Dispatching? {
        DispatchDue(cap, s, s.listener.k);
      } else {
        LearnDue(cap, s, e.junk);
        ThreeParts(s.dispatched, StillDue(s), JunkOf(s, e));
      }
    } else {
      OthersLeaveRound(cap, s, e);
    }
  }

  lemma OthersLeaveRound(cap: nat, s: Server, e: Event)
    requires s.listener != Polling && !e.Listen?
    ensures var s' := Next(cap, s, e);
            s'.listener == s.listener && s'.pfds == s.pfds && s'.dispatched == s.dispatched
  {
  }

  lemma {:induction false} RoundDue(cap: nat, s: Server, es: seq<Event>)
    requires Inv(cap, s) && OneRound(cap, s, es) && InTable(s)
    ensures Owed(Run(cap, s, es)) == Owed(s) + Junk(cap, s, es)
    decreases |es|
  {
    if es == [] {
      assert Owed(s) + [] == Owed(s);
    } else {
      EventDue(cap, s, es[0]);
      EventInv(cap, s, es[0]);
      RoundDue(cap, Next(cap, s, es[0]), es[1..]);
      ThreeParts(Owed(s), JunkOf(s, es[0]), Junk(cap, Next(cap, s, es[0]), es[1..]));
    }
  }

  /** A round of the listener, from what poll reports back to the next poll, sends exactly the sockets of the
      entries reported readable, in table order, and a newly registered one whose revents happened to be set. */
  lemma RoundSendsTheReadable(cap: nat, es: seq<Event>, incoming: bool, acked: bool, ready: seq<bool>, round: seq<Event>)
    requires var s := Run(cap, INIT, es);
             && s.listener == Polling && Polled(s, incoming, acked, ready)
             && OneRound(cap, Next(cap, s, Poll(incoming, acked, ready)), round)
             && Run(cap, Next(cap, s, Poll(incoming, acked, ready)), round).listener == Polling
    ensures var s := Run(cap, INIT, es);
            var reported := Next(cap, s, Poll(incoming, acked, ready));
            Run(cap, reported, round).dispatched
            == s.dispatched + ReadyFds(Reported(s.pfds, ready)) + Junk(cap, reported, round)
  {
    var s := Run(cap, INIT, es);
    var reported := Next(cap, s, Poll(incoming, acked, ready));
    RunInv(cap, INIT, es);
    EventInv(cap, s, Poll(incoming, acked, ready));
    RoundDue(cap, reported, round);
    var s' := Run(cap, reported, round);
    assert s'.dispatched + [] == s'.dispatched;
  }

  /** A socket is among the readable ones exactly if some entry of it is. */
  lemma {:induction false} ReadyExactly(pfds: seq<PollFd>, fd: int)
    ensures fd in ReadyFds(pfds) <==> exists k :: 0 <= k < |pfds| && pfds[k].revents && pfds[k].fd == fd
  {
    if pfds != [] {
      ReadyExactly(pfds[1..], fd);
      if pfds[0].revents && pfds[0].fd == fd {
        assert fd in ReadyFds(pfds);
      }
      assert forall k :: 1 <= k < |pfds| ==> pfds[k] == pfds[1..][k - 1];
    }
  }

  // ----- Getting stuck -----

  /** The listener waits for room in the work queue and every worker for room in the other one. */
  predicate Blocked(cap: nat, s: Server) {
    && s.listener.Dispatching? && s.listener.k < |s.pfds| && s.pfds[s.listener.k].revents && |s.work| == cap
    && (forall w :: 0 <= w < |s.workers| ==> s.workers[w].Acking?)
    && (s.workers != [] ==> |s.acks| == cap)
  }

  /** No step of the listener, of a worker or of poll changes anything. */
  ghost predicate Stuck(cap: nat, s: Server) {
    && (forall junk :: Next(cap, s, Listen(junk)) == s)
    && (forall w :: Next(cap, s, Work(w)) == s)
    && (forall incoming, acked, ready :: Next(cap, s, Poll(incoming, acked, ready)) == s)
  }

  /** The reachable states from which nobody moves are exactly the blocked ones. */
  lemma StuckExactlyWhenBlocked(cap: nat, es: seq<Event>)
    requires cap > 0
    ensures Stuck(cap, Run(cap, INIT, es)) <==> Blocked(cap, Run(cap, INIT, es))
  {
    RunInv(cap, INIT, es);
    var s := Run(cap, INIT, es);
    if Stuck(cap, s) { StuckIsBlocked(cap, s); }
    if Blocked(cap, s) { BlockedIsStuck(cap, s); }
  }

  lemma StuckIsBlocked(cap: nat, s: Server)
    requires cap > 0 && Stuck(cap, s) && ListenerOk(cap, s) && |s.work| <= cap && |s.acks| <= cap
    ensures Blocked(cap, s)
  {
    var ready := seq(|s.pfds|, k => false);
    assert Next(cap, s, Poll(false, false, ready)) == s;
    assert Next(cap, s, Listen(false)) == s;
    StuckListener(cap, s);
    forall w | 0 <= w < |s.workers|
      ensures s.workers[w].Acking? && |s.acks| == cap
    {
      assert Next(cap, s, Work(w)) == s;
      assert WorkerNext(cap, s, w).workers[w] == s.workers[w];
    }
    if s.workers != [] { assert s.workers[0].Acking?; }
  }

  lemma StuckListener(cap: nat, s: Server)
    requires ListenerNext(cap, s, false) == s && s.listener != Polling && ListenerOk(cap, s) && |s.work| <= cap
    ensures s.listener.Dispatching? && s.listener.k < |s.pfds| && s.pfds[s.listener.k].revents && |s.work| == cap
  {
    var s' := ListenerNext(cap, s, false);
    assert s'.listener == s.listener;
  }

  lemma BlockedIsStuck(cap: nat, s: Server)
    requires Blocked(cap, s)
    ensures Stuck(cap, s)
  {
  }

  // ----- Sockets that are out -----

  /** The sockets waiting for a worker or with one. */
  function Out(s: Server): multiset<int> { multiset(s.work) + Gather(s.workers, Holding) }

  ghost predicate AtMostOnce(m: multiset<int>) { forall fd :: m[fd] <= 1 }

  ghost predicate Once(s: Server) { AtMostOnce(Out(s)) }

  predicate Sends(cap: nat, s: Server) {
    s.listener.Dispatching? && s.listener.k < |s.pfds| && s.pfds[s.listener.k].revents && |s.work| < cap
  }

  /** The listener sends a readable entry whose socket is still out. */
  predicate Resends(cap: nat, s: Server, e: Event) {
    e.Listen? && Sends(cap, s) && s.pfds[s.listener.k].fd in Out(s)
  }

  lemma ListenOut(cap: nat, s: Server, junk: bool)
    ensures Out(ListenerNext(cap, s, junk)) == Out(s) + if Sends(cap, s) then multiset{s.pfds[s.listener.k].fd} else multiset{}
  {
    var s' := ListenerNext(cap, s, junk);
    if Sends(cap, s) {
      assert s'.work == s.work + [s.pfds[s.listener.k].fd] && s'.workers == s.workers;
    } else {
      assert s'.work == s.work && s'.workers == s.workers;
    }
  }

  lemma TakeOut(q: seq<int>, m: multiset<int>, m': multiset<int>)
    requires q != [] && m' == m + multiset{q[0]}
    ensures multiset(q[1..]) + m' == multiset(q) + m
  {
    assert q == [q[0]] + q[1..];
  }

  /** A worker's step takes nothing new out, and its acknowledgement brings one socket back. */
  lemma WorkOut(cap: nat, s: Server, w: nat)
    requires w < |s.workers|
    ensures Out(WorkerNext(cap, s, w)) <= Out(s)
  {
    var s' := WorkerNext(cap, s, w);
    match s.workers[w] {
      case Receiving =>
        if s.work != [] {
          GatherGain(s.workers, w, Serving(s.work[0]), Holding);
          TakeOut(s.work, Gather(s.workers, Holding), Gather(s'.workers, Holding));
        }
      case Serving(fd) => GatherSame(s.workers, w, Acking(fd), Holding);
      case Acking(fd) => if |s.acks| < cap { AckOut(cap, s, w); }
    }
  }

  lemma AckOut(cap: nat, s: Server, w: nat)
    requires w < |s.workers| && s.workers[w].Acking? && |s.acks| < cap
    ensures Out(WorkerNext(cap, s, w)) <= Out(s)
  {
    var s' := WorkerNext(cap, s, w);
    GatherLose(s.workers, w, Receiving, Holding);
    assert s'.work == s.work && Gather(s'.workers, Holding) <= Gather(s.workers, Holding);
  }

  lemma HireOut(s: Server)
    ensures Out(s.(workers := s.workers + [Receiving])) == Out(s)
  {
    GatherAppend(s.workers, Receiving, Holding);
    assert Gather(s.workers, Holding) + multiset{} == Gather(s.workers, Holding);
  }

  /** One step keeps every socket out at most once exactly if it is not the resending one. */
  lemma StepOnceExactly(cap: nat, s: Server, e: Event)
    requires Once(s)
    ensures Once(Next(cap, s, e)) <==> !Resends(cap, s, e)
  {
    if e.Listen? {
      ListenOut(cap, s, e.junk);
      if Sends(cap, s) {
        OneMoreOut(Out(s), s.pfds[s.listener.k].fd);
      } else {
        assert Out(s) + multiset{} == Out(s);
      }
    } else {
      OtherOut(cap, s, e);
      FewerOut(Out(s), Out(Next(cap, s, e)));
    }
  }

  lemma OtherOut(cap: nat, s: Server, e: Event)
    requires !e.Listen?
    ensures Out(Next(cap, s, e)) <= Out(s)
  {
    if e.Work? {
      if e.w < |s.workers| { WorkOut(cap, s, e.w); }
    } else if e.Hire? {
      HireOut(s);
    } else {
      assert Next(cap, s, e).work == s.work && Next(cap, s, e).workers == s.workers;
    }
  }

  lemma FewerOut(m: multiset<int>, m': multiset<int>)
    requires AtMostOnce(m) && m' <= m
    ensures AtMostOnce(m')
  {
    forall fd
      ensures m'[fd] <= 1
    {
      assert m'[fd] <= m[fd];
    }
  }

  lemma OneMoreOut(out: multiset<int>, fd: int)
    requires AtMostOnce(out)
    ensures AtMostOnce(out + multiset{fd}) <==> fd !in out
  {
    if fd in out { assert (out + multiset{fd})[fd] == 2; }
  }

  /** In every state of a run each socket is out at most once. */
  ghost predicate AlwaysOnce(cap: nat, s: Server, es: seq<Event>)
    decreases |es|
  {
    Once(s) && (es != [] ==> AlwaysOnce(cap, Next(cap, s, es[0]), es[1..]))
  }

  predicate NeverResends(cap: nat, s: Server, es: seq<Event>)
    decreases |es|
  {
    es != [] ==> !Resends(cap, s, es[0]) && NeverResends(cap, Next(cap, s, es[0]), es[1..])
  }

  lemma {:induction false} AlwaysOnceExactly(cap: nat, s: Server, es: seq<Event>)
    requires Once(s)
    ensures AlwaysOnce(cap, s, es) <==> NeverResends(cap, s, es)
    decreases |es|
  {
    if es != [] {
      StepOnceExactly(cap, s, es[0]);
      var s' := Next(cap, s, es[0]);
      if Once(s') {
        AlwaysOnceExactly(cap, s', es[1..]);
      }
    }
  }

  /** In a run every socket is with at most one worker or queued for one, at any time, if and only if the
      listener never sends an entry whose socket is still out. */
  lemma ServedByOneExactly(cap: nat, es: seq<Event>)
    ensures AlwaysOnce(cap, INIT, es) <==> NeverResends(cap, INIT, es)
  {
    AlwaysOnceExactly(cap, INIT, es);
  }

  lemma {:induction false} OnceAtTheEnd(cap: nat, s: Server, es: seq<Event>)
    requires AlwaysOnce(cap, s, es)
    ensures Once(Run(cap, s, es))
    decreases |es|
  {
    if es != [] { OnceAtTheEnd(cap, Next(cap, s, es[0]), es[1..]); }
  }

  /** Then no two workers have the same socket, and none has one that is queued. */
  lemma WorkersShareNothing(cap: nat, es: seq<Event>, v: nat, w: nat)
    requires NeverResends(cap, INIT, es) && v < w < |Run(cap, INIT, es).workers|
    ensures var s := Run(cap, INIT, es);
            && Holding(s.workers[v]) !! Holding(s.workers[w])
            && Holding(s.workers[v]) !! multiset(s.work) && Holding(s.workers[w]) !! multiset(s.work)
  {
    ServedByOneExactly(cap, es);
    OnceAtTheEnd(cap, INIT, es);
    var s := Run(cap, INIT, es);
    GatherTwo(s.workers, v, w, Holding);
    Apart(multiset(s.work), Gather(s.workers, Holding), Holding(s.workers[v]), Holding(s.workers[w]));
  }

  lemma Apart(work: multiset<int>, held: multiset<int>, a: multiset<int>, b: multiset<int>)
    requires a + b <= held && AtMostOnce(work + held)
    ensures a !! b && a !! work && b !! work
  {
    forall fd
      ensures (fd !in a || fd !in b) && (fd !in a || fd !in work) && (fd !in b || fd !in work)
    {
      assert (a + b)[fd] <= held[fd] && (work + held)[fd] <= 1;
    }
  }

  // ----- The processes -----

  /** The search of the acknowledged socket in the table. */
  method FindEntry(pfds: seq<PollFd>, fd: int) returns (k: nat)
    ensures k <= |pfds| && Rearmed(pfds, fd) == if k < |pfds| then pfds[k := pfds[k].(events := true)] else pfds
    ensures forall j :: 0 <= j < k ==> pfds[j].fd != fd
    ensures k < |pfds| <==> fd in Fds(pfds)
    ensures k < |pfds| ==> pfds[k].fd == fd
  {
    k := 0;
    while k < |pfds| && pfds[k].fd != fd
      invariant 0 <= k <= |pfds|
      invariant forall j :: 0 <= j < k ==> pfds[j].fd != fd
    {
      k := k + 1;
    }
    RearmedAt(pfds, fd, k);
    if k < |pfds| { assert Fds(pfds)[k] == fd; }
  }

  lemma {:induction false} RearmedAt(pfds: seq<PollFd>, fd: int, k: nat)
    requires k <= |pfds| && (forall j :: 0 <= j < k ==> pfds[j].fd != fd) && (k < |pfds| ==> pfds[k].fd == fd)
    ensures Rearmed(pfds, fd) == if k < |pfds| then pfds[k := pfds[k].(events := true)] else pfds
    decreases k
  {
    if k > 0 {
      var rest := pfds[1..];
      assert forall j :: 0 <= j < k - 1 ==> rest[j] == pfds[j + 1];
      RearmedAt(rest, fd, k - 1);
      assert pfds == [pfds[0]] + rest;
    }
  }

  /** What poll leaves in the table, entry by entry. */
  method FillRevents(pfds: seq<PollFd>, ready: seq<bool>) returns (table: seq<PollFd>)
    requires |ready| == |pfds|
    ensures table == Reported(pfds, ready)
    ensures Fds(table) == Fds(pfds) && |table| == |ready| && forall k :: 0 <= k < |table| ==> table[k].revents == ready[k]
  {
    table := pfds;
    for k := 0 to |pfds|
      invariant |table| == |pfds|
      invariant forall j :: 0 <= j < k ==> table[j] == PollFd(pfds[j].fd, pfds[j].events, ready[j])
      invariant forall j :: k <= j < |pfds| ==> table[j] == pfds[j]
    {
      table := table[k := table[k].(revents := ready[k])];
    }
  }

  method RearmEntry(pfds: seq<PollFd>, fd: int) returns (table: seq<PollFd>)
    ensures table == Rearmed(pfds, fd)
  {
    table := pfds;
    var k := FindEntry(pfds, fd);
    if k < |pfds| { table := table[k := table[k].(events := true)]; }
  }

  class Processes {
    const cap: nat
    var arriving: seq<int>
    var pfds: seq<PollFd>
    var incoming: bool
    var acked: bool
    var listener: ListenerAt
    var served: nat
    var work: seq<int>
    var workers: seq<WorkerAt>
    var acks: seq<int>
    var accepted: seq<int>   // the history
    ghost var dispatched: seq<int>
    ghost var taken: seq<int>
    ghost var returned: seq<int>
    ghost var drained: seq<int>

    ghost function State(): Server
      reads this
    {
      Server(arriving, pfds, incoming, acked, listener, served, work, workers, acks,
             accepted, dispatched, taken, returned, drained)
    }

    constructor (cap: nat)
      ensures this.cap == cap && State() == INIT && Inv(cap, State())
    {
      this.cap := cap;
      arriving, pfds, incoming, acked, listener, served := [], [], false, false, Polling, 0;
      work, workers, acks := [], [], [];
      accepted, dispatched, taken, returned, drained := [], [], [], [], [];
    }

    /** The main thread sends a new socket to the listener. */
    method AcceptClient(fd: int)
      requires |arriving| < cap && fd !in accepted
      modifies this
      ensures State() == Next(cap, old(State()), Accept(fd))
    {
      arriving := arriving + [fd];
      accepted := accepted + [fd];
    }

    method HireWorker()
      modifies this
      ensures State() == Next(cap, old(State()), Hire)
    {
      workers := workers + [Receiving];
    }

    /** poll returns: revents of every entry is what was reported, and nothing else of the table changes. */
    method PollReturns(incoming': bool, acked': bool, ready: seq<bool>)
      requires listener == Polling && Polled(State(), incoming', acked', ready)
      modifies this`incoming, this`acked, this`pfds, this`listener
      ensures State() == Next(cap, old(State()), Poll(incoming', acked', ready))
      ensures Fds(pfds) == Fds(old(pfds)) && |pfds| == |ready| && forall k :: 0 <= k < |pfds| ==> pfds[k].revents == ready[k]
    {
      incoming, acked := incoming', acked';
      pfds := FillRevents(pfds, ready);
      listener := Registering;
    }

    /** One test of the listener's loop and what follows it. */
    method ListenerStep(junk: bool)
      modifies this
      ensures State() == Next(cap, old(State()), Listen(junk))
    {
      match listener {
        case Polling =>
        case Registering => Register(junk);
        case Rearming => Rearm();
        case Dispatching(k) => Dispatch(k);
      }
    }

    method Register(junk: bool)
      requires listener == Registering
      modifies this`listener, this`arriving, this`served, this`pfds, this`incoming
      ensures State() == ListenerNext(cap, old(State()), junk)
    {
      if !incoming {
        listener := Rearming;
      } else if arriving != [] {
        var fd := arriving[0];
        arriving := arriving[1..];
        served := served + 1;
        pfds := pfds + [PollFd(fd, true, junk)];
        incoming := false;
        listener := Rearming;
      }
    }

    method Rearm()
      requires listener == Rearming
      modifies this`listener, this`acks, this`drained, this`pfds, this`acked
      ensures State() == ListenerNext(cap, old(State()), false)
    {
      if !acked {
        listener := Dispatching(0);
      } else if acks != [] {
        pfds := RearmEntry(pfds, acks[0]);
        drained := drained + [acks[0]];
        acks := acks[1..];
        acked := false;
        listener := Dispatching(0);
      }
    }

    method Dispatch(k: nat)
      requires listener == Dispatching(k)
      modifies this`listener, this`work, this`dispatched, this`pfds
      ensures State() == ListenerNext(cap, old(State()), false)
    {
      if k >= |pfds| {
        listener := Polling;
      } else if !pfds[k].revents {
        listener := Dispatching(k + 1);
      } else if |work| < cap {
        work := work + [pfds[k].fd];
        dispatched := dispatched + [pfds[k].fd];
        pfds := pfds[k := pfds[k].(revents := false)];
        listener := Dispatching(k + 1);
      }
    }

    method WorkerStep(w: nat)
      requires w < |workers|
      modifies this`workers, this`work, this`taken, this`acks, this`returned
      ensures State() == Next(cap, old(State()), Work(w))
    {
      match workers[w] {
        case Receiving =>
          if work != [] {
            workers := workers[w := Serving(work[0])];
            taken := taken + [work[0]];
            work := work[1..];
          }
        case Serving(fd) => workers := workers[w := Acking(fd)];
        case Acking(fd) =>
          if |acks| < cap {
            acks := acks + [fd];
            returned := returned + [fd];
            workers := workers[w := Receiving];
          }
      }
    }

    method Perform(e: Event)
      requires Inv(cap, State())
      modifies this
      ensures State() == Next(cap, old(State()), e) && Inv(cap, State())
    {
      EventInv(cap, State(), e);
      match e {
        case Accept(fd) => if |arriving| < cap && fd !in accepted { AcceptClient(fd); }
        case Hire => HireWorker();
        case Poll(i, a, ready) => if listener == Polling && CanReport(i, a, ready) { PollReturns(i, a, ready); }
        case Listen(junk) => ListenerStep(junk);
        case Work(w) => if w < |workers| { WorkerStep(w); }
      }
    }

    predicate CanReport(incoming': bool, acked': bool, ready: seq<bool>)
      reads this
      ensures CanReport(incoming', acked', ready) == Polled(State(), incoming', acked', ready)
    {
      && |ready| == |pfds| && (incoming' ==> arriving != []) && (acked' ==> acks != [])
      && forall k :: 0 <= k < |ready| && ready[k] ==> pfds[k].events
    }

    /** Whatever the schedule and whatever poll reports, every accepted socket has its one entry or is on its
        way, and no dispatch is lost. */
    method Execute(es: seq<Event>)
      requires Inv(cap, State())
      modifies this
      ensures State() == Run(cap, old(State()), es) && Inv(cap, State())
      ensures accepted == Fds(pfds) + arriving && served == |pfds| && Distinct(accepted)
      ensures dispatched == taken + work && returned == drained + acks
      ensures multiset(taken) == multiset(returned) + Gather(workers, Holding)
    {
      for k := 0 to |es|
        invariant Run(cap, State(), es[k..]) == Run(cap, old(State()), es) && Inv(cap, State())
      {
        Perform(es[k]);
      }
    }
  }
}
