/**
  What can go wrong in the producer server of homework16_client_service, and exactly when: the two queues and
  the pool can fill up with sockets while the listener still has one to send, and one socket can be with two
  workers at once.

  The runs are those in which poll reports at once whatever is there. The results come first.
 */
module ProducerRuns {
  import opened Sums
  import opened Producer

  /** poll reports at once whatever is there, and only returns with something to report. */
  predicate PromptStep(s: Server, e: Event) {
    e.Poll? ==> e.incoming == (s.arriving != []) && e.acked == (s.acks != []) && (e.incoming || e.acked || true in e.ready)
  }

  predicate Prompt(cap: nat, s: Server, es: seq<Event>)
    decreases |es|
  {
    es != [] ==> PromptStep(s, es[0]) && Prompt(cap, Next(cap, s, es[0]), es[1..])
  }

  // ----- When the server can get stuck -----

  /** A run in which poll reports promptly ends in a deadlock of a pool with a table of given size. */
  ghost predicate CanDeadlock(cap: nat, workers: nat, sockets: nat) {
    exists es :: DeadlockRun(cap, workers, sockets, es)
  }

  predicate DeadlockRun(cap: nat, workers: nat, sockets: nat, es: seq<Event>) {
    var s := Run(cap, INIT, es);
    Prompt(cap, INIT, es) && |s.workers| == workers && |s.pfds| == sockets && Blocked(cap, s)
  }

  /** A pool can deadlock exactly if the queues have room and there are two sockets, or one and no worker:
      no capacity and no number of workers is safe, and one socket alone is. */
  lemma DeadlockExactly(cap: nat, workers: nat, sockets: nat)
    ensures CanDeadlock(cap, workers, sockets) <==> cap > 0 && sockets >= if workers == 0 then 1 else 2
  {
    if cap > 0 && sockets >= if workers == 0 then 1 else 2 {
      DeadlockWith(cap, workers, sockets);
    } else {
      NoDeadlockWith(cap, workers, sockets);
    }
  }

  /** For every capacity, every pool and every two or more sockets there is a run into a deadlock: the two
      queues and the pool fill up while the listener still has a socket to send. */
  lemma DeadlockIsReachable(cap: nat, workers: nat, sockets: nat) returns (es: seq<Event>)
    requires cap > 0 && workers > 0 && sockets >= 2
    ensures var s := Run(cap, INIT, es);
            Prompt(cap, INIT, es) && |s.workers| == workers && |s.pfds| == sockets && Blocked(cap, s) && Stuck(cap, s)
  {
    es := Piled(cap, sockets, workers, cap);
    es := PollFirst(cap, es, 2, sockets, workers, workers, cap, cap);
    es := Refill(cap, es, sockets, workers, cap, cap - 1);
    es := SendOne(cap, es, 0, 2, sockets, workers, workers, cap - 1, cap);
    BlockedIsStuck(cap, Run(cap, INIT, es));
  }

  /** With one socket in the table a pool with workers never blocks. */
  lemma OneSocketNeverBlocks(cap: nat, es: seq<Event>)
    requires cap > 0 && Prompt(cap, INIT, es) && |Run(cap, INIT, es).pfds| <= 1 && Run(cap, INIT, es).workers != []
    ensures !Blocked(cap, Run(cap, INIT, es))
  {
    var s := Run(cap, INIT, es);
    RunRoom(cap, INIT, es);
    if forall w :: 0 <= w < |s.workers| ==> s.workers[w].Acking? {
      TotalWithin(s.workers, BusyUnit, 1, 1);
    }
  }

  // ----- When two workers serve one socket -----

  /** Two workers serve the same socket. */
  ghost predicate Shared(s: Server) {
    exists v, w :: 0 <= v < w < |s.workers| && s.workers[v].Serving? && s.workers[v] == s.workers[w]
  }

  /** So a pool of a given size can serve one socket twice at once exactly if it has two workers and the
      queues any room. */
  lemma ServedByTwoExactly(cap: nat, workers: nat)
    ensures (exists es :: |Run(cap, INIT, es).workers| == workers && Shared(Run(cap, INIT, es))) <==> cap > 0 && workers >= 2
  {
    if cap > 0 && workers >= 2 {
      var es := ServedByTwo(cap, workers);
      assert |Run(cap, INIT, es).workers| == workers && Shared(Run(cap, INIT, es));
    } else if cap == 0 {
      forall es
        ensures !Shared(Run(cap, INIT, es))
      {
        NothingServed(es);
      }
    }
  }

  /** An entry goes on asking for POLLIN while its socket is with a worker, so a second message on the same
      socket can be given to another worker at the same time. */
  lemma ServedByTwo(cap: nat, workers: nat) returns (es: seq<Event>)
    requires cap > 0 && workers >= 2
    ensures Prompt(cap, INIT, es) && |Run(cap, INIT, es).workers| == workers && Shared(Run(cap, INIT, es))
  {
    es := Registered(cap, 1, workers);
    es := ServeEntry(cap, es, 0, workers);
    es := ServeEntry(cap, es, 1, workers);
    assert Run(cap, INIT, es).workers[0] == Run(cap, INIT, es).workers[1];
  }

  // ----- Filling the pool and the queues -----

  lemma {:induction false} RunThen(cap: nat, s: Server, es: seq<Event>, e: Event)
    ensures Run(cap, s, es + [e]) == Next(cap, Run(cap, s, es), e)
    ensures Prompt(cap, s, es + [e]) <==> Prompt(cap, s, es) && PromptStep(Run(cap, s, es), e)
    decreases |es|
  {
    if es == [] {
      assert [e][1..] == [];
    } else {
      assert (es + [e])[1..] == es[1..] + [e];
      RunThen(cap, Next(cap, s, es[0]), es[1..], e);
    }
  }

  lemma Then(cap: nat, es: seq<Event>, e: Event) returns (es': seq<Event>)
    requires Prompt(cap, INIT, es) && PromptStep(Run(cap, INIT, es), e)
    ensures Run(cap, INIT, es') == Next(cap, Run(cap, INIT, es), e) && Prompt(cap, INIT, es')
  {
    es' := es + [e];
    RunThen(cap, INIT, es, e);
  }

  /** n sockets in the table; the first h workers wait to acknowledge and the others at mq_receive; q sockets
      wait for a worker and a acknowledgements for the listener. */
  predicate Crew(s: Server, n: nat, workers: nat, h: nat, q: nat, a: nat) {
    && |s.pfds| == n && AllAsk(s.pfds) && s.arriving == [] && |s.work| == q && |s.acks| == a
    && h <= |s.workers| == workers
    && forall w :: 0 <= w < workers ==> if w < h then s.workers[w].Acking? else s.workers[w] == Receiving
  }

  /** From entry k on, exactly the entries before m are readable. */
  predicate Readable(s: Server, k: nat, m: nat) { forall j :: k <= j < |s.pfds| ==> (s.pfds[j].revents <==> j < m) }

  predicate Below(s: Server, n: nat) { forall fd :: fd in s.accepted ==> fd < n }

  /** The pool is created. */
  lemma {:induction false} Hired(cap: nat, workers: nat) returns (es: seq<Event>)
    ensures var s := Run(cap, INIT, es);
            Prompt(cap, INIT, es) && Crew(s, 0, workers, 0, 0, 0) && s.listener == Polling && s.accepted == []
  {
    if workers == 0 {
      es := [];
    } else {
      es := Hired(cap, workers - 1);
      es := Then(cap, es, Hire);
    }
  }

  /** The listener goes over entries that are not readable. */
  lemma {:induction false} PassOver(cap: nat, es0: seq<Event>, k: nat, m: nat, n: nat, workers: nat, h: nat, q: nat, a: nat)
      returns (es: seq<Event>)
    requires var s := Run(cap, INIT, es0);
             Prompt(cap, INIT, es0) && Crew(s, n, workers, h, q, a) && s.listener == Dispatching(k) && m <= k <= n && Readable(s, k, m)
    ensures var s := Run(cap, INIT, es);
            && Prompt(cap, INIT, es) && Crew(s, n, workers, h, q, a) && s.listener == Polling
            && s.accepted == Run(cap, INIT, es0).accepted
    decreases n - k
  {
    es := Then(cap, es0, Listen(false));
    if k < n { es := PassOver(cap, es, k + 1, m, n, workers, h, q, a); }
  }

  /** The listener has polled a table without readable sockets, and nothing but a new one waits. */
  lemma PollNew(cap: nat, es0: seq<Event>, n: nat, workers: nat) returns (es: seq<Event>)
    requires cap > 0
    requires var s := Run(cap, INIT, es0);
             Prompt(cap, INIT, es0) && Crew(s, n, workers, 0, 0, 0) && s.listener == Polling && Below(s, n)
    ensures var s0, s := Run(cap, INIT, es0), Run(cap, INIT, es);
            Prompt(cap, INIT, es)
            && s == s0.(arriving := [n], accepted := s0.accepted + [n], incoming := true, acked := false,
                        pfds := Reported(s0.pfds, seq(|s0.pfds|, k => false)), listener := Registering)
  {
    var s := Run(cap, INIT, es0);
    es := Then(cap, es0, Accept(n));
    var none := seq(|s.pfds|, k => false);
    assert Run(cap, INIT, es) == s.(arriving := [n], accepted := s.accepted + [n]);
    assert Polled(Run(cap, INIT, es), true, false, none);
    es := Then(cap, es, Poll(true, false, none));
  }

  lemma RegisterOne(cap: nat, es0: seq<Event>, n: nat, workers: nat) returns (es: seq<Event>)
    requires cap > 0
    requires var s := Run(cap, INIT, es0);
             Prompt(cap, INIT, es0) && Crew(s, n, workers, 0, 0, 0) && s.listener == Polling && Below(s, n)
    ensures var s := Run(cap, INIT, es);
            && Prompt(cap, INIT, es) && Crew(s, n + 1, workers, 0, 0, 0) && s.listener == Dispatching(0)
            && Readable(s, 0, 0) && Below(s, n + 1)
  {
    es := PollNew(cap, es0, n, workers);
    var s := Run(cap, INIT, es);
    es := Then(cap, es, Listen(false));
    assert Run(cap, INIT, es)
      == s.(arriving := [], served := s.served + 1, pfds := s.pfds + [PollFd(n, true, false)], incoming := false, listener := Rearming);
    es := Then(cap, es, Listen(false));
  }

  /** n sockets register. */
  lemma {:induction false} Registered(cap: nat, n: nat, workers: nat) returns (es: seq<Event>)
    requires cap > 0
    ensures var s := Run(cap, INIT, es);
            Prompt(cap, INIT, es) && Crew(s, n, workers, 0, 0, 0) && s.listener == Polling && Below(s, n)
  {
    if n == 0 {
      es := Hired(cap, workers);
    } else {
      es := Registered(cap, n - 1, workers);
      es := RegisterOne(cap, es, n - 1, workers);
      es := PassOver(cap, es, 0, 0, n, workers, 0, 0, 0);
    }
  }

  /** poll reports the first m entries, and one acknowledgement if there is any. */
  lemma PollFirst(cap: nat, es0: seq<Event>, m: nat, n: nat, workers: nat, h: nat, q: nat, a: nat) returns (es: seq<Event>)
    requires var s := Run(cap, INIT, es0);
             Prompt(cap, INIT, es0) && Crew(s, n, workers, h, q, a) && s.listener == Polling && 1 <= m <= n
    ensures var s := Run(cap, INIT, es);
            && Prompt(cap, INIT, es) && Crew(s, n, workers, h, q, if a > 0 then a - 1 else 0)
            && s.listener == Dispatching(0) && Readable(s, 0, m)
  {
    var ready := seq(n, k => k < m);
    var s := Run(cap, INIT, es0);
    assert Polled(s, false, a > 0, ready) && ready[0];
    es := Then(cap, es0, Poll(false, a > 0, ready));
    var polled := s.(incoming := false, acked := a > 0, pfds := Reported(s.pfds, ready), listener := Registering);
    assert Run(cap, INIT, es) == polled;
    es := Then(cap, es, Listen(false));
    assert Run(cap, INIT, es) == polled.(listener := Rearming);
    if a > 0 { RearmedChangesNothing(polled.pfds, polled.acks[0]); }
    es := Then(cap, es, Listen(false));
  }

  lemma SendOne(cap: nat, es0: seq<Event>, k: nat, m: nat, n: nat, workers: nat, h: nat, q: nat, a: nat) returns (es: seq<Event>)
    requires var s := Run(cap, INIT, es0);
             && Prompt(cap, INIT, es0) && Crew(s, n, workers, h, q, a) && s.listener == Dispatching(k)
             && k < m <= n && Readable(s, k, m) && q < cap
    ensures var s := Run(cap, INIT, es);
            && Prompt(cap, INIT, es) && Crew(s, n, workers, h, q + 1, a) && s.listener == Dispatching(k + 1)
            && Readable(s, k + 1, m)
  {
    es := Then(cap, es0, Listen(false));
  }

  /** A worker takes a socket and serves it. */
  lemma Employ(cap: nat, es0: seq<Event>, n: nat, workers: nat, h: nat, q: nat) returns (es: seq<Event>)
    requires var s := Run(cap, INIT, es0);
             Prompt(cap, INIT, es0) && Crew(s, n, workers, h, q, 0) && h < workers && q > 0
    ensures var s0, s := Run(cap, INIT, es0), Run(cap, INIT, es);
            && Prompt(cap, INIT, es) && Crew(s, n, workers, h + 1, q - 1, 0)
            && s.listener == s0.listener && s.pfds == s0.pfds
  {
    es := Then(cap, es0, Work(h));
    es := Then(cap, es, Work(h));
  }

  /** The first worker acknowledges and takes the next socket. */
  lemma Refill(cap: nat, es0: seq<Event>, n: nat, workers: nat, q: nat, a: nat) returns (es: seq<Event>)
    requires var s := Run(cap, INIT, es0);
             Prompt(cap, INIT, es0) && Crew(s, n, workers, workers, q, a) && workers > 0 && q > 0 && a < cap
    ensures var s0, s := Run(cap, INIT, es0), Run(cap, INIT, es);
            && Prompt(cap, INIT, es) && Crew(s, n, workers, workers, q - 1, a + 1)
            && s.listener == s0.listener && s.pfds == s0.pfds
  {
    es := Then(cap, es0, Work(0));
    es := Then(cap, es, Work(0));
    es := Then(cap, es, Work(0));
  }

  /** One socket after the other keeps the first h workers busy. */
  lemma {:induction false} Staffed(cap: nat, n: nat, workers: nat, h: nat) returns (es: seq<Event>)
    requires cap > 0 && n > 0 && h <= workers
    ensures var s := Run(cap, INIT, es);
            Prompt(cap, INIT, es) && Crew(s, n, workers, h, 0, 0) && s.listener == Polling
  {
    if h == 0 {
      es := Registered(cap, n, workers);
    } else {
      es := Staffed(cap, n, workers, h - 1);
      es := PollFirst(cap, es, 1, n, workers, h - 1, 0, 0);
      es := SendOne(cap, es, 0, 1, n, workers, h - 1, 0, 0);
      es := Employ(cap, es, n, workers, h - 1, 1);
      es := PassOver(cap, es, 1, 1, n, workers, h, 0, 0);
    }
  }

  /** Then the work queue fills up. */
  lemma {:induction false} Queued(cap: nat, n: nat, workers: nat, q: nat) returns (es: seq<Event>)
    requires cap > 0 && n > 0 && q <= cap
    ensures var s := Run(cap, INIT, es);
            Prompt(cap, INIT, es) && Crew(s, n, workers, workers, q, 0) && s.listener == Polling
  {
    if q == 0 {
      es := Staffed(cap, n, workers, workers);
    } else {
      es := Queued(cap, n, workers, q - 1);
      es := PollFirst(cap, es, 1, n, workers, workers, q - 1, 0);
      es := SendOne(cap, es, 0, 1, n, workers, workers, q - 1, 0);
      es := PassOver(cap, es, 1, 1, n, workers, workers, q, 0);
    }
  }

  /** Two readable sockets in a round put one acknowledgement more into the queue than the round takes out. */
  lemma PileOne(cap: nat, es0: seq<Event>, n: nat, workers: nat, a: nat) returns (es: seq<Event>)
    requires n >= 2 && workers > 0 && 1 <= a < cap
    requires var s := Run(cap, INIT, es0);
             Prompt(cap, INIT, es0) && Crew(s, n, workers, workers, cap, a) && s.listener == Polling
    ensures var s := Run(cap, INIT, es);
            Prompt(cap, INIT, es) && Crew(s, n, workers, workers, cap, a + 1) && s.listener == Polling
  {
    es := PollFirst(cap, es0, 2, n, workers, workers, cap, a);
    es := Refill(cap, es, n, workers, cap, a - 1);
    es := SendOne(cap, es, 0, 2, n, workers, workers, cap - 1, a);
    es := Refill(cap, es, n, workers, cap, a);
    es := SendOne(cap, es, 1, 2, n, workers, workers, cap - 1, a + 1);
    es := PassOver(cap, es, 2, 2, n, workers, workers, cap, a + 1);
  }

  /** So the acknowledgement queue fills up as well. */
  lemma {:induction false} Piled(cap: nat, n: nat, workers: nat, a: nat) returns (es: seq<Event>)
    requires n >= 2 && workers > 0 && 1 <= a <= cap
    ensures var s := Run(cap, INIT, es);
            Prompt(cap, INIT, es) && Crew(s, n, workers, workers, cap, a) && s.listener == Polling
  {
    if a == 1 {
      es := Queued(cap, n, workers, cap);
      es := PollFirst(cap, es, 1, n, workers, workers, cap, 0);
      es := Refill(cap, es, n, workers, cap, 0);
      es := SendOne(cap, es, 0, 1, n, workers, workers, cap - 1, 1);
      es := PassOver(cap, es, 1, 1, n, workers, workers, cap, 1);
    } else {
      es := Piled(cap, n, workers, a - 1);
      es := PileOne(cap, es, n, workers, a - 1);
    }
  }

  /** Without workers one socket suffices. */
  lemma UnattendedDeadlock(cap: nat, sockets: nat) returns (es: seq<Event>)
    requires cap > 0 && sockets >= 1
    ensures var s := Run(cap, INIT, es);
            Prompt(cap, INIT, es) && s.workers == [] && |s.pfds| == sockets && Blocked(cap, s)
  {
    es := Queued(cap, sockets, 0, cap);
    es := PollFirst(cap, es, 1, sockets, 0, 0, cap, 0);
  }

  // ----- Why one socket is not enough -----

  function BusyUnit(w: WorkerAt): int { if w == Receiving then 0 else 1 }

  /** The sockets on their way to the workers, with them and on their way back. */
  function Circulating(s: Server): int { |s.work| + Total(s.workers, BusyUnit) + |s.acks| }

  /** With no acknowledgement reported one queue was empty; before the first entry is tested there is room. */
  predicate RoomOk(cap: nat, s: Server) {
    && ((s.listener == Registering || s.listener == Rearming) && !s.acked ==> Circulating(s) <= cap + |s.workers|)
    && (s.listener == Dispatching(0) ==> Circulating(s) < cap + cap + |s.workers|)
  }

  lemma CirculatingBounded(cap: nat, s: Server)
    requires QueuesOk(cap, s)
    ensures Circulating(s) <= |s.acks| + cap + |s.workers| <= cap + cap + |s.workers|
  {
    TotalAtMostOnes(s.workers, BusyUnit);
  }

  lemma ListenRoom(cap: nat, s: Server, junk: bool)
    requires cap > 0 && RoomOk(cap, s) && QueuesOk(cap, s)
    ensures RoomOk(cap, ListenerNext(cap, s, junk))
  {
    CirculatingBounded(cap, s);
    var s' := ListenerNext(cap, s, junk);
    assert s'.workers == s.workers;
  }

  lemma WorkRoom(cap: nat, s: Server, w: nat)
    requires RoomOk(cap, s) && w < |s.workers|
    ensures RoomOk(cap, WorkerNext(cap, s, w))
  {
    var s' := WorkerNext(cap, s, w);
    TotalUpdate(s.workers, w, s'.workers[w], BusyUnit);
    assert s'.workers == s.workers[w := s'.workers[w]] && s'.listener == s.listener && s'.acked == s.acked;
    assert Circulating(s') == Circulating(s);
  }

  lemma EventRoom(cap: nat, s: Server, e: Event)
    requires cap > 0 && RoomOk(cap, s) && QueuesOk(cap, s) && PromptStep(s, e)
    ensures RoomOk(cap, Next(cap, s, e))
  {
    match e {
      case Listen(junk) => ListenRoom(cap, s, junk);
      case Work(w) => if w < |s.workers| { WorkRoom(cap, s, w); }
      case Hire => TotalAppend(s.workers, Receiving, BusyUnit);
      case _ => CirculatingBounded(cap, s);
    }
  }

  lemma {:induction false} RunRoom(cap: nat, s: Server, es: seq<Event>)
    requires cap > 0 && RoomOk(cap, s) && QueuesOk(cap, s) && Prompt(cap, s, es)
    ensures RoomOk(cap, Run(cap, s, es)) && QueuesOk(cap, Run(cap, s, es))
    decreases |es|
  {
    if es != [] {
      EventRoom(cap, s, es[0]);
      EventQueues(cap, s, es[0]);
      RunRoom(cap, Next(cap, s, es[0]), es[1..]);
    }
  }

  /** Queues without room let no socket in. */
  lemma {:induction false} NothingAccepted(s: Server, es: seq<Event>)
    requires s.accepted == []
    ensures Run(0, s, es).accepted == []
    decreases |es|
  {
    if es != [] { NothingAccepted(Next(0, s, es[0]), es[1..]); }
  }

  lemma NoRoomNeverBlocks(es: seq<Event>)
    ensures !Blocked(0, Run(0, INIT, es))
  {
    NothingAccepted(INIT, es);
    RunInv(0, INIT, es);
    assert |Fds(Run(0, INIT, es).pfds)| == 0;
  }

  lemma DeadlockWith(cap: nat, workers: nat, sockets: nat)
    requires cap > 0 && sockets >= if workers == 0 then 1 else 2
    ensures CanDeadlock(cap, workers, sockets)
  {
    var es: seq<Event>;
    if workers > 0 {
      es := DeadlockIsReachable(cap, workers, sockets);
    } else {
      es := UnattendedDeadlock(cap, sockets);
    }
    assert DeadlockRun(cap, workers, sockets, es);
  }

  lemma NoDeadlockWith(cap: nat, workers: nat, sockets: nat)
    requires !(cap > 0 && sockets >= if workers == 0 then 1 else 2)
    ensures !CanDeadlock(cap, workers, sockets)
  {
    forall es
      ensures !DeadlockRun(cap, workers, sockets, es)
    {
      NoDeadlockRun(cap, workers, sockets, es);
    }
  }

  lemma NoDeadlockRun(cap: nat, workers: nat, sockets: nat, es: seq<Event>)
    requires !(cap > 0 && sockets >= if workers == 0 then 1 else 2)
    ensures !DeadlockRun(cap, workers, sockets, es)
  {
    var s := Run(cap, INIT, es);
    if cap == 0 {
      NoRoomNeverBlocks(es);
    } else if workers > 0 && Prompt(cap, INIT, es) && |s.pfds| <= 1 && s.workers != [] {
      OneSocketNeverBlocks(cap, es);
    }
  }

  /** The only socket is readable and worker w gets it. */
  lemma ServeEntry(cap: nat, es0: seq<Event>, w: nat, workers: nat) returns (es: seq<Event>)
    requires cap > 0 && Prompt(cap, INIT, es0)
    requires var s := Run(cap, INIT, es0);
             && s.listener == Polling && |s.pfds| == 1 && AllAsk(s.pfds) && s.arriving == [] && s.work == [] && s.acks == []
             && w < |s.workers| == workers && s.workers[w] == Receiving
    ensures Prompt(cap, INIT, es)
    ensures var s0, s := Run(cap, INIT, es0), Run(cap, INIT, es);
            && s.listener == Polling && |s.pfds| == 1 && AllAsk(s.pfds) && s.arriving == [] && s.work == [] && s.acks == []
            && s.pfds[0].fd == s0.pfds[0].fd && s.workers == s0.workers[w := Serving(s0.pfds[0].fd)]
  {
    var s := Run(cap, INIT, es0);
    assert Polled(s, false, false, [true]) && [true][0];
    es := Then(cap, es0, Poll(false, false, [true]));
    es := Then(cap, es, Listen(false));
    es := Then(cap, es, Listen(false));
    assert Run(cap, INIT, es)
      == s.(incoming := false, acked := false, pfds := Reported(s.pfds, [true]), listener := Dispatching(0));
    es := Then(cap, es, Listen(false));
    es := Then(cap, es, Listen(false));
    es := Then(cap, es, Work(w));
  }

  lemma NothingServed(es: seq<Event>)
    ensures !Shared(Run(0, INIT, es))
  {
    NothingAccepted(INIT, es);
    RunInv(0, INIT, es);
    var s := Run(0, INIT, es);
    assert |Fds(s.pfds)| == 0;
    forall w | 0 <= w < |s.workers|
      ensures !s.workers[w].Serving?
    {
      GatherUpdate(s.workers, w, s.workers[w], Holding);
      if s.workers[w].Serving? {
        assert s.workers[w].fd in Holding(s.workers[w]);
        Known(0, s, s.workers[w].fd);
      }
    }
  }
}
