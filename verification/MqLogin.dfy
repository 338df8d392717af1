/**
  The login queue of homework12_message_queue: one bounded queue carries the clients' requests and the
  server's replies, and whoever receives a message meant for the other side sends it again.
 */
module MqLogin {
  import opened Sums
  import opened PosixQueue

  const USER_PRIO := 1     // T3_USER_PRIO: a request
  const SERVER_PRIO := 2   // T3_SERVER_PRIO: a reply, the body is the id

  datatype Client =
    | Asking               // before sending its request
    | Listening            // at mq_receive
    | Returning            // has received a request and sends it again
    | LoggedIn(id: nat)

  datatype ServerAt = Receiving | Requeueing(id: nat) | Replying(id: nat)

  /** The queue, the processes, users_count, and the ids dropped by the server's non-blocking sends. */
  datatype Login = Login(
    queue: seq<Item<nat>>, server: ServerAt, clients: seq<Client>, registered: nat, asked: nat, lost: seq<nat>)

  datatype Event = Step(i: nat) | Serve

  function Init(clients: nat): Login {
    Login([], Receiving, seq(clients, i => Asking), 0, 0, [])
  }

  /** One atomic step with a queue of capacity cap; a blocked process stays where it is. */
  function Next(cap: nat, s: Login, e: Event): Login {
    match e
    case Step(i) => if i < |s.clients| then ClientNext(cap, s, i) else s
    case Serve => ServerNext(cap, s)
  }

  /** The client's sends and receives block. */
  function ClientNext(cap: nat, s: Login, i: nat): Login
    requires i < |s.clients|
  {
    match s.clients[i]
    case Asking =>
      if |s.queue| >= cap then s
      else s.(queue := Insert(s.queue, Item(USER_PRIO, 0)), clients := s.clients[i := Listening], asked := s.asked + 1)
    case Listening =>
      if s.queue == [] then s
      else
        var item := s.queue[0];
        s.(queue := s.queue[1..],
           clients := s.clients[i := if item.prio == USER_PRIO then Returning
                                     else if item.prio == SERVER_PRIO then LoggedIn(item.body) else Listening])
    case Returning =>
      if |s.queue| >= cap then s
      else s.(queue := Insert(s.queue, Item(USER_PRIO, 0)), clients := s.clients[i := Listening])
    case LoggedIn(_) => s
  }

  /** The server's sends do not block: a full queue drops the message. */
  function ServerNext(cap: nat, s: Login): Login {
    match s.server
    case Receiving =>
      if s.queue == [] then s
      else
        var item, rest := s.queue[0], s.queue[1..];
        if item.prio == SERVER_PRIO then s.(queue := rest, server := Requeueing(item.body))
        else if item.prio == USER_PRIO then s.(queue := rest, server := Replying(s.registered + 1), registered := s.registered + 1)
        else s.(queue := rest)
    case Requeueing(id) => Replied(cap, s, id)
    case Replying(id) => Replied(cap, s, id)
  }

  function Replied(cap: nat, s: Login, id: nat): Login {
    if |s.queue| < cap then s.(queue := Insert(s.queue, Item(SERVER_PRIO, id)), server := Receiving)
    else s.(server := Receiving, lost := s.lost + [id])
  }

  function Run(cap: nat, s: Login, es: seq<Event>): Login
    decreases |es|
  {
    if es == [] then s else Run(cap, Next(cap, s, es[0]), es[1..])
  }

  // ----- Accounting -----

  function Request(m: Item<nat>): int { if m.prio == USER_PRIO then 1 else 0 }
  function Reply(m: Item<nat>): int { if m.prio == SERVER_PRIO then 1 else 0 }
  function HeldRequest(c: Client): int { if c == Returning then 1 else 0 }
  function HeldReply(at: ServerAt): int { if at == Receiving then 0 else 1 }

  /** The ids carried by messages, clients and the server. */
  function IdsOf(m: Item<nat>): multiset<nat> { if m.prio == SERVER_PRIO then multiset{m.body} else multiset{} }
  function IdOf(c: Client): multiset<nat> { if c.LoggedIn? then multiset{c.id} else multiset{} }
  function IdAt(at: ServerAt): multiset<nat> { if at == Receiving then multiset{} else multiset{at.id} }

  /** The ids that n registrations hand out. */
  function Issued(n: nat): multiset<nat> {
    if n == 0 then multiset{} else Issued(n - 1) + multiset{n}
  }

  ghost predicate QueueOk(cap: nat, s: Login) {
    && |s.queue| <= cap && Sorted(s.queue)
    && forall k :: 0 <= k < |s.queue| ==> s.queue[k].prio == USER_PRIO || s.queue[k].prio == SERVER_PRIO
  }

  ghost predicate RequestsOk(s: Login) {
    Total(s.queue, Request) + Total(s.clients, HeldRequest) + s.registered == s.asked
  }

  ghost predicate IdsOk(s: Login) {
    Gather(s.clients, IdOf) + Gather(s.queue, IdsOf) + IdAt(s.server) + multiset(s.lost) == Issued(s.registered)
  }

  /** At most one reply is under way: a reply overtakes every request. */
  ghost predicate OneReply(s: Login) {
    Total(s.queue, Reply) + HeldReply(s.server) <= 1
  }

  ghost predicate Inv(cap: nat, s: Login) { QueueOk(cap, s) && RequestsOk(s) && IdsOk(s) && OneReply(s) }

  // ----- What the queue operations do to the accounts -----

  /** A reply is sent. */
  lemma SentReply(cap: nat, q: seq<Item<nat>>, id: nat)
    requires Sorted(q)
    ensures var q' := Insert(q, Item(SERVER_PRIO, id));
            && Sorted(q') && Total(q', Request) == Total(q, Request) && Total(q', Reply) == Total(q, Reply) + 1
            && Gather(q', IdsOf) == Gather(q, IdsOf) + multiset{id}
  {
    var m := Item(SERVER_PRIO, id);
    InsertSorted(q, m);
    InsertTotal(q, m, Request);
    InsertTotal(q, m, Reply);
    InsertGather(q, m, IdsOf);
  }

  /** A message is received. */
  lemma Received(q: seq<Item<nat>>)
    requires q != [] && Sorted(q)
    ensures Sorted(q[1..])
    ensures Total(q, Request) == Request(q[0]) + Total(q[1..], Request)
    ensures Total(q, Reply) == Reply(q[0]) + Total(q[1..], Reply)
    ensures Gather(q, IdsOf) == IdsOf(q[0]) + Gather(q[1..], IdsOf)
  {
    TotalTail(q, Request);
    TotalTail(q, Reply);
    GatherTail(q, IdsOf);
  }

  /** A request at the head means that no reply waits behind it. */
  lemma RequestFirst(q: seq<Item<nat>>)
    requires q != [] && Sorted(q) && q[0].prio == USER_PRIO
    ensures Total(q, Reply) == 0
  {
    forall m | m in q
      ensures Reply(m) == 0
    {
      var k :| 0 <= k < |q| && q[k] == m;
      assert k == 0 || q[0].prio >= q[k].prio;
    }
    TotalWithin(q, Reply, 0, 0);
  }

  /** Part x moves from b to a. */
  lemma Moved<V>(a: multiset<V>, b: multiset<V>, a': multiset<V>, b': multiset<V>, x: multiset<V>)
    requires a' == a + x && b == x + b'
    ensures a' + b' == a + b
  {
  }

  /** Part x moves from q to c, in the middle of a sum. */
  lemma MovedInner<V>(a: multiset<V>, b: multiset<V>, c: multiset<V>, b': multiset<V>, c': multiset<V>, x: multiset<V>)
    requires c' == c + x && b == x + b'
    ensures a + b' + c' == a + b + c
  {
  }

  // ----- The steps -----

  predicate Sends(cap: nat, s: Login, i: nat)
    requires i < |s.clients|
  {
    (s.clients[i] == Asking || s.clients[i] == Returning) && |s.queue| < cap
  }

  predicate Takes(s: Login, i: nat)
    requires i < |s.clients|
  {
    s.clients[i] == Listening && s.queue != []
  }

  lemma ClientSends(cap: nat, s: Login, i: nat)
    requires i < |s.clients| && Sends(cap, s, i) && QueueOk(cap, s) && RequestsOk(s) && OneReply(s)
    ensures var s' := ClientNext(cap, s, i);
            QueueOk(cap, s') && RequestsOk(s') && OneReply(s')
  {
    InsertPrios(s.queue, Item(USER_PRIO, 0));
    TotalUpdate(s.clients, i, Listening, HeldRequest);
  }

  lemma ClientTakes(cap: nat, s: Login, i: nat)
    requires i < |s.clients| && Takes(s, i) && QueueOk(cap, s) && RequestsOk(s) && OneReply(s)
    ensures var s' := ClientNext(cap, s, i);
            QueueOk(cap, s') && RequestsOk(s') && OneReply(s')
  {
    Received(s.queue);
    var v := ClientNext(cap, s, i).clients[i];
    assert HeldRequest(v) == Request(s.queue[0]);
    TotalUpdate(s.clients, i, v, HeldRequest);
  }

  lemma {:induction false} InsertPrios(q: seq<Item<nat>>, m: Item<nat>)
    requires forall k :: 0 <= k < |q| ==> q[k].prio == USER_PRIO || q[k].prio == SERVER_PRIO
    requires m.prio == USER_PRIO || m.prio == SERVER_PRIO
    ensures forall k :: 0 <= k <= |q| ==> Insert(q, m)[k].prio == USER_PRIO || Insert(q, m)[k].prio == SERVER_PRIO
  {
    if !(q == [] || q[|q| - 1].prio >= m.prio) { InsertPrios(q[..|q| - 1], m); }
  }

  lemma RequestSentIds(q: seq<Item<nat>>)
    ensures Gather(Insert(q, Item(USER_PRIO, 0)), IdsOf) == Gather(q, IdsOf)
  {
    InsertGather(q, Item(USER_PRIO, 0), IdsOf);
    assert Gather(q, IdsOf) + multiset{} == Gather(q, IdsOf);
  }

  lemma ClientSendsIds(cap: nat, s: Login, i: nat)
    requires i < |s.clients| && Sends(cap, s, i) && IdsOk(s)
    ensures IdsOk(ClientNext(cap, s, i))
  {
    var s' := ClientNext(cap, s, i);
    assert s'.queue == Insert(s.queue, Item(USER_PRIO, 0)) && s'.clients == s.clients[i := Listening];
    assert s'.server == s.server && s'.lost == s.lost && s'.registered == s.registered;
    RequestSentIds(s.queue);
    GatherSame(s.clients, i, Listening, IdOf);
  }

  lemma ClientTakesIds(cap: nat, s: Login, i: nat)
    requires i < |s.clients| && Takes(s, i) && QueueOk(cap, s) && IdsOk(s)
    ensures IdsOk(ClientNext(cap, s, i))
  {
    var s' := ClientNext(cap, s, i);
    var v := s'.clients[i];
    Received(s.queue);
    assert IdOf(v) == IdsOf(s.queue[0]);
    GatherGain(s.clients, i, v, IdOf);
    Moved(Gather(s.clients, IdOf), Gather(s.queue, IdsOf), Gather(s'.clients, IdOf), Gather(s'.queue, IdsOf), IdOf(v));
    assert s'.server == s.server && s'.lost == s.lost && s'.registered == s.registered;
  }

  lemma ServerReceives(cap: nat, s: Login)
    requires QueueOk(cap, s) && RequestsOk(s) && OneReply(s) && s.server == Receiving
    ensures var s' := ServerNext(cap, s);
            QueueOk(cap, s') && RequestsOk(s') && OneReply(s')
  {
    if s.queue != [] {
      Received(s.queue);
      if s.queue[0].prio == USER_PRIO { RequestFirst(s.queue); }
    }
  }

  lemma ServerReplies(cap: nat, s: Login)
    requires QueueOk(cap, s) && RequestsOk(s) && OneReply(s) && s.server != Receiving
    ensures var s' := Replied(cap, s, s.server.id);
            QueueOk(cap, s') && RequestsOk(s') && OneReply(s')
  {
    SentReply(cap, s.queue, s.server.id);
    InsertPrios(s.queue, Item(SERVER_PRIO, s.server.id));
  }

  /** Taking a reply moves its id from the queue to the server's hand. */
  lemma ServerTakesReply(cap: nat, s: Login)
    requires QueueOk(cap, s) && IdsOk(s) && s.server == Receiving && s.queue != [] && s.queue[0].prio == SERVER_PRIO
    ensures IdsOk(ServerNext(cap, s))
  {
    var s' := ServerNext(cap, s);
    var c, q, q' := Gather(s.clients, IdOf), Gather(s.queue, IdsOf), Gather(s.queue[1..], IdsOf);
    var x := IdsOf(s.queue[0]);
    Received(s.queue);
    MovedInner(c, q, multiset{}, q', x, x);
    assert s' == s.(queue := s.queue[1..], server := Requeueing(s.queue[0].body));
    assert IdAt(s'.server) == x;
  }

  lemma RequestCarriesNoId(q: seq<Item<nat>>)
    requires q != [] && Sorted(q) && q[0].prio == USER_PRIO
    ensures Gather(q[1..], IdsOf) == Gather(q, IdsOf)
  {
    Received(q);
  }

  /** Taking a request issues a new id. */
  lemma ServerTakesRequest(cap: nat, s: Login)
    requires QueueOk(cap, s) && IdsOk(s) && s.server == Receiving && s.queue != [] && s.queue[0].prio == USER_PRIO
    ensures IdsOk(ServerNext(cap, s))
  {
    var s', n := ServerNext(cap, s), s.registered;
    RequestCarriesNoId(s.queue);
    IssuedNext(Gather(s.clients, IdOf), Gather(s.queue, IdsOf), multiset(s.lost), n);
    assert s'.clients == s.clients && s'.queue == s.queue[1..] && s'.lost == s.lost && s'.registered == n + 1;
    assert IdAt(s'.server) == multiset{n + 1};
  }

  lemma ServerRepliesIds(cap: nat, s: Login)
    requires QueueOk(cap, s) && IdsOk(s) && s.server != Receiving
    ensures IdsOk(Replied(cap, s, s.server.id))
  {
    var id := s.server.id;
    var s' := Replied(cap, s, id);
    var c, q := Gather(s.clients, IdOf), Gather(s.queue, IdsOf);
    assert IdAt(s.server) == multiset{id} && s'.clients == s.clients;
    if |s.queue| < cap {
      SentReply(cap, s.queue, id);
      MovedOut(c, q, multiset{id});
      assert s'.lost == s.lost;
    } else {
      LostOne(c + q, id, s.lost);
    }
  }

  lemma MovedOut(c: multiset<nat>, q: multiset<nat>, x: multiset<nat>)
    ensures c + (q + x) + multiset{} == c + q + x
  {
  }

  lemma LostOne(rest: multiset<nat>, id: nat, lost: seq<nat>)
    ensures rest + multiset{} + multiset(lost + [id]) == rest + multiset{id} + multiset(lost)
  {
  }

  lemma IssuedNext(c: multiset<nat>, q: multiset<nat>, l: multiset<nat>, n: nat)
    requires c + q + multiset{} + l == Issued(n)
    ensures c + q + multiset{n + 1} + l == Issued(n + 1)
  {
  }

  lemma ClientInv(cap: nat, s: Login, i: nat)
    requires Inv(cap, s) && i < |s.clients|
    ensures Inv(cap, ClientNext(cap, s, i))
  {
    if Sends(cap, s, i) {
      ClientSends(cap, s, i);
      ClientSendsIds(cap, s, i);
    } else if Takes(s, i) {
      ClientTakes(cap, s, i);
      ClientTakesIds(cap, s, i);
    } else {
      assert ClientNext(cap, s, i) == s;
    }
  }

  lemma ServerInv(cap: nat, s: Login)
    requires Inv(cap, s)
    ensures Inv(cap, ServerNext(cap, s))
  {
    if s.server == Receiving { ServerReceives(cap, s); } else { ServerReplies(cap, s); }
    if s.server != Receiving {
      ServerRepliesIds(cap, s);
    } else if s.queue == [] {
      assert ServerNext(cap, s) == s;
    } else if s.queue[0].prio == SERVER_PRIO {
      ServerTakesReply(cap, s);
    } else {
      ServerTakesRequest(cap, s);
    }
  }

  lemma EventInv(cap: nat, s: Login, e: Event)
    requires Inv(cap, s)
    ensures Inv(cap, Next(cap, s, e))
  {
    match e {
      case Step(i) => if i < |s.clients| { ClientInv(cap, s, i); }
      case Serve => ServerInv(cap, s);
    }
  }

  lemma {:induction false} RunInv(cap: nat, s: Login, es: seq<Event>)
    requires Inv(cap, s)
    ensures Inv(cap, Run(cap, s, es))
    decreases |es|
  {
    if es != [] {
      EventInv(cap, s, es[0]);
      RunInv(cap, Next(cap, s, es[0]), es[1..]);
    }
  }

  lemma InitInv(cap: nat, clients: nat)
    ensures Inv(cap, Init(clients))
  {
    var s := Init(clients);
    TotalWithin(s.clients, HeldRequest, 0, 0);
    NobodyLoggedIn(s.clients);
  }

  lemma {:induction false} NobodyLoggedIn(cs: seq<Client>)
    requires forall i :: 0 <= i < |cs| ==> cs[i] == Asking
    ensures Gather(cs, IdOf) == multiset{}
  {
    if cs != [] { NobodyLoggedIn(cs[..|cs| - 1]); }
  }

  // ----- What holds over every run -----

  /** No request is lost or doubled by the re-queueing: requests waiting, in a client's hand and
      registered are the requests sent. */
  lemma RequestsConserved(cap: nat, clients: nat, es: seq<Event>)
    ensures var s := Run(cap, Init(clients), es);
            && Total(s.queue, Request) + Total(s.clients, HeldRequest) + s.registered == s.asked
            && |s.queue| <= cap && Sorted(s.queue)
  {
    InitInv(cap, clients);
    RunInv(cap, Init(clients), es);
  }

  /** The ids of the clients logged in, the ids under way and the ids dropped are exactly 1..n after n
      registrations, each once; and at most one id is under way, because a reply overtakes every
      request. */
  lemma IdsConserved(cap: nat, clients: nat, es: seq<Event>)
    ensures var s := Run(cap, Init(clients), es);
            && Gather(s.clients, IdOf) + Gather(s.queue, IdsOf) + IdAt(s.server) + multiset(s.lost) == Issued(s.registered)
            && Total(s.queue, Reply) + HeldReply(s.server) <= 1
  {
    InitInv(cap, clients);
    RunInv(cap, Init(clients), es);
  }

  lemma {:induction false} IssuedOnce(n: nat, id: nat)
    ensures Issued(n)[id] == if 1 <= id <= n then 1 else 0
  {
    if n > 0 { IssuedOnce(n - 1, id); }
  }

  /** No two clients ever hold the same id, and every id held was issued. */
  lemma IdsUnique(cap: nat, clients: nat, es: seq<Event>)
    ensures var s := Run(cap, Init(clients), es);
            && (forall i :: 0 <= i < |s.clients| && s.clients[i].LoggedIn? ==> 1 <= s.clients[i].id <= s.registered)
            && (forall i, j :: 0 <= i < j < |s.clients| && s.clients[i].LoggedIn? && s.clients[j].LoggedIn? ==>
                  s.clients[i].id != s.clients[j].id)
  {
    IdsConserved(cap, clients, es);
    var s := Run(cap, Init(clients), es);
    forall i | 0 <= i < |s.clients| && s.clients[i].LoggedIn?
      ensures 1 <= s.clients[i].id <= s.registered
    {
      HeldIssued(s, i);
    }
    forall i, j | 0 <= i < j < |s.clients| && s.clients[i].LoggedIn? && s.clients[j].LoggedIn?
      ensures s.clients[i].id != s.clients[j].id
    {
      HeldOnce(s, i, j);
    }
  }

  lemma HeldIssued(s: Login, i: nat)
    requires IdsOk(s) && i < |s.clients| && s.clients[i].LoggedIn?
    ensures 1 <= s.clients[i].id <= s.registered
  {
    var id := s.clients[i].id;
    GatherUpdate(s.clients, i, s.clients[i], IdOf);
    IssuedOnce(s.registered, id);
    assert IdOf(s.clients[i])[id] <= Gather(s.clients, IdOf)[id] <= Issued(s.registered)[id];
  }

  lemma HeldOnce(s: Login, i: nat, j: nat)
    requires IdsOk(s) && i < j < |s.clients| && s.clients[i].LoggedIn? && s.clients[j].LoggedIn?
    ensures s.clients[i].id != s.clients[j].id
  {
    var a, b := s.clients[i].id, s.clients[j].id;
    GatherTwo(s.clients, i, j, IdOf);
    IssuedOnce(s.registered, a);
    var held := multiset{a} + multiset{b};
    assert held <= Gather(s.clients, IdOf);
    assert held[a] <= Gather(s.clients, IdOf)[a] <= Issued(s.registered)[a];
  }

  // ----- When no reply is lost -----

  function AskUnit(c: Client): int { if c == Asking then 1 else 0 }

  /** Every client asks once, and nothing is lost yet. */
  ghost predicate NothingLost(s: Login) {
    s.asked + Total(s.clients, AskUnit) == |s.clients| && s.lost == []
  }

  lemma {:induction false} RequestsAndReplies(q: seq<Item<nat>>)
    requires forall k :: 0 <= k < |q| ==> q[k].prio == USER_PRIO || q[k].prio == SERVER_PRIO
    ensures Total(q, Request) + Total(q, Reply) == |q|
  {
    if q != [] { RequestsAndReplies(q[..|q| - 1]); }
  }

  /** While the server has a reply in hand the queue holds only requests, fewer than there are clients. */
  lemma RoomForReply(cap: nat, s: Login)
    requires Inv(cap, s) && NothingLost(s) && s.server != Receiving
    ensures |s.queue| < |s.clients|
  {
    RequestsAndReplies(s.queue);
    TotalNonNegative(s.queue, Reply);
    TotalNonNegative(s.clients, HeldRequest);
    TotalNonNegative(s.clients, AskUnit);
  }

  lemma ClientLosesNothing(cap: nat, s: Login, i: nat)
    requires NothingLost(s) && i < |s.clients|
    ensures NothingLost(ClientNext(cap, s, i)) && |ClientNext(cap, s, i).clients| == |s.clients|
  {
    TotalUpdate(s.clients, i, ClientNext(cap, s, i).clients[i], AskUnit);
  }

  lemma ServerLosesNothing(cap: nat, s: Login)
    requires Inv(cap, s) && NothingLost(s) && |s.clients| <= cap
    ensures NothingLost(ServerNext(cap, s)) && |ServerNext(cap, s).clients| == |s.clients|
  {
    if s.server != Receiving { RoomForReply(cap, s); }
    var s' := ServerNext(cap, s);
    assert s'.clients == s.clients && s'.asked == s.asked && s'.lost == s.lost;
  }

  lemma EventLosesNothing(cap: nat, s: Login, e: Event)
    requires Inv(cap, s) && NothingLost(s) && |s.clients| <= cap
    ensures NothingLost(Next(cap, s, e)) && |Next(cap, s, e).clients| == |s.clients|
  {
    match e {
      case Step(i) => if i < |s.clients| { ClientLosesNothing(cap, s, i); }
      case Serve => ServerLosesNothing(cap, s);
    }
  }

  lemma {:induction false} RunLosesNothing(cap: nat, s: Login, es: seq<Event>)
    requires Inv(cap, s) && NothingLost(s) && |s.clients| <= cap
    ensures NothingLost(Run(cap, s, es)) && |Run(cap, s, es).clients| == |s.clients|
    decreases |es|
  {
    if es != [] {
      EventInv(cap, s, es[0]);
      EventLosesNothing(cap, s, es[0]);
      RunLosesNothing(cap, Next(cap, s, es[0]), es[1..]);
    }
  }

  /** With room for a message of every client no reply is ever dropped. */
  lemma NoReplyLost(cap: nat, clients: nat, es: seq<Event>)
    requires clients <= cap
    ensures Run(cap, Init(clients), es).lost == []
  {
    InitInv(cap, clients);
    TotalWithin(Init(clients).clients, AskUnit, 1, 1);
    RunLosesNothing(cap, Init(clients), es);
  }

  /** A queue without room carries nothing at all. */
  lemma {:induction false} NoRoomNoReply(s: Login, es: seq<Event>)
    requires s.queue == [] && s.server == Receiving && s.lost == []
    ensures Run(0, s, es).lost == []
    decreases |es|
  {
    if es != [] { NoRoomNoReply(Next(0, s, es[0]), es[1..]); }
  }

  /** A run can lose a reply exactly if there are more clients than the queue, which has some room, can hold
      messages of. */
  lemma ReplyLostExactly(cap: nat, clients: nat)
    ensures (exists es :: Run(cap, Init(clients), es).lost != []) <==> clients > cap > 0
  {
    if clients > cap > 0 {
      var es := ReplyCanBeLost(cap, clients);
      assert Run(cap, Init(clients), es).lost != [];
    } else {
      forall es
        ensures Run(cap, Init(clients), es).lost == []
      {
        if clients <= cap { NoReplyLost(cap, clients, es); } else { NoRoomNoReply(Init(clients), es); }
      }
    }
  }

  // ----- When everybody is logged in -----

  function LoggedUnit(c: Client): int { if c.LoggedIn? then 1 else 0 }

  lemma {:induction false} LoggedCount(cs: seq<Client>)
    ensures |Gather(cs, IdOf)| == Total(cs, LoggedUnit)
  {
    if cs != [] { LoggedCount(cs[..|cs| - 1]); }
  }

  lemma {:induction false} IssuedCount(n: nat)
    ensures |Issued(n)| == n
  {
    if n > 0 { IssuedCount(n - 1); }
  }

  /** The ids held, under way and dropped are as many as the registrations. */
  lemma IdsCounted(s: Login)
    requires IdsOk(s)
    ensures Total(s.clients, LoggedUnit) + |Gather(s.queue, IdsOf)| + |IdAt(s.server)| + |s.lost| == s.registered
  {
    LoggedCount(s.clients);
    IssuedCount(s.registered);
    FourParts(Gather(s.clients, IdOf), Gather(s.queue, IdsOf), IdAt(s.server), multiset(s.lost), Issued(s.registered));
  }

  lemma FourParts(a: multiset<nat>, b: multiset<nat>, c: multiset<nat>, d: multiset<nat>, whole: multiset<nat>)
    requires a + b + c + d == whole
    ensures |a| + |b| + |c| + |d| == |whole|
  {
    assert |a + b| == |a| + |b| && |a + b + c| == |a + b| + |c|;
  }

  /** No process can move. */
  ghost predicate Quiescent(cap: nat, s: Login) {
    ServerNext(cap, s) == s && forall i :: 0 <= i < |s.clients| ==> ClientNext(cap, s, i) == s
  }

  predicate AllLoggedIn(s: Login) { forall i :: 0 <= i < |s.clients| ==> s.clients[i].LoggedIn? }

  /** With room for a message of every client nobody can move if and only if every client is logged in. */
  lemma QuiescentExactly(cap: nat, clients: nat, es: seq<Event>)
    requires clients <= cap
    ensures Quiescent(cap, Run(cap, Init(clients), es)) <==> AllLoggedIn(Run(cap, Init(clients), es))
  {
    var s := Run(cap, Init(clients), es);
    InitInv(cap, clients);
    RunInv(cap, Init(clients), es);
    TotalWithin(Init(clients).clients, AskUnit, 1, 1);
    RunLosesNothing(cap, Init(clients), es);
    if Quiescent(cap, s) {
      QuiescentLoggedIn(cap, s);
    }
    if AllLoggedIn(s) {
      LoggedInQuiescent(cap, s);
    }
  }

  /** Then the queue is empty, and whoever is not logged in waits at it. */
  lemma QuiescentEmpty(cap: nat, s: Login)
    requires Quiescent(cap, s) && |s.clients| <= cap
    ensures s.server == Receiving && s.queue == []
    ensures forall i :: 0 <= i < |s.clients| ==> s.clients[i].LoggedIn? || s.clients[i] == Listening
  {
    assert ServerNext(cap, s).server == s.server && |ServerNext(cap, s).queue| == |s.queue|;
    forall i | 0 <= i < |s.clients|
      ensures s.clients[i].LoggedIn? || s.clients[i] == Listening
    {
      assert ClientNext(cap, s, i).clients[i] == s.clients[i];
    }
  }

  /** Nobody asks or hands back a request, and nothing is under way or lost: every request was registered and
      every id taken. */
  lemma EveryIdTaken(s: Login)
    requires RequestsOk(s) && IdsOk(s) && NothingLost(s) && s.server == Receiving && s.queue == []
    requires forall i :: 0 <= i < |s.clients| ==> s.clients[i].LoggedIn? || s.clients[i] == Listening
    ensures Total(s.clients, LoggedUnit) == |s.clients|
  {
    IdsCounted(s);
    TotalWithin(s.clients, AskUnit, 0, 0);
    TotalWithin(s.clients, HeldRequest, 0, 0);
  }

  lemma QuiescentLoggedIn(cap: nat, s: Login)
    requires Quiescent(cap, s) && Inv(cap, s) && NothingLost(s) && |s.clients| <= cap
    ensures AllLoggedIn(s)
  {
    QuiescentEmpty(cap, s);
    EveryIdTaken(s);
    forall i | 0 <= i < |s.clients|
      ensures s.clients[i].LoggedIn?
    {
      TotalFull(s.clients, LoggedUnit, i);
    }
  }

  /** When all are logged in every request has been registered and every id taken. */
  lemma NothingUnderWay(s: Login)
    requires AllLoggedIn(s) && RequestsOk(s) && IdsOk(s) && NothingLost(s)
    ensures s.server == Receiving && Total(s.queue, Request) <= 0 && |Gather(s.queue, IdsOf)| == 0
  {
    TotalWithin(s.clients, LoggedUnit, 1, 1);
    TotalWithin(s.clients, AskUnit, 0, 0);
    TotalWithin(s.clients, HeldRequest, 0, 0);
    TotalNonNegative(s.queue, Request);
    IdsCounted(s);
  }

  /** A queue with a message in it has a request or an id. */
  lemma QueueCarries(cap: nat, s: Login)
    requires QueueOk(cap, s) && s.queue != []
    ensures Total(s.queue, Request) > 0 || |Gather(s.queue, IdsOf)| > 0
  {
    Received(s.queue);
    TotalNonNegative(s.queue[1..], Request);
    if s.queue[0].prio == SERVER_PRIO {
      assert s.queue[0].body in Gather(s.queue, IdsOf);
    }
  }

  lemma LoggedInQuiescent(cap: nat, s: Login)
    requires AllLoggedIn(s) && Inv(cap, s) && NothingLost(s)
    ensures Quiescent(cap, s)
  {
    NothingUnderWay(s);
    if s.queue != [] { QueueCarries(cap, s); }
  }

  // ----- A reply that is lost -----

  lemma {:induction false} RunThen(cap: nat, s: Login, es: seq<Event>, e: Event)
    ensures Run(cap, s, es + [e]) == Next(cap, Run(cap, s, es), e)
    decreases |es|
  {
    if es == [] {
      assert [e][1..] == [];
    } else {
      assert (es + [e])[1..] == es[1..] + [e];
      RunThen(cap, Next(cap, s, es[0]), es[1..], e);
    }
  }

  /** The server has client 0's request in hand while n others fill the queue with theirs. */
  lemma {:induction false} Crowd(cap: nat, clients: nat, n: nat) returns (es: seq<Event>)
    requires 0 < cap < clients && n <= cap
    ensures var s := Run(cap, Init(clients), es);
            && s.server == Replying(1) && s.registered == 1 && |s.queue| == n && s.lost == [] && |s.clients| == clients
            && s.clients[0] == Listening && forall j :: n < j < clients ==> s.clients[j] == Asking
  {
    var s0 := Init(clients);
    if n == 0 {
      es := [Step(0)];
      RunThen(cap, s0, [], Step(0));
      assert Run(cap, s0, es).queue == [Item(USER_PRIO, 0)] by { assert es == [] + [Step(0)]; }
      RunThen(cap, s0, es, Serve);
      es := es + [Serve];
    } else {
      es := Crowd(cap, clients, n - 1);
      RunThen(cap, s0, es, Step(n));
      es := es + [Step(n)];
    }
  }

  /** With more clients than the queue has room for, a client can ask, be registered and never get its id:
      the queue is full of other requests when the server sends the reply, and the reply is dropped. */
  lemma ReplyCanBeLost(cap: nat, clients: nat) returns (es: seq<Event>)
    requires 0 < cap < clients
    ensures var s := Run(cap, Init(clients), es);
            s.lost == [1] && s.registered == 1 && s.server == Receiving && Gather(s.queue, IdsOf) == multiset{}
            && Gather(s.clients, IdOf) == multiset{}
  {
    es := Crowd(cap, clients, cap);
    RunThen(cap, Init(clients), es, Serve);
    es := es + [Serve];
    assert IdsOk(Run(cap, Init(clients), es)) by {
      InitInv(cap, clients);
      RunInv(cap, Init(clients), es);
    }
  }

  // ----- The processes -----

  class Exchange {
    const cap: nat
    var queue: seq<Item<nat>>
    var server: ServerAt
    var clients: seq<Client>
    var registered: nat
    ghost var asked: nat
    ghost var lost: seq<nat>

    ghost function State(): Login
      reads this
    {
      Login(queue, server, clients, registered, asked, lost)
    }

    constructor (cap: nat, clientsNum: nat)
      ensures this.cap == cap && State() == Init(clientsNum) && Inv(cap, State())
    {
      InitInv(cap, clientsNum);
      this.cap := cap;
      queue, server, registered, asked, lost := [], Receiving, 0, 0, [];
      clients := seq(clientsNum, i => Asking);
    }

    method ClientStep(i: nat)
      requires i < |clients|
      modifies this
      ensures State() == Next(cap, old(State()), Step(i))
    {
      match clients[i] {
        case Asking =>
          if |queue| < cap {
            queue := Insert(queue, Item(USER_PRIO, 0));
            asked := asked + 1;
            clients := clients[i := Listening];
          }
        case Listening =>
          if queue != [] {
            var item := queue[0];
            queue := queue[1..];
            if item.prio == USER_PRIO {
              clients := clients[i := Returning];
            } else if item.prio == SERVER_PRIO {
              clients := clients[i := LoggedIn(item.body)];
            } else {
              clients := clients[i := Listening];
            }
          }
        case Returning =>
          if |queue| < cap {
            queue := Insert(queue, Item(USER_PRIO, 0));
            clients := clients[i := Listening];
          }
        case LoggedIn(_) =>
      }
    }

    /** mq_send in non-blocking mode. */
    method SendOrDrop(id: nat)
      modifies this
      ensures State() == Replied(cap, old(State()), id)
    {
      if |queue| < cap {
        queue := Insert(queue, Item(SERVER_PRIO, id));
      } else {
        lost := lost + [id];
      }
      server := Receiving;
    }

    method ServerStep()
      modifies this
      ensures State() == Next(cap, old(State()), Serve)
    {
      match server {
        case Receiving =>
          if queue != [] {
            var item := queue[0];
            queue := queue[1..];
            if item.prio == SERVER_PRIO {
              server := Requeueing(item.body);
            } else if item.prio == USER_PRIO {
              registered := registered + 1;
              server := Replying(registered);
            }
          }
        case Requeueing(id) => SendOrDrop(id);
        case Replying(id) => SendOrDrop(id);
      }
    }

    method Perform(e: Event)
      requires Inv(cap, State())
      modifies this
      ensures State() == Next(cap, old(State()), e) && Inv(cap, State())
    {
      EventInv(cap, State(), e);
      match e {
        case Step(i) => if i < |clients| { ClientStep(i); }
        case Serve => ServerStep();
      }
    }

    /** Whatever the schedule, the ids of the clients logged in are all different, the queue keeps its
        bound and no request is lost. */
    method Execute(es: seq<Event>)
      requires Inv(cap, State())
      modifies this
      ensures State() == Run(cap, old(State()), es) && Inv(cap, State())
      ensures forall i, j :: 0 <= i < j < |clients| && clients[i].LoggedIn? && clients[j].LoggedIn? ==>
                clients[i].id != clients[j].id
      ensures |queue| <= cap && Total(queue, Request) + Total(clients, HeldRequest) + registered == asked
    {
      for k := 0 to |es|
        invariant Run(cap, State(), es[k..]) == Run(cap, old(State()), es) && Inv(cap, State())
      {
        Perform(es[k]);
      }
      forall i, j | 0 <= i < j < |clients| && clients[i].LoggedIn? && clients[j].LoggedIn?
        ensures clients[i].id != clients[j].id
      {
        HeldOnce(State(), i, j);
      }
    }
  }
}
