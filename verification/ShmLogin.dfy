/**
  The login handshake of homework13_shared_memory: any number of clients and the server share one
  login buffer and pass it round with four semaphores.
 */
module ShmLogin {
  import opened Sums
  import opened Roster

  /** Where a client stands in the login half of `third_task_client`. */
  datatype ClientAt =
    | Entering              // before the wait on usr
    | Writing               // before copying its name to ctos
    | Posting               // before the post of cts
    | Awaiting              // before the wait on stc
    | Reading               // before reading its id from stoc
    | Opening(id: nat)      // opening the segment and the semaphores of its id, again and again until they exist
    | Confirming(id: nat)   // before the post of srv
    | LoggedIn(id: nat)

  datatype Client = Client(name: string, at: ClientAt)

  /** Where the server stands in the login part of its main loop. */
  datatype ServerAt =
    | Scanning      // at the trywait on cts
    | Registering   // before taking the name from ctos into a new slot
    | Replying      // before writing the id to stoc
    | Answering     // before the post of stc
    | Waiting       // at the timed wait on srv
    | Finishing     // before the post of usr

  datatype Login = Login(
    usr: nat, cts: nat, stc: nat, srv: nat, ctos: string, stoc: nat,
    server: ServerAt, users: seq<Slot>, clients: seq<Client>, timeouts: nat)

  /** Client i moves on; the server moves on; the server's timed wait expires. */
  datatype Event = Step(i: nat) | Serve | Expire

  function Init(names: seq<string>): Login {
    Login(1, 0, 0, 0, "", 0, Scanning, [], seq(|names|, i requires 0 <= i < |names| => Client(names[i], Entering)), 0)
  }

  /** One atomic step; a process that would block stays where it is. */
  function Next(s: Login, e: Event): Login {
    match e
    case Step(i) => if i < |s.clients| then ClientNext(s, i) else s
    case Serve => ServerNext(s)
    case Expire =>
      // the wait gives up only if it cannot be satisfied; the new user's slot is given up
      if s.server == Waiting && s.srv == 0 && s.users != []
      then s.(users := s.users[|s.users| - 1 := s.users[|s.users| - 1].(id := -1)], server := Finishing,
              timeouts := s.timeouts + 1)
      else s
  }

  function At(s: Login, i: nat, at: ClientAt): Login
    requires i < |s.clients|
  {
    s.(clients := s.clients[i := s.clients[i].(at := at)])
  }

  /** The segment and the semaphores of an id exist from its registration until a timeout unlinks them. */
  predicate Exists(users: seq<Slot>, id: nat) { 1 <= id <= |users| && Connected(users[id - 1]) }

  function ClientNext(s: Login, i: nat): Login
    requires i < |s.clients|
  {
    match s.clients[i].at
    case Entering => if s.usr == 0 then s else At(s, i, Writing).(usr := s.usr - 1)
    case Writing => At(s, i, Posting).(ctos := s.clients[i].name)
    case Posting => At(s, i, Awaiting).(cts := s.cts + 1)
    case Awaiting => if s.stc == 0 then s else At(s, i, Reading).(stc := s.stc - 1)
    case Reading => At(s, i, Opening(s.stoc))
    case Opening(id) => if Exists(s.users, id) then At(s, i, Confirming(id)) else s
    case Confirming(id) => At(s, i, LoggedIn(id)).(srv := s.srv + 1)
    case LoggedIn(_) => s
  }

  function ServerNext(s: Login): Login {
    match s.server
    case Scanning => if s.cts == 0 then s else s.(cts := s.cts - 1, server := Registering)
    case Registering => s.(users := s.users + [Slot(|s.users| + 1, s.ctos)], server := Replying)
    case Replying => s.(stoc := |s.users|, server := Answering)
    case Answering => s.(stc := s.stc + 1, server := Waiting)
    case Waiting => if s.srv == 0 then s else s.(srv := s.srv - 1, server := Finishing)
    case Finishing => s.(usr := s.usr + 1, server := Scanning)
  }

  function Run(s: Login, es: seq<Event>): Login
    decreases |es|
  {
    if es == [] then s else Run(Next(s, es[0]), es[1..])
  }

  // ----- Tokens -----

  /** 1 for a client in its write section or its read section. */
  function ClientToken(c: Client): int {
    if c.at.Writing? || c.at.Posting? || c.at.Reading? || c.at.Opening? || c.at.Confirming? then 1 else 0
  }

  /** 1 for the server in its register or finish section. */
  function ServerToken(at: ServerAt): int { if at == Scanning || at == Waiting then 0 else 1 }

  /** The tokens among the semaphores and the processes. */
  function Tokens(s: Login): int {
    s.usr + s.cts + s.stc + s.srv + Total(s.clients, ClientToken) + ServerToken(s.server)
  }

  function AwaitingUnit(c: Client): int { if c.at == Awaiting then 1 else 0 }

  function ReadingUnit(c: Client): int { if c.at.Reading? || c.at.Opening? || c.at.Confirming? then 1 else 0 }

  predicate InRegister(at: ServerAt) { at == Registering || at == Replying || at == Answering }

  /** How the semaphores count the processes: in every run, with or without timeouts. */
  ghost predicate Counted(s: Login) {
    && Tokens(s) == 1 + s.timeouts
    && Total(s.clients, AwaitingUnit) == s.cts + s.stc + (if InRegister(s.server) then 1 else 0)
    && Total(s.clients, ReadingUnit) + s.stc + s.srv == s.timeouts + (if s.server == Waiting then 1 else 0)
  }

  /** A client's step moves its token between itself and a semaphore. */
  lemma ClientBalance(s: Login, i: nat)
    requires i < |s.clients|
    ensures var s' := ClientNext(s, i);
            && |s'.clients| == |s.clients| && s'.clients == s.clients[i := s'.clients[i]]
            && s'.server == s.server && s'.timeouts == s.timeouts
            && var c, v := s.clients[i], s'.clients[i];
               && ClientToken(v) - ClientToken(c) == s.usr + s.cts + s.stc + s.srv - s'.usr - s'.cts - s'.stc - s'.srv
               && AwaitingUnit(v) - AwaitingUnit(c) == s'.cts + s'.stc - s.cts - s.stc
               && ReadingUnit(v) - ReadingUnit(c) == s.stc + s.srv - s'.stc - s'.srv
  {
  }

  lemma ClientCounted(s: Login, i: nat)
    requires Counted(s) && i < |s.clients|
    ensures Counted(ClientNext(s, i))
  {
    ClientBalance(s, i);
    var v := ClientNext(s, i).clients[i];
    TotalUpdate(s.clients, i, v, ClientToken);
    TotalUpdate(s.clients, i, v, AwaitingUnit);
    TotalUpdate(s.clients, i, v, ReadingUnit);
  }

  lemma EventCounted(s: Login, e: Event)
    requires Counted(s)
    ensures Counted(Next(s, e))
  {
    if e.Step? && e.i < |s.clients| { ClientCounted(s, e.i); }
  }

  // ----- Identities -----

  /** The newest slot is not yet known to its owner. */
  predicate SlotPending(s: Login, i: nat)
    requires i < |s.clients|
  {
    s.clients[i].at == Reading || (s.clients[i].at == Awaiting && (s.server == Replying || s.server == Answering || s.stc > 0))
  }

  predicate Known(c: Client) { c.at.Opening? || c.at.Confirming? || c.at.LoggedIn? }

  ghost predicate ClientOk(s: Login, i: nat)
    requires i < |s.clients|
  {
    var c := s.clients[i];
    && (c.at == Posting || (c.at == Awaiting && (s.cts > 0 || s.server == Registering)) ==> s.ctos == c.name)
    && (SlotPending(s, i) ==> s.users != [] && s.users[|s.users| - 1] == Slot(|s.users|, c.name))
    && (c.at == Reading || (c.at == Awaiting && (s.server == Answering || s.stc > 0)) ==> s.stoc == |s.users|)
    && (Known(c) ==> 1 <= c.at.id <= |s.users| && s.users[c.at.id - 1] == Slot(c.at.id, c.name))
  }

  /** Two clients never know the same id, nor one the id that is on its way to the other. */
  ghost predicate PairOk(s: Login, i: nat, j: nat)
    requires i < |s.clients| && j < |s.clients|
  {
    && (i != j && Known(s.clients[i]) && Known(s.clients[j]) ==> s.clients[i].at.id != s.clients[j].at.id)
    && (Known(s.clients[i]) && SlotPending(s, j) ==> s.clients[i].at.id < |s.users|)
  }

  ghost predicate Identified(s: Login) {
    && (forall i :: 0 <= i < |s.clients| ==> ClientOk(s, i))
    && (forall i, j :: 0 <= i < |s.clients| && 0 <= j < |s.clients| ==> PairOk(s, i, j))
  }

  /** What one token means for a client. */
  ghost predicate Alone(s: Login, i: nat)
    requires i < |s.clients|
  {
    && (ClientToken(s.clients[i]) == 1 ==> s.usr + s.cts + s.stc + s.srv + ServerToken(s.server) == 0)
    && (s.clients[i].at == Awaiting ==> s.cts + s.stc + (if InRegister(s.server) then 1 else 0) == 1)
    && (forall j :: 0 <= j < |s.clients| && j != i ==>
         && ClientToken(s.clients[i]) + ClientToken(s.clients[j]) <= 1
         && AwaitingUnit(s.clients[i]) + AwaitingUnit(s.clients[j]) <= 1
         && AwaitingUnit(s.clients[i]) + ClientToken(s.clients[j]) <= 1)
  }

  lemma OneToken(s: Login, i: nat)
    requires Counted(s) && s.timeouts == 0 && i < |s.clients|
    ensures Alone(s, i)
  {
    TotalAtLeast(s.clients, i, ClientToken);
    TotalAtLeast(s.clients, i, AwaitingUnit);
    TotalNonNegative(s.clients, ClientToken);
    forall j | 0 <= j < |s.clients| && j != i
      ensures ClientToken(s.clients[i]) + ClientToken(s.clients[j]) <= 1
      ensures AwaitingUnit(s.clients[i]) + AwaitingUnit(s.clients[j]) <= 1
      ensures AwaitingUnit(s.clients[i]) + ClientToken(s.clients[j]) <= 1
    {
      var a, b := if i < j then i else j, if i < j then j else i;
      TotalAtLeastTwo(s.clients, a, b, ClientToken);
      TotalAtLeastTwo(s.clients, a, b, AwaitingUnit);
      TotalAtLeast(s.clients, j, ClientToken);
    }
  }

  lemma ClientKeepsOwn(s: Login, i: nat)
    requires i < |s.clients| && ClientOk(s, i) && Alone(s, i)
    ensures ClientOk(ClientNext(s, i), i)
  {
  }

  lemma ClientKeepsOther(s: Login, i: nat, k: nat)
    requires i < |s.clients| && k < |s.clients| && i != k
    requires ClientOk(s, i) && ClientOk(s, k) && Alone(s, i) && Alone(s, k)
    ensures ClientOk(ClientNext(s, i), k)
  {
    var s' := ClientNext(s, i);
    assert s'.clients[k] == s.clients[k] && s'.users == s.users && s'.server == s.server && s'.stoc == s.stoc;
  }

  lemma ClientKeepsOk(s: Login, i: nat, k: nat)
    requires i < |s.clients| && k < |s.clients|
    requires ClientOk(s, i) && ClientOk(s, k) && Alone(s, i) && Alone(s, k)
    ensures ClientOk(ClientNext(s, i), k)
  {
    if i == k { ClientKeepsOwn(s, i); } else { ClientKeepsOther(s, i, k); }
  }

  lemma ClientKeepsPair(s: Login, i: nat, k: nat, j: nat)
    requires i < |s.clients| && k < |s.clients| && j < |s.clients|
    requires PairOk(s, k, j) && PairOk(s, k, i) && PairOk(s, j, i) && Alone(s, i) && Alone(s, j)
    requires ClientOk(s, i) && ClientOk(s, j) && ClientOk(s, k)
    ensures PairOk(ClientNext(s, i), k, j)
  {
  }

  lemma ClientIdentified(s: Login, i: nat)
    requires Counted(s) && s.timeouts == 0 && Identified(s) && i < |s.clients|
    ensures Identified(ClientNext(s, i))
  {
    var s' := ClientNext(s, i);
    ClientBalance(s, i);
    OneToken(s, i);
    forall k | 0 <= k < |s'.clients|
      ensures ClientOk(s', k)
    {
      OneToken(s, k);
      ClientKeepsOk(s, i, k);
    }
    forall k, j | 0 <= k < |s'.clients| && 0 <= j < |s'.clients|
      ensures PairOk(s', k, j)
    {
      OneToken(s, j);
      ClientKeepsPair(s, i, k, j);
    }
  }

  lemma ServerIdentified(s: Login)
    requires Counted(s) && s.timeouts == 0 && Identified(s)
    ensures Identified(ServerNext(s))
  {
    var s' := ServerNext(s);
    forall k | 0 <= k < |s'.clients|
      ensures ClientOk(s', k)
    {
      assert ClientOk(s, k);
      OneToken(s, k);
    }
    forall k, j | 0 <= k < |s'.clients| && 0 <= j < |s'.clients|
      ensures PairOk(s', k, j)
    {
      assert PairOk(s, k, j) && ClientOk(s, k);
      OneToken(s, j);
    }
  }

  ghost predicate Inv(s: Login) { Counted(s) && (s.timeouts == 0 ==> Identified(s)) }

  lemma EventInv(s: Login, e: Event)
    requires Inv(s)
    ensures Inv(Next(s, e))
  {
    EventCounted(s, e);
    if s.timeouts == 0 {
      match e {
        case Step(i) => if i < |s.clients| { ClientIdentified(s, i); }
        case Serve => ServerIdentified(s);
        case Expire =>
      }
    }
  }

  lemma {:induction false} RunInv(s: Login, es: seq<Event>)
    requires Inv(s)
    ensures Inv(Run(s, es))
    decreases |es|
  {
    if es != [] {
      EventInv(s, es[0]);
      RunInv(Next(s, es[0]), es[1..]);
    }
  }

  lemma InitInv(names: seq<string>)
    ensures Inv(Init(names))
  {
    var s := Init(names);
    TotalWithin(s.clients, ClientToken, 0, 0);
    TotalWithin(s.clients, AwaitingUnit, 0, 0);
    TotalWithin(s.clients, ReadingUnit, 0, 0);
  }

  // ----- What holds over every run -----

  /** Every timeout of the server adds a token: there is exactly one if and only if none has expired. */
  lemma TokensCountTimeouts(names: seq<string>, es: seq<Event>)
    ensures var s := Run(Init(names), es);
            Tokens(s) == 1 + s.timeouts
  {
    InitInv(names);
    RunInv(Init(names), es);
  }

  /** The processes at the login buffer: a client about to write its name or read its id, the server
      about to read the name or write the id. */
  predicate ClientAtBuffer(c: Client) { c.at == Writing || c.at == Reading }
  predicate ServerAtBuffer(at: ServerAt) { at == Registering || at == Replying }

  /** Nobody else is at the buffer. */
  ghost predicate ExclusiveTo(s: Login, i: nat) {
    !ServerAtBuffer(s.server) && forall j :: 0 <= j < |s.clients| && j != i ==> !ClientAtBuffer(s.clients[j])
  }

  ghost predicate Exclusive(s: Login) {
    forall i :: 0 <= i < |s.clients| && ClientAtBuffer(s.clients[i]) ==> ExclusiveTo(s, i)
  }

  ghost predicate DistinctIds(s: Login) {
    forall i, j :: 0 <= i < |s.clients| && 0 <= j < |s.clients| && i != j && Known(s.clients[i]) && Known(s.clients[j]) ==>
      s.clients[i].at.id != s.clients[j].at.id
  }

  /** Client i, once it knows an id, knows the slot with its own name. */
  predicate OwnId(s: Login, names: seq<string>, i: nat)
    requires i < |s.clients|
  {
    Known(s.clients[i]) ==>
      i < |names| && 1 <= s.clients[i].at.id <= |s.users| && s.users[s.clients[i].at.id - 1] == Slot(s.clients[i].at.id, names[i])
  }

  ghost predicate OwnIds(s: Login, names: seq<string>) { forall i :: 0 <= i < |s.clients| ==> OwnId(s, names, i) }

  /** Without a timeout at most one process is at the login buffer. */
  lemma BufferExclusive(names: seq<string>, es: seq<Event>, i: nat)
    requires Run(Init(names), es).timeouts == 0
    requires i < |Run(Init(names), es).clients| && ClientAtBuffer(Run(Init(names), es).clients[i])
    ensures var s := Run(Init(names), es);
            && !ServerAtBuffer(s.server)
            && forall j :: 0 <= j < |s.clients| && j != i ==> !ClientAtBuffer(s.clients[j])
  {
    InitInv(names);
    RunInv(Init(names), es);
    OneToken(Run(Init(names), es), i);
  }

  /** Without a timeout each client learns the id of the slot that holds its own name, and no two
      clients learn the same id. */
  lemma OwnIdentity(names: seq<string>, es: seq<Event>, i: nat)
    requires Run(Init(names), es).timeouts == 0
    requires i < |Run(Init(names), es).clients| && Known(Run(Init(names), es).clients[i])
    ensures var s := Run(Init(names), es);
            && |s.clients| == |names|
            && var id := s.clients[i].at.id;
               && 1 <= id <= |s.users| && s.users[id - 1] == Slot(id, names[i])
               && forall j :: 0 <= j < |s.clients| && j != i && Known(s.clients[j]) ==> s.clients[j].at.id != id
  {
    var s := Run(Init(names), es);
    InitInv(names);
    RunInv(Init(names), es);
    NamesKept(Init(names), es);
    assert ClientOk(s, i) && s.clients[i].name == names[i];
    forall j | 0 <= j < |s.clients| && j != i && Known(s.clients[j])
      ensures s.clients[j].at.id != s.clients[i].at.id
    {
      assert PairOk(s, i, j);
    }
  }

  lemma {:induction false} NamesKept(s: Login, es: seq<Event>)
    ensures var s' := Run(s, es);
            |s'.clients| == |s.clients| && forall i :: 0 <= i < |s.clients| ==> s'.clients[i].name == s.clients[i].name
    decreases |es|
  {
    if es != [] { NamesKept(Next(s, es[0]), es[1..]); }
  }

  // ----- A timeout breaks it -----

  lemma {:induction false} RunThen(s: Login, es: seq<Event>, e: Event)
    ensures Run(s, es + [e]) == Next(Run(s, es), e)
    decreases |es|
  {
    if es == [] {
      assert [e][1..] == [];
    } else {
      assert (es + [e])[1..] == es[1..] + [e];
      RunThen(Next(s, es[0]), es[1..], e);
    }
  }

  lemma Then(s: Login, es: seq<Event>, e: Event) returns (es': seq<Event>)
    ensures Run(s, es') == Next(Run(s, es), e)
  {
    RunThen(s, es, e);
    es' := es + [e];
  }

  /** A client posts its name and waits for its id. */
  lemma AskInTurn(s0: Login, es: seq<Event>, i: nat) returns (es': seq<Event>)
    requires var s := Run(s0, es);
             i < |s.clients| && s.clients[i].at == Entering && s.usr > 0
    ensures var s := Run(s0, es);
            Run(s0, es') == At(s, i, Awaiting).(usr := s.usr - 1, ctos := s.clients[i].name, cts := s.cts + 1)
  {
    es' := Then(s0, es, Step(i));
    es' := Then(s0, es', Step(i));
    es' := Then(s0, es', Step(i));
  }

  /** The server registers the name in the buffer and writes the new id. */
  lemma AnswerInTurn(s0: Login, es: seq<Event>) returns (es': seq<Event>)
    requires var s := Run(s0, es);
             s.server == Scanning && s.cts > 0
    ensures var s := Run(s0, es);
            Run(s0, es') == s.(cts := s.cts - 1, users := s.users + [Slot(|s.users| + 1, s.ctos)],
                               stoc := |s.users| + 1, server := Answering)
  {
    es' := Then(s0, es, Serve);
    es' := Then(s0, es', Serve);
    es' := Then(s0, es', Serve);
  }

  /** The server posts its answer, gives up on the client and lets the next one in. */
  lemma GiveUpInTurn(s0: Login, es: seq<Event>) returns (es': seq<Event>)
    requires var s := Run(s0, es);
             s.server == Answering && s.srv == 0 && s.users != []
    ensures Run(s0, es') == GivenUpOne(Run(s0, es))
  {
    var s := Run(s0, es);
    es' := Then(s0, es, Serve);
    es' := Then(s0, es', Expire);
    assert Run(s0, es') == GivenUpOne(s).(usr := s.usr, server := Finishing);
    es' := Then(s0, es', Serve);
  }

  function GivenUpOne(s: Login): Login
    requires s.users != []
  {
    var last := |s.users| - 1;
    s.(stc := s.stc + 1, users := s.users[last := s.users[last].(id := -1)], timeouts := s.timeouts + 1, usr := s.usr + 1,
       server := Scanning)
  }

  /** A client takes an answer and reads the id in the buffer. */
  lemma ReadInTurn(s0: Login, es: seq<Event>, i: nat) returns (es': seq<Event>)
    requires var s := Run(s0, es);
             i < |s.clients| && s.clients[i].at == Awaiting && s.stc > 0
    ensures var s := Run(s0, es);
            Run(s0, es') == At(s, i, Opening(s.stoc)).(stc := s.stc - 1)
  {
    es' := Then(s0, es, Step(i));
    es' := Then(s0, es', Step(i));
  }

  lemma SameIdTwice(s: Login, id: nat)
    requires |s.clients| >= 2 && s.clients[0].at == Opening(id) && s.clients[1].at == Opening(id)
    ensures !DistinctIds(s)
  {
    assert Known(s.clients[0]) && Known(s.clients[1]);
  }

  /** The first k clients have asked and been given up, the others not yet begun: k answers wait in stc, and
      the buffer holds the last of them. */
  predicate GivenUp(s: Login, names: seq<string>, k: nat) {
    && s.usr == 1 && s.cts == 0 && s.stc == k && s.srv == 0 && s.server == Scanning && s.stoc == k && s.timeouts == k
    && |s.users| == k && (forall j :: 0 <= j < k ==> s.users[j].id == -1)
    && |s.clients| == |names|
    && forall j :: 0 <= j < |names| ==> s.clients[j] == Client(names[j], if j < k then Awaiting else Entering)
  }

  lemma {:induction false} GiveUpAll(names: seq<string>, k: nat) returns (es: seq<Event>)
    requires k <= |names|
    ensures GivenUp(Run(Init(names), es), names, k)
  {
    if k == 0 {
      es := [];
    } else {
      es := GiveUpAll(names, k - 1);
      es := AskInTurn(Init(names), es, k - 1);
      es := AnswerInTurn(Init(names), es);
      es := GiveUpInTurn(Init(names), es);
    }
  }

  /** With timeouts two clients can be at the buffer: client 0 is about to read it, client 1 to read or
      write it. */
  lemma TimeoutBreaksExclusion(names: seq<string>, k: nat) returns (es: seq<Event>)
    requires 1 <= k <= |names| && |names| >= 2
    ensures Run(Init(names), es).timeouts == k && !Exclusive(Run(Init(names), es))
  {
    es := GiveUpAll(names, k);
    es := Then(Init(names), es, Step(0));
    es := Then(Init(names), es, Step(1));
    var s := Run(Init(names), es);
    assert ClientAtBuffer(s.clients[0]) && ClientAtBuffer(s.clients[1]);
  }

  /** After a single timeout a slow client can read the id of another client: the server answers
      client 1 before client 0 has read its own answer. */
  lemma TimeoutBreaksIdentity(names: seq<string>) returns (es: seq<Event>)
    requires |names| >= 2
    ensures var s := Run(Init(names), es);
            && s.timeouts == 1 && |s.clients| == |names| && |s.users| == 2 && s.users[1] == Slot(2, names[1])
            && s.clients[0].at == Opening(2)
            && s.clients[1].at == Awaiting && s.server == Answering && s.stoc == 2
  {
    es := GiveUpAll(names, 1);
    es := AskInTurn(Init(names), es, 1);
    es := AnswerInTurn(Init(names), es);
    es := ReadInTurn(Init(names), es, 0);
  }

  /** Clients 0 and 1 read the same id, the second one after the server has posted its answer. */
  lemma OneTimeoutSharesAnId(names: seq<string>) returns (es: seq<Event>)
    requires |names| >= 2
    ensures Run(Init(names), es).timeouts == 1 && !DistinctIds(Run(Init(names), es))
  {
    var s0 := Init(names);
    es := TimeoutBreaksIdentity(names);
    es := Then(s0, es, Serve);
    es := ReadInTurn(s0, es, 1);
    SameIdTwice(Run(s0, es), 2);
  }

  /** With any number of timeouts two clients can come to know the same id. */
  lemma TimeoutsShareAnId(names: seq<string>, k: nat) returns (es: seq<Event>)
    requires 1 <= k <= |names| && |names| >= 2
    ensures Run(Init(names), es).timeouts == k && !DistinctIds(Run(Init(names), es))
  {
    if k == 1 {
      es := OneTimeoutSharesAnId(names);
    } else {
      es := GiveUpAll(names, k);
      es := ReadInTurn(Init(names), es, 0);
      es := ReadInTurn(Init(names), es, 1);
      SameIdTwice(Run(Init(names), es), k);
    }
  }

  /** A client that was given up reads an id whose slot is gone. */
  lemma TimeoutLosesSlot(names: seq<string>) returns (es: seq<Event>)
    requires |names| >= 1
    ensures Run(Init(names), es).timeouts == 1 && !OwnIds(Run(Init(names), es), names)
  {
    es := GiveUpAll(names, 1);
    es := ReadInTurn(Init(names), es, 0);
    assert !OwnId(Run(Init(names), es), names, 0);
  }

  // ----- How many timeouts there can be -----

  function PostedUnit(c: Client): int { if c.at.Entering? || c.at.Writing? || c.at.Posting? then 0 else 1 }

  function GoneUnit(slot: Slot): int { if Connected(slot) then 0 else 1 }

  /** The newest slot belongs to the login under way. */
  predicate UnderWay(at: ServerAt) { at == Replying || at == Answering || at == Waiting }

  /** Every slot stems from a client's post, every timeout has given up one slot, and the login under way
      still has its own. */
  ghost predicate Bounded(s: Login) {
    && Total(s.clients, PostedUnit) == |s.users| + s.cts + (if s.server == Registering then 1 else 0)
    && s.timeouts == Total(s.users, GoneUnit)
    && (UnderWay(s.server) ==> s.users != [] && Connected(s.users[|s.users| - 1]))
  }

  lemma ExpireBounded(s: Login)
    requires Bounded(s) && s.users != []
    ensures Bounded(Next(s, Expire)) && |Next(s, Expire).clients| == |s.clients|
  {
    var last := |s.users| - 1;
    TotalUpdate(s.users, last, s.users[last].(id := -1), GoneUnit);
  }

  lemma ClientBounded(s: Login, i: nat)
    requires Bounded(s) && i < |s.clients|
    ensures Bounded(ClientNext(s, i)) && |ClientNext(s, i).clients| == |s.clients|
  {
    var s' := ClientNext(s, i);
    TotalUpdate(s.clients, i, s'.clients[i], PostedUnit);
    assert s'.users == s.users && s'.timeouts == s.timeouts && s'.server == s.server;
  }

  lemma ServerBounded(s: Login)
    requires Bounded(s)
    ensures Bounded(ServerNext(s)) && |ServerNext(s).clients| == |s.clients|
  {
    var s' := ServerNext(s);
    TotalAppend(s.users, Slot(|s.users| + 1, s.ctos), GoneUnit);
    assert s'.clients == s.clients && s'.timeouts == s.timeouts;
  }

  lemma EventBounded(s: Login, e: Event)
    requires Bounded(s)
    ensures Bounded(Next(s, e)) && |Next(s, e).clients| == |s.clients|
  {
    match e {
      case Step(i) => if i < |s.clients| { ClientBounded(s, i); }
      case Serve => ServerBounded(s);
      case Expire => if s.users != [] { ExpireBounded(s); }
    }
  }

  lemma {:induction false} RunBounded(s: Login, es: seq<Event>)
    requires Bounded(s)
    ensures Bounded(Run(s, es)) && |Run(s, es).clients| == |s.clients|
    decreases |es|
  {
    if es != [] {
      EventBounded(s, es[0]);
      RunBounded(Next(s, es[0]), es[1..]);
    }
  }

  lemma InitBounded(names: seq<string>)
    ensures Bounded(Init(names))
  {
    TotalWithin(Init(names).clients, PostedUnit, 0, 0);
  }

  /** A slot that was given up stays so. */
  lemma {:induction false} GoneForGood(s: Login, es: seq<Event>, k: nat)
    requires k < |s.users| && !Connected(s.users[k])
    ensures k < |Run(s, es).users| && !Connected(Run(s, es).users[k])
    decreases |es|
  {
    if es != [] { GoneForGood(Next(s, es[0]), es[1..], k); }
  }

  /** Every timeout gives up one slot, no slot is given up twice, and there are no more of them than clients. */
  lemma TimeoutsBounded(names: seq<string>, es: seq<Event>)
    ensures var s := Run(Init(names), es);
            s.timeouts == Total(s.users, GoneUnit) <= |s.users| <= |names|
  {
    var s := Run(Init(names), es);
    InitBounded(names);
    RunBounded(Init(names), es);
    TotalAtMostOnes(s.users, GoneUnit);
    TotalAtMostOnes(s.clients, PostedUnit);
  }

  // ----- Exactly when nobody can move -----

  /** A client that is about to open, or has opened, what belongs to the newest slot. */
  predicate Late(c: Client, newest: nat) { c.at == Reading || c.at == Opening(newest) || c.at.Confirming? }

  predicate ClientSound(s: Login, i: nat)
    requires i < |s.clients|
  {
    (s.clients[i].at == Reading ==> s.stoc >= 1) && (Known(s.clients[i]) ==> 1 <= s.clients[i].at.id <= |s.users|)
  }

  /** The server waits for a client that has the newest id before it, or has already posted. */
  ghost predicate Awaited(s: Login) {
    s.stc > 0 || s.srv > 0 || exists i :: 0 <= i < |s.clients| && Late(s.clients[i], |s.users|)
  }

  ghost predicate Sound(s: Login) {
    && s.stoc <= |s.users| && (s.stc > 0 ==> s.stoc >= 1)
    && (s.server == Answering || s.server == Waiting ==> s.stoc == |s.users|)
    && (forall i :: 0 <= i < |s.clients| ==> ClientSound(s, i))
    && (s.server == Waiting ==> Awaited(s))
  }

  lemma ClientKeepsSound(s: Login, i: nat)
    requires Sound(s) && i < |s.clients|
    ensures Sound(ClientNext(s, i))
  {
    var s' := ClientNext(s, i);
    assert ClientSound(s, i);
    forall j | 0 <= j < |s'.clients|
      ensures ClientSound(s', j)
    {
      assert ClientSound(s, j);
    }
    if s.server == Waiting { ClientKeepsAwaited(s, i); }
  }

  lemma ClientKeepsAwaited(s: Login, i: nat)
    requires Awaited(s) && i < |s.clients| && s.stoc == |s.users|
    ensures Awaited(ClientNext(s, i))
  {
    var s' := ClientNext(s, i);
    if Late(s'.clients[i], |s'.users|) || s'.srv > 0 || s'.stc > 0 {
    } else if s.stc == 0 && s.srv == 0 {
      var j :| 0 <= j < |s.clients| && Late(s.clients[j], |s.users|);
      assert Late(s'.clients[j], |s'.users|);
    }
  }

  lemma ServerKeepsSound(s: Login)
    requires Sound(s) && Bounded(s)
    ensures Sound(ServerNext(s))
  {
    var s' := ServerNext(s);
    forall j | 0 <= j < |s'.clients|
      ensures ClientSound(s', j)
    {
      assert ClientSound(s, j);
    }
  }

  lemma EventSound(s: Login, e: Event)
    requires Sound(s) && Bounded(s)
    ensures Sound(Next(s, e))
  {
    match e {
      case Step(i) => if i < |s.clients| { ClientKeepsSound(s, i); }
      case Serve => ServerKeepsSound(s);
      case Expire =>
        forall j | 0 <= j < |s.clients|
          ensures ClientSound(Next(s, e), j)
        {
          assert ClientSound(s, j);
        }
    }
  }

  lemma {:induction false} RunSound(s: Login, es: seq<Event>)
    requires Sound(s) && Bounded(s)
    ensures Sound(Run(s, es)) && Bounded(Run(s, es))
    decreases |es|
  {
    if es != [] {
      EventSound(s, es[0]);
      EventBounded(s, es[0]);
      RunSound(Next(s, es[0]), es[1..]);
    }
  }

  /** The client tries to open what a timeout has unlinked. */
  predicate Spins(s: Login, c: Client) { c.at.Opening? && 1 <= c.at.id <= |s.users| && !Connected(s.users[c.at.id - 1]) }

  /** No step of a client or of the server changes anything; the expiry of the server's wait is left aside. */
  ghost predicate Stuck(s: Login) {
    Next(s, Serve) == s && forall i :: 0 <= i < |s.clients| ==> Next(s, Step(i)) == s
  }

  /** The server finds no request, and every client is logged in or spins. */
  predicate Settled(s: Login) {
    && s.server == Scanning && s.cts == 0
    && forall i :: 0 <= i < |s.clients| ==> s.clients[i].at.LoggedIn? || Spins(s, s.clients[i])
  }

  /** With or without timeouts nobody can move if and only if the server is back at its scan without a request
      and every client is logged in or spins on an id that was given up. */
  lemma StuckExactly(names: seq<string>, es: seq<Event>)
    ensures Stuck(Run(Init(names), es)) <==> Settled(Run(Init(names), es))
  {
    var s := Run(Init(names), es);
    InitInv(names);
    RunInv(Init(names), es);
    InitBounded(names);
    RunSound(Init(names), es);
    if Settled(s) {
      SettledIsStuck(s);
    } else {
      var e := Mover(s);
      assert Next(s, Serve) != s || (e.Step? && Next(s, Step(e.i)) != s);
    }
  }

  lemma SettledIsStuck(s: Login)
    requires Settled(s)
    ensures Stuck(s)
  {
  }

  /** If nobody's rest is due, somebody can move. */
  lemma Mover(s: Login) returns (e: Event)
    requires Counted(s) && Sound(s) && Bounded(s) && !Settled(s)
    ensures !e.Expire? && Next(s, e) != s && (e.Step? ==> e.i < |s.clients|)
  {
    if ServerNext(s).server != s.server {
      e := Serve;
    } else if s.stc > 0 {
      TotalNonNegative(s.clients, AwaitingUnit);
      var j := TotalWitness(s.clients, AwaitingUnit);
      e := Step(j);
      assert ClientNext(s, j).stc != s.stc;
    } else if s.server == Waiting {
      var j :| 0 <= j < |s.clients| && Late(s.clients[j], |s.users|);
      e := Step(j);
      assert ClientNext(s, j).clients[j].at != s.clients[j].at;
    } else {
      e := ClientMover(s);
    }
  }

  function WritingUnit(c: Client): int { if c.at.Writing? || c.at.Posting? then 1 else 0 }

  /** The server is at its scan and no answer waits: usr is free, or a client is in its write section. */
  lemma ClientMover(s: Login) returns (e: Event)
    requires Counted(s) && Sound(s) && !Settled(s) && s.server == Scanning && s.cts == 0 && s.stc == 0
    ensures e.Step? && e.i < |s.clients| && Next(s, e) != s
  {
    TotalSplit(s.clients, ReadingUnit, WritingUnit, ClientToken);
    if s.usr == 0 {
      var j := TotalWitness(s.clients, WritingUnit);
      e := Step(j);
      assert ClientNext(s, j).clients[j].at != s.clients[j].at;
    } else {
      var i :| 0 <= i < |s.clients| && !s.clients[i].at.LoggedIn? && !Spins(s, s.clients[i]);
      assert ClientSound(s, i);
      TotalAtLeast(s.clients, i, AwaitingUnit);
      e := Step(i);
      assert ClientNext(s, i).clients[i].at != s.clients[i].at;
    }
  }

  /** A client that spins does so for ever. */
  lemma {:induction false} SpinsForGood(s: Login, es: seq<Event>, i: nat)
    requires i < |s.clients| && Spins(s, s.clients[i])
    ensures i < |Run(s, es).clients| && Run(s, es).clients[i] == s.clients[i] && Spins(Run(s, es), Run(s, es).clients[i])
    decreases |es|
  {
    if es != [] {
      var s' := Next(s, es[0]);
      assert s'.clients[i] == s.clients[i];
      SpinsForGood(s', es[1..], i);
    }
  }

  /** In every run, with or without timeouts, some process can move unless the login has settled: while a
      client is neither logged in nor spins, one always can. */
  lemma NeverStuck(names: seq<string>, es: seq<Event>, i: nat) returns (e: Event)
    requires var s := Run(Init(names), es);
             i < |s.clients| && !s.clients[i].at.LoggedIn? && !Spins(s, s.clients[i])
    ensures !e.Expire? && Next(Run(Init(names), es), e) != Run(Init(names), es)
  {
    InitInv(names);
    RunInv(Init(names), es);
    InitBounded(names);
    RunSound(Init(names), es);
    e := Mover(Run(Init(names), es));
  }

  /** A client is given up before it opens what the server has made for it: it spins for ever and is never
      logged in. */
  lemma TimeoutMakesSpin(names: seq<string>, k: nat) returns (es: seq<Event>)
    requires 1 <= k <= |names|
    ensures var s := Run(Init(names), es);
            s.timeouts == k && |s.clients| == |names| && Spins(s, s.clients[0])
  {
    es := GiveUpAll(names, k);
    es := ReadInTurn(Init(names), es, 0);
  }

  ghost predicate SomeoneSpins(s: Login) { exists i :: 0 <= i < |s.clients| && Spins(s, s.clients[i]) }

  /** For runs with k timeouts: no client ever spins if and only if k is 0 or there is no such run. */
  lemma SpinExactly(names: seq<string>, k: nat)
    ensures (forall es :: Run(Init(names), es).timeouts == k ==> !SomeoneSpins(Run(Init(names), es)))
        <==> k == 0 || k > |names|
  {
    if 1 <= k <= |names| {
      var es := TimeoutMakesSpin(names, k);
      assert SomeoneSpins(Run(Init(names), es));
    } else {
      forall es | Run(Init(names), es).timeouts == k
        ensures !SomeoneSpins(Run(Init(names), es))
      {
        TimeoutsBounded(names, es);
        OwnIdsRun(names, es);
        OwnSlotsExist(Run(Init(names), es), names);
      }
    }
  }

  lemma OwnSlotsExist(s: Login, names: seq<string>)
    requires OwnIds(s, names)
    ensures !SomeoneSpins(s)
  {
    forall i | 0 <= i < |s.clients|
      ensures !Spins(s, s.clients[i])
    {
      assert OwnId(s, names, i);
    }
  }

  /** One client alone, given up once: it ends up spinning, with nobody able to move. */
  lemma LoneClientSticks(name: string) returns (es: seq<Event>)
    ensures var s := Run(Init([name]), es);
            |s.clients| == 1 && s.clients[0].at == Opening(1) && s.users == [Slot(-1, name)] && s.server == Scanning && Stuck(s)
  {
    var s0 := Init([name]);
    es := AskInTurn(s0, [], 0);
    es := AnswerInTurn(s0, es);
    es := GiveUpInTurn(s0, es);
    assert Run(s0, es).users == [Slot(-1, name)] && Run(s0, es).clients == [Client(name, Awaiting)];
    es := ReadInTurn(s0, es, 0);
    SettledIsStuck(Run(s0, es));
  }

  // ----- Exactly when the login keeps its promises -----

  /** One client alone is never at the buffer together with the server, timeouts or not. */
  lemma LoneClient(s: Login)
    requires Counted(s) && |s.clients| <= 1
    ensures Exclusive(s)
  {
    forall i | 0 <= i < |s.clients| && ClientAtBuffer(s.clients[i])
      ensures ExclusiveTo(s, i)
    {
      assert s.clients == [s.clients[0]];
      TotalWithin(s.clients, AwaitingUnit, 0, 0);
    }
  }

  /** For runs with k timeouts: at most one process is ever at the buffer if and only if k is 0, or there is
      only one client, or there is no such run. */
  lemma ExclusiveExactly(names: seq<string>, k: nat)
    ensures (forall es :: Run(Init(names), es).timeouts == k ==> Exclusive(Run(Init(names), es)))
        <==> k == 0 || k > |names| || |names| <= 1
  {
    if 1 <= k <= |names| && |names| >= 2 {
      var es := TimeoutBreaksExclusion(names, k);
    } else {
      forall es | Run(Init(names), es).timeouts == k
        ensures Exclusive(Run(Init(names), es))
      {
        TimeoutsBounded(names, es);
        ExclusiveRun(names, es);
      }
    }
  }

  lemma ExclusiveRun(names: seq<string>, es: seq<Event>)
    requires Run(Init(names), es).timeouts == 0 || |names| <= 1
    ensures Exclusive(Run(Init(names), es))
  {
    var s := Run(Init(names), es);
    InitInv(names);
    RunInv(Init(names), es);
    NamesKept(Init(names), es);
    if |names| <= 1 {
      LoneClient(s);
    } else {
      forall i | 0 <= i < |s.clients| && ClientAtBuffer(s.clients[i])
        ensures ExclusiveTo(s, i)
      {
        BufferExclusive(names, es, i);
      }
    }
  }

  /** For runs with k timeouts: no two clients ever know the same id if and only if k is 0, or there is only
      one client, or there is no such run. */
  lemma DistinctIdsExactly(names: seq<string>, k: nat)
    ensures (forall es :: Run(Init(names), es).timeouts == k ==> DistinctIds(Run(Init(names), es)))
        <==> k == 0 || k > |names| || |names| <= 1
  {
    if 1 <= k <= |names| && |names| >= 2 {
      var es := TimeoutsShareAnId(names, k);
    } else {
      forall es | Run(Init(names), es).timeouts == k
        ensures DistinctIds(Run(Init(names), es))
      {
        TimeoutsBounded(names, es);
        NamesKept(Init(names), es);
        if k == 0 { OwnIdsRun(names, es); }
      }
    }
  }

  lemma OwnIdsRun(names: seq<string>, es: seq<Event>)
    requires Run(Init(names), es).timeouts == 0
    ensures OwnIds(Run(Init(names), es), names) && DistinctIds(Run(Init(names), es))
  {
    var s := Run(Init(names), es);
    NamesKept(Init(names), es);
    forall i | 0 <= i < |s.clients| && Known(s.clients[i])
      ensures OwnId(s, names, i)
      ensures forall j :: 0 <= j < |s.clients| && j != i && Known(s.clients[j]) ==> s.clients[j].at.id != s.clients[i].at.id
    {
      OwnIdentity(names, es, i);
    }
  }

  /** For runs with k timeouts: every client that knows an id knows a slot with its own name, and nobody else
      knows that id, if and only if k is 0 or there is no such run. */
  lemma OwnIdsExactly(names: seq<string>, k: nat)
    ensures (forall es :: Run(Init(names), es).timeouts == k ==> OwnIds(Run(Init(names), es), names) && DistinctIds(Run(Init(names), es)))
        <==> k == 0 || k > |names|
  {
    if 1 <= k <= |names| {
      if |names| >= 2 {
        var es := TimeoutsShareAnId(names, k);
      } else {
        var es := TimeoutLosesSlot(names);
      }
    } else {
      forall es | Run(Init(names), es).timeouts == k
        ensures OwnIds(Run(Init(names), es), names) && DistinctIds(Run(Init(names), es))
      {
        TimeoutsBounded(names, es);
        OwnIdsRun(names, es);
      }
    }
  }

  // ----- The processes -----

  /** The shared segment, the semaphores, the server's table and every process's position. */
  class Shared {
    var usr: nat
    var cts: nat
    var stc: nat
    var srv: nat
    var ctos: string
    var stoc: nat
    var server: ServerAt
    var users: seq<Slot>
    var clients: seq<Client>
    ghost var timeouts: nat

    ghost function State(): Login
      reads this
    {
      Login(usr, cts, stc, srv, ctos, stoc, server, users, clients, timeouts)
    }

    constructor (names: seq<string>)
      ensures State() == Init(names) && Inv(State())
    {
      InitInv(names);
      usr, cts, stc, srv, ctos, stoc := 1, 0, 0, 0, "", 0;
      server, users, timeouts := Scanning, [], 0;
      clients := seq(|names|, i requires 0 <= i < |names| => Client(names[i], Entering));
    }

    method ClientStep(i: nat)
      requires i < |clients|
      modifies this
      ensures State() == Next(old(State()), Step(i))
    {
      var at := clients[i].at;
      match at {
        case Entering =>
          if usr > 0 { usr := usr - 1; at := Writing; }
        case Writing =>
          ctos := clients[i].name;
          at := Posting;
        case Posting =>
          cts := cts + 1;
          at := Awaiting;
        case Awaiting =>
          if stc > 0 { stc := stc - 1; at := Reading; }
        case Reading =>
          at := Opening(stoc);
        case Opening(id) =>
          if Exists(users, id) { at := Confirming(id); }
        case Confirming(id) =>
          srv := srv + 1;
          at := LoggedIn(id);
        case LoggedIn(_) =>
      }
      assert at == clients[i].at ==> clients[i := clients[i].(at := at)] == clients;
      clients := clients[i := clients[i].(at := at)];
    }

    method ServerStep()
      modifies this
      ensures State() == Next(old(State()), Serve)
    {
      match server {
        case Scanning =>
          if cts > 0 { cts := cts - 1; server := Registering; }
        case Registering =>
          users := users + [Slot(|users| + 1, ctos)];
          server := Replying;
        case Replying =>
          stoc := |users|;
          server := Answering;
        case Answering =>
          stc := stc + 1;
          server := Waiting;
        case Waiting =>
          if srv > 0 { srv := srv - 1; server := Finishing; }
        case Finishing =>
          usr := usr + 1;
          server := Scanning;
      }
    }

    method TimedWaitExpires()
      requires server == Waiting && srv == 0 && users != []
      modifies this
      ensures State() == Next(old(State()), Expire)
    {
      users := users[|users| - 1 := users[|users| - 1].(id := -1)];
      timeouts := timeouts + 1;
      server := Finishing;
    }

    method Perform(e: Event)
      requires Inv(State())
      modifies this
      ensures State() == Next(old(State()), e) && Inv(State())
    {
      EventInv(State(), e);
      match e {
        case Step(i) => if i < |clients| { ClientStep(i); }
        case Serve => ServerStep();
        case Expire => if server == Waiting && srv == 0 && users != [] { TimedWaitExpires(); }
      }
    }

    /** Whatever the schedule, every timeout adds one token; without one, no two clients know the same id and
        each knows its own slot. */
    method Execute(es: seq<Event>)
      requires Inv(State())
      modifies this
      ensures State() == Run(old(State()), es) && Inv(State())
      ensures usr + cts + stc + srv + Total(clients, ClientToken) + ServerToken(server) == 1 + timeouts
      ensures timeouts == 0 ==>
        forall i :: 0 <= i < |clients| && Known(clients[i]) ==>
          1 <= clients[i].at.id <= |users| && users[clients[i].at.id - 1] == Slot(clients[i].at.id, clients[i].name)
    {
      for k := 0 to |es|
        invariant Run(State(), es[k..]) == Run(old(State()), es) && Inv(State())
      {
        Perform(es[k]);
      }
      forall i | 0 <= i < |clients| && Known(clients[i]) && timeouts == 0
        ensures 1 <= clients[i].at.id <= |users| && users[clients[i].at.id - 1] == Slot(clients[i].at.id, clients[i].name)
      {
        assert ClientOk(State(), i);
      }
    }
  }
}
