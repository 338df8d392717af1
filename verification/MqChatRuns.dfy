/**
  The other half of the chat of homework12_message_queue: what is not lost, and why what is lost is lost; what
  the lists say; and what one pass of the server over its users does. The results come first.
 */
module MqChatRuns {
  import opened Sums
  import opened Roster
  import opened PosixQueue
  import opened Subsequences
  import opened MqChat

  // ----- What reaches a user -----

  /** The server is about to send to user i, who is connected. */
  predicate Reaches(s: Chat, i: nat) {
    s.server.Pushing? && s.server.k == i && i < |s.users| == |s.links| && Connected(s.users[i])
  }

  predicate FullAt(cfg: Config, s: Chat, i: nat)
    requires i < |s.links|
  {
    |s.links[i].down| >= cfg.cap
  }

  function PosOf(d: Down): int { if d.Chat? then d.line.pos else d.pos }

  /** What event e drops for user i: the message of priority p whose turn it is, if the queue is full. */
  function DropOf(cfg: Config, s: Chat, e: Event, p: nat, i: nat): set<int> {
    if e.Serve? && Reaches(s, i) && s.server.item.prio == p && FullAt(cfg, s, i) then {PosOf(s.server.item.body)} else {}
  }

  /** The numbers of the broadcasts dropped for user i in a run. */
  function Drops(cfg: Config, s: Chat, es: seq<Event>, p: nat, i: nat): set<int>
    decreases |es|
  {
    if es == [] then {} else DropOf(cfg, s, es[0], p, i) + Drops(cfg, Next(cfg, s, es[0]), es[1..], p, i)
  }

  /** A sequence of broadcasts without those of some numbers. */
  function Except(log: seq<Down>, dropped: set<int>): seq<Down> {
    if log == [] then []
    else
      var last := log[|log| - 1];
      Except(log[..|log| - 1], dropped) + if PosOf(last) in dropped then [] else [last]
  }

  /** The messages that belong to a broadcast, without the answers to requests. */
  function Numbered(ds: seq<Down>): seq<Down> {
    if ds == [] then []
    else
      var last := ds[|ds| - 1];
      Numbered(ds[..|ds| - 1]) + if PosOf(last) >= 0 then [last] else []
  }

  /** The broadcast of priority p under way has still to reach user i. */
  predicate Coming(at: ServerAt, p: nat, i: nat) { at.Pushing? && at.item.prio == p && at.k <= i }

  function LogOf(s: Chat, p: nat): seq<Down> { if p == MSGSND_PRIO then s.log else s.lists }

  /** The broadcasts of priority p as far as user i can have got them. */
  function SoFar(s: Chat, p: nat, i: nat): seq<Down> {
    var log := LogOf(s, p);
    if Coming(s.server, p, i) && log != [] then log[..|log| - 1] else log
  }

  function FromOf(link: Link, p: nat): nat { if p == MSGSND_PRIO then link.fromLine else link.fromList }

  /** What a user has received of a priority, and after it what waits. */
  function Held(link: Link, p: nat): seq<Down> {
    (if p == MSGSND_PRIO then link.got else link.gotLists) + Bodies(OfPrio(link.down, p))
  }

  /** A line is missing for a connected user only because that user's queue was full at its turn: what it has
      received and what waits are the lines since its login, in order, but those and the one still to come. */
  lemma LinesAreComplete(cfg: Config, es: seq<Event>, i: nat)
    requires var s := Run(cfg, Init(cfg), es);
             i < |s.users| && i < |s.links| && Connected(s.users[i])
    ensures var s := Run(cfg, Init(cfg), es);
            var dropped := Drops(cfg, Init(cfg), es, MSGSND_PRIO, i);
            && s.links[i].fromLine <= |SoFar(s, MSGSND_PRIO, i)|
            && Held(s.links[i], MSGSND_PRIO) == Except(SoFar(s, MSGSND_PRIO, i)[s.links[i].fromLine..], dropped)
            && (dropped == {} ==> Held(s.links[i], MSGSND_PRIO) == SoFar(s, MSGSND_PRIO, i)[s.links[i].fromLine..])
  {
    var s := Run(cfg, Init(cfg), es);
    Kept(cfg, es, MSGSND_PRIO, i);
    Reachable(cfg, es);
    AllLines(cfg, s, i);
    NothingDropped(SoFar(s, MSGSND_PRIO, i)[s.links[i].fromLine..]);
  }

  /** The same for the lists broadcast; the answers to requests are counted apart. */
  lemma ListsAreComplete(cfg: Config, es: seq<Event>, i: nat)
    requires var s := Run(cfg, Init(cfg), es);
             i < |s.users| && i < |s.links| && Connected(s.users[i])
    ensures var s := Run(cfg, Init(cfg), es);
            var dropped := Drops(cfg, Init(cfg), es, UPD_USRLIST_PRIO, i);
            && s.links[i].fromList <= |SoFar(s, UPD_USRLIST_PRIO, i)|
            && Numbered(Held(s.links[i], UPD_USRLIST_PRIO))
               == Except(SoFar(s, UPD_USRLIST_PRIO, i)[s.links[i].fromList..], dropped)
            && (dropped == {} ==>
                  Numbered(Held(s.links[i], UPD_USRLIST_PRIO)) == SoFar(s, UPD_USRLIST_PRIO, i)[s.links[i].fromList..])
  {
    var s := Run(cfg, Init(cfg), es);
    Kept(cfg, es, UPD_USRLIST_PRIO, i);
    NothingDropped(SoFar(s, UPD_USRLIST_PRIO, i)[s.links[i].fromList..]);
  }

  /** The server takes a list request of user i. */
  predicate TakesRequest(s: Chat, i: nat) {
    && s.server == Scanning && s.index == i && i < |s.users| == |s.links| && Connected(s.users[i])
    && s.links[i].up != [] && s.links[i].up[0].prio == REQ_USRLIST_PRIO
  }

  /** The answer that event e gives to user i: the list of the moment, unless the queue is full. */
  function AnswerNow(cfg: Config, s: Chat, e: Event, i: nat): seq<Down> {
    if e.Serve? && TakesRequest(s, i) && !FullAt(cfg, s, i) then [UserList(-1, s.usersList)] else []
  }

  /** The answers that the requests of user i are due in a run. */
  function AnswersDue(cfg: Config, s: Chat, es: seq<Event>, i: nat): seq<Down>
    decreases |es|
  {
    if es == [] then []
    else
      AnswerNow(cfg, s, es[0], i) + AnswersDue(cfg, Next(cfg, s, es[0]), es[1..], i)
  }

  /** The messages that answer requests. */
  function Answers(ds: seq<Down>): seq<Down> {
    if ds == [] then []
    else
      var last := ds[|ds| - 1];
      Answers(ds[..|ds| - 1]) + if PosOf(last) < 0 then [last] else []
  }

  /** Every list request is answered with the list of that moment, unless the queue is full. */
  lemma RequestsAreAnswered(cfg: Config, es: seq<Event>, i: nat)
    requires i < |Run(cfg, Init(cfg), es).links|
    ensures Answers(Held(Run(cfg, Init(cfg), es).links[i], UPD_USRLIST_PRIO)) == AnswersDue(cfg, Init(cfg), es, i)
  {
    AnswersRun(cfg, es, i);
  }

  // ----- What the lists say -----

  /** While the server runs, the last list broadcast is the server's list. */
  predicate ListCurrent(s: Chat) {
    s.server != Stopped ==> (if s.lists == [] then s.usersList == "" else s.lists[|s.lists| - 1] == UserList(|s.lists| - 1, s.usersList))
  }

  /** So a connected user for whom no list was dropped and whom none has still to reach has, as the last one
      received or waiting, the list of the server. */
  lemma UsersGetTheList(cfg: Config, es: seq<Event>, i: nat)
    requires var s := Run(cfg, Init(cfg), es);
             && i < |s.users| && i < |s.links| && Connected(s.users[i]) && !Coming(s.server, UPD_USRLIST_PRIO, i)
             && Drops(cfg, Init(cfg), es, UPD_USRLIST_PRIO, i) == {}
    ensures var s := Run(cfg, Init(cfg), es);
            var lists := Numbered(Held(s.links[i], UPD_USRLIST_PRIO));
            lists != [] && lists[|lists| - 1].UserList? && lists[|lists| - 1].text == s.usersList
  {
    var s := Run(cfg, Init(cfg), es);
    ListsAreComplete(cfg, es, i);
    InitDelivery(cfg);
    RunDelivery(cfg, Init(cfg), es);
    Reachable(cfg, es);
    RunBegins(cfg, Init(cfg), es);
    ConnectedRuns(s, i);
  }

  // ----- What the server reads -----

  /** The line that event e sends for user i, if the upload queue has room. */
  function AcceptedNow(cfg: Config, s: Chat, e: Event, i: nat): seq<string> {
    if e.Send? && e.i == i < |s.links| && e.prio == USER_PRIO && |s.links[i].up| < cfg.cap then [e.text] else []
  }

  /** The lines of user i that its upload queue had room for, in a run. */
  function Accepted(cfg: Config, s: Chat, es: seq<Event>, i: nat): seq<string>
    decreases |es|
  {
    if es == [] then []
    else
      AcceptedNow(cfg, s, es[0], i) + Accepted(cfg, Next(cfg, s, es[0]), es[1..], i)
  }

  /** Every line that the upload queue had room for is logged or waits, in order and unchanged. */
  lemma UploadsAreComplete(cfg: Config, es: seq<Event>, i: nat)
    requires i < |Run(cfg, Init(cfg), es).links|
    ensures var s := Run(cfg, Init(cfg), es);
            Said(s.log, i) + Bodies(OfPrio(s.links[i].up, USER_PRIO)) == Accepted(cfg, Init(cfg), es, i)
  {
    RunUpload(cfg, es, i);
  }

  function Serves(n: nat): seq<Event> { seq(n, k => Serve) }

  /** What a pass has taken from user i: the head of its upload queue, if it is connected. */
  predicate TakenOnce(s: Chat, s': Chat, i: nat)
    requires i < |s.users| == |s.links|
  {
    i < |s'.links| && s'.links[i].up == if Connected(s.users[i]) && s.links[i].up != [] then s.links[i].up[1..] else s.links[i].up
  }

  /** From every reachable state at the login queue the server, left alone, comes back there or stops, and if it
      comes back it has taken exactly one message from every connected user that had one. */
  lemma PassServesEverybody(cfg: Config, es: seq<Event>) returns (n: nat)
    requires Run(cfg, Init(cfg), es).server == AtLogin
    ensures var s := Run(cfg, Init(cfg), es);
            var s' := Run(cfg, s, Serves(n));
            && n > 0 && |s.users| == |s.links|
            && (s'.server == Stopped || (s'.server == AtLogin && forall i :: 0 <= i < |s.users| ==> TakenOnce(s, s', i)))
  {
    Reachable(cfg, es);
    var s := Run(cfg, Init(cfg), es);
    var s1 := ServeOn(cfg)(s);
    n := PassFrom(cfg, s1, 0);
    assert Iterate(ServeOn(cfg), s, n + 1) == Iterate(ServeOn(cfg), s1, n);
    n := n + 1;
    ServesIterate(cfg, s, n);
  }

  /** A disconnection stops the server exactly if nobody else is connected. */
  lemma QuitStopsExactly(cfg: Config, es: seq<Event>)
    requires var s := Run(cfg, Init(cfg), es);
             && s.server == Scanning && 0 <= s.index < |s.users| == |s.links| && Connected(s.users[s.index])
             && s.links[s.index].up != [] && s.links[s.index].up[0].prio == DISCONNECT_PRIO
    ensures var s := Run(cfg, Init(cfg), es);
            Next(cfg, s, Serve).server == Stopped <==> forall j :: 0 <= j < |s.users| && j != s.index ==> !Connected(s.users[j])
  {
    Reachable(cfg, es);
    var s := Run(cfg, Init(cfg), es);
    OthersConnected(s.users, s.index);
  }

  /** A rename puts the new name into the user's slot and leaves its id and the other slots alone, and the list
      is that of the new table. */
  lemma RenameStoresName(cfg: Config, es: seq<Event>)
    requires var s := Run(cfg, Init(cfg), es);
             && s.server == Scanning && 0 <= s.index < |s.users| == |s.links| && Connected(s.users[s.index])
             && s.links[s.index].up != [] && s.links[s.index].up[0].prio == SET_USRNAME_PRIO
    ensures var s := Run(cfg, Init(cfg), es);
            var s' := Next(cfg, s, Serve);
            && |s'.users| == |s.users| && s'.usersList == ListText(s'.users)
            && s'.users[s.index] == Slot(s.users[s.index].id, s.links[s.index].up[0].body)
            && (forall j :: 0 <= j < |s.users| && j != s.index ==> s'.users[j] == s.users[j])
            && s'.active == s.active && s'.lists == s.lists + [UserList(|s.lists|, ListText(s'.users))]
  {
  }

  // ----- Sequences of broadcasts -----

  lemma {:induction false} NothingDropped(log: seq<Down>)
    ensures Except(log, {}) == log
  {
    if log != [] { NothingDropped(log[..|log| - 1]); }
  }

  lemma ExceptAppend(log: seq<Down>, d: Down, dropped: set<int>)
    ensures Except(log + [d], dropped) == Except(log, dropped) + if PosOf(d) in dropped then [] else [d]
  {
    assert (log + [d])[..|log|] == log;
  }

  /** A number that does not occur changes nothing. */
  lemma {:induction false} ExceptFresh(log: seq<Down>, dropped: set<int>, pos: int)
    requires forall m :: 0 <= m < |log| ==> PosOf(log[m]) != pos
    ensures Except(log, dropped + {pos}) == Except(log, dropped)
  {
    if log != [] { ExceptFresh(log[..|log| - 1], dropped, pos); }
  }

  lemma NumberedAppend(ds: seq<Down>, d: Down)
    ensures Numbered(ds + [d]) == Numbered(ds) + if PosOf(d) >= 0 then [d] else []
  {
    assert (ds + [d])[..|ds|] == ds;
  }

  lemma {:induction false} AllNumbered(ds: seq<Down>)
    requires forall m :: 0 <= m < |ds| ==> PosOf(ds[m]) >= 0
    ensures Numbered(ds) == ds
  {
    if ds != [] { AllNumbered(ds[..|ds| - 1]); }
  }

  lemma AnswersAppend(ds: seq<Down>, d: Down)
    ensures Answers(ds + [d]) == Answers(ds) + if PosOf(d) < 0 then [d] else []
  {
    assert (ds + [d])[..|ds|] == ds;
  }

  lemma {:induction false} SubseqMembers<T>(a: seq<T>, b: seq<T>, k: nat)
    requires Subseq(a, b) && k < |a|
    ensures a[k] in b
    decreases |b|
  {
    if Subseq(a, b[..|b| - 1]) {
      SubseqMembers(a, b[..|b| - 1], k);
    } else if k < |a| - 1 {
      SubseqMembers(a[..|a| - 1], b[..|b| - 1], k);
    }
  }

  /** Lines all belong to broadcasts. */
  lemma AllLines(cfg: Config, s: Chat, i: nat)
    requires Inv(cfg, s) && i < |s.links|
    ensures Numbered(Held(s.links[i], MSGSND_PRIO)) == Held(s.links[i], MSGSND_PRIO)
  {
    assert DownloadOk(s, i);
    forall m | 0 <= m < |Held(s.links[i], MSGSND_PRIO)|
      ensures PosOf(Held(s.links[i], MSGSND_PRIO)[m]) >= 0
    {
      SubseqMembers(Held(s.links[i], MSGSND_PRIO), LogFor(s, i), m);
    }
    AllNumbered(Held(s.links[i], MSGSND_PRIO));
  }

  // ----- The invariant of the broadcasts -----

  /** Logs are numbered from 0, and a message being sent is the last of its log. */
  ghost predicate DeliveryOk(s: Chat) {
    && |s.users| == |s.links| && InSequence(s.log) && InSequence(s.lists)
    && (s.server.Pushing? ==> ItemOk(s, s.server.item))
    && ListCurrent(s)
  }

  ghost predicate InSequence(log: seq<Down>) { forall m :: 0 <= m < |log| ==> PosOf(log[m]) == m }

  predicate ItemOk(s: Chat, item: Item<Down>) {
    && (item.prio == MSGSND_PRIO || item.prio == UPD_USRLIST_PRIO)
    && LogOf(s, item.prio) != [] && item.body == LogOf(s, item.prio)[|LogOf(s, item.prio)| - 1]
  }

  lemma InitDelivery(cfg: Config)
    ensures DeliveryOk(Init(cfg))
  {
  }

  /** A log stays as it is or gains its next entry. */
  predicate Extends(log: seq<Down>, log': seq<Down>) {
    log' == log || (log' != [] && log'[..|log'| - 1] == log && PosOf(log'[|log'| - 1]) == |log|)
  }

  lemma EventExtends(cfg: Config, s: Chat, e: Event)
    ensures Extends(s.log, Next(cfg, s, e).log) && Extends(s.lists, Next(cfg, s, e).lists)
  {
  }

  lemma StaysInSequence(log: seq<Down>, log': seq<Down>)
    requires InSequence(log) && Extends(log, log')
    ensures InSequence(log')
  {
    forall m | 0 <= m < |log'|
      ensures PosOf(log'[m]) == m
    {
      if log' != log && m < |log| { assert log'[m] == log'[..|log'| - 1][m]; }
    }
  }

  lemma PushItem(cfg: Config, s: Chat)
    requires DeliveryOk(s) && s.server.Pushing?
    ensures var s' := ServerNext(cfg, s);
            && |s'.users| == |s'.links| && (s'.server.Pushing? ==> ItemOk(s', s'.server.item)) && ListCurrent(s')
  {
    var s' := ServerNext(cfg, s);
    assert s'.log == s.log && s'.lists == s.lists && s'.usersList == s.usersList && s'.server != Stopped;
  }

  lemma ServeItem(cfg: Config, s: Chat)
    requires DeliveryOk(s)
    ensures var s' := ServerNext(cfg, s);
            && |s'.users| == |s'.links| && (s'.server.Pushing? ==> ItemOk(s', s'.server.item)) && ListCurrent(s')
  {
    if s.server.Pushing? { PushItem(cfg, s); }
  }

  lemma EventItem(cfg: Config, s: Chat, e: Event)
    requires DeliveryOk(s)
    ensures var s' := Next(cfg, s, e);
            && |s'.users| == |s'.links| && (s'.server.Pushing? ==> ItemOk(s', s'.server.item)) && ListCurrent(s')
  {
    if e.Serve? { ServeItem(cfg, s); }
  }

  lemma EventDelivery(cfg: Config, s: Chat, e: Event)
    requires DeliveryOk(s)
    ensures DeliveryOk(Next(cfg, s, e))
  {
    EventExtends(cfg, s, e);
    StaysInSequence(s.log, Next(cfg, s, e).log);
    StaysInSequence(s.lists, Next(cfg, s, e).lists);
    EventItem(cfg, s, e);
  }

  lemma {:induction false} RunDelivery(cfg: Config, s: Chat, es: seq<Event>)
    requires DeliveryOk(s)
    ensures DeliveryOk(Run(cfg, s, es))
    decreases |es|
  {
    if es != [] {
      EventDelivery(cfg, s, es[0]);
      RunDelivery(cfg, Next(cfg, s, es[0]), es[1..]);
    }
  }

  /** What a connected user holds is what has been broadcast since its login and not dropped. */
  ghost predicate KeptOk(s: Chat, p: nat, i: nat, dropped: set<int>) {
    && (forall d :: d in dropped ==> i < |s.links| && d < |SoFar(s, p, i)|)
    && (i < |s.links| && i < |s.users| && Connected(s.users[i]) ==> KeptBy(s, p, i, dropped))
  }

  predicate KeptBy(s: Chat, p: nat, i: nat, dropped: set<int>)
    requires i < |s.links|
  {
    && FromOf(s.links[i], p) <= |SoFar(s, p, i)|
    && Numbered(Held(s.links[i], p)) == Except(SoFar(s, p, i)[FromOf(s.links[i], p)..], dropped)
  }

  predicate Kind(p: nat) { p == MSGSND_PRIO || p == UPD_USRLIST_PRIO }

  /** Events that neither broadcast, nor send to user i, nor take it away. */
  lemma SameKept(s: Chat, s': Chat, p: nat, i: nat, dropped: set<int>)
    requires KeptOk(s, p, i, dropped)
    requires |s'.links| == |s.links| && |s'.users| == |s.users| && SoFar(s', p, i) == SoFar(s, p, i)
    requires i < |s.links| ==> Numbered(Held(s'.links[i], p)) == Numbered(Held(s.links[i], p)) && FromOf(s'.links[i], p) == FromOf(s.links[i], p)
    requires i < |s.users| && Connected(s'.users[i]) ==> Connected(s.users[i])
    ensures KeptOk(s', p, i, dropped)
  {
  }

  /** Receiving moves a message from the queue to what was received. */
  lemma ReceiveHeld(s: Chat, j: nat, p: nat)
    requires j < |s.links| && s.links[j].down != [] && Kind(p)
    ensures Held(ReceiveDown(s, j).links[j], p) == Held(s.links[j], p)
  {
    var link := s.links[j];
    var rest := OfPrio(link.down[1..], p);
    ReceiveIsFifo(link.down, p);
    if link.down[0].prio == p {
      assert Bodies([link.down[0]] + rest) == [link.down[0].body] + Bodies(rest);
    } else {
      assert [] + rest == rest;
    }
  }

  /** Sending to a queue with room adds the message to what the user holds of its priority. */
  lemma PushHeld(cfg: Config, links: seq<Link>, k: nat, item: Item<Down>, p: nat)
    requires k < |links| && |links[k].down| < cfg.cap && Kind(p)
    ensures Held(Pushed(cfg, links, k, item)[k], p) == Held(links[k], p) + if item.prio == p then [item.body] else []
    ensures FromOf(Pushed(cfg, links, k, item)[k], p) == FromOf(links[k], p)
  {
    InsertIsFifo(links[k].down, item, p);
    var waiting := OfPrio(links[k].down, p);
    if item.prio == p {
      assert Bodies(waiting + [item]) == Bodies(waiting) + [item.body];
    } else {
      assert waiting + [] == waiting && Held(links[k], p) + [] == Held(links[k], p);
    }
  }

  /** The turn of user i with a full queue: the number joins the dropped ones. */
  lemma FullKept(cfg: Config, s: Chat, p: nat, i: nat, dropped: set<int>)
    requires DeliveryOk(s) && KeptOk(s, p, i, dropped) && Kind(p) && Reaches(s, i) && s.server.item.prio == p && FullAt(cfg, s, i)
    ensures KeptOk(ServerNext(cfg, s), p, i, dropped + {PosOf(s.server.item.body)})
  {
    SoFarGrows(cfg, s, p, i);
    SoFarInSequence(s, p, i);
    TurnLeaves(cfg, s, i);
    DropStep(SoFar(s, p, i), FromOf(s.links[i], p), s.server.item.body, dropped);
  }

  /** The turn of user i with room: the message joins what it holds. */
  lemma RoomKept(cfg: Config, s: Chat, p: nat, i: nat, dropped: set<int>)
    requires DeliveryOk(s) && KeptOk(s, p, i, dropped) && Kind(p) && Reaches(s, i) && s.server.item.prio == p && !FullAt(cfg, s, i)
    ensures KeptOk(ServerNext(cfg, s), p, i, dropped)
  {
    SoFarGrows(cfg, s, p, i);
    TurnLeaves(cfg, s, i);
    PushHeld(cfg, s.links, i, s.server.item, p);
    NumberedAppend(Held(s.links[i], p), s.server.item.body);
    AddStep(SoFar(s, p, i), FromOf(s.links[i], p), s.server.item.body, dropped);
  }

  /** Its turn for a message of the other priority. */
  lemma OtherKept(cfg: Config, s: Chat, p: nat, i: nat, dropped: set<int>)
    requires DeliveryOk(s) && KeptOk(s, p, i, dropped) && Kind(p) && Reaches(s, i) && s.server.item.prio != p
    ensures KeptOk(ServerNext(cfg, s), p, i, dropped)
  {
    TurnLeaves(cfg, s, i);
    if !FullAt(cfg, s, i) {
      PushHeld(cfg, s.links, i, s.server.item, p);
      assert Held(s.links[i], p) + [] == Held(s.links[i], p);
    }
    SameKept(s, ServerNext(cfg, s), p, i, dropped);
  }

  lemma ReachedKept(cfg: Config, s: Chat, p: nat, i: nat, dropped: set<int>)
    requires DeliveryOk(s) && KeptOk(s, p, i, dropped) && Kind(p) && Reaches(s, i)
    ensures KeptOk(ServerNext(cfg, s), p, i, dropped + DropOf(cfg, s, Serve, p, i))
  {
    assert dropped + {} == dropped;
    if s.server.item.prio != p {
      OtherKept(cfg, s, p, i, dropped);
    } else if FullAt(cfg, s, i) {
      FullKept(cfg, s, p, i, dropped);
    } else {
      RoomKept(cfg, s, p, i, dropped);
    }
  }

  lemma TurnLeaves(cfg: Config, s: Chat, i: nat)
    requires Reaches(s, i)
    ensures var s' := ServerNext(cfg, s);
            && s'.users == s.users && s'.log == s.log && s'.lists == s.lists && |s'.links| == |s.links|
            && s'.server == s.server.(k := i + 1) && s'.links == Pushed(cfg, s.links, i, s.server.item)
            && s'.links[i].fromLine == s.links[i].fromLine && s'.links[i].fromList == s.links[i].fromList
            && (FullAt(cfg, s, i) ==> s'.links[i] == s.links[i])
  {
  }

  lemma SoFarGrows(cfg: Config, s: Chat, p: nat, i: nat)
    requires DeliveryOk(s) && Kind(p) && Reaches(s, i) && s.server.item.prio == p
    ensures SoFar(ServerNext(cfg, s), p, i) == SoFar(s, p, i) + [s.server.item.body]
    ensures PosOf(s.server.item.body) == |SoFar(s, p, i)|
  {
    var log := LogOf(s, p);
    TurnLeaves(cfg, s, i);
    assert log == log[..|log| - 1] + [log[|log| - 1]];
  }

  lemma SoFarInSequence(s: Chat, p: nat, i: nat)
    requires DeliveryOk(s)
    ensures InSequence(SoFar(s, p, i))
  {
    var log := LogOf(s, p);
    assert forall m :: 0 <= m < |log| - 1 ==> log[..|log| - 1][m] == log[m];
  }

  lemma DropStep(before: seq<Down>, from: nat, body: Down, dropped: set<int>)
    requires from <= |before| && InSequence(before) && PosOf(body) == |before|
    ensures Except((before + [body])[from..], dropped + {PosOf(body)}) == Except(before[from..], dropped)
  {
    assert (before + [body])[from..] == before[from..] + [body];
    ExceptFresh(before[from..], dropped, PosOf(body));
    ExceptAppend(before[from..], body, dropped + {PosOf(body)});
    assert Except(before[from..], dropped) + [] == Except(before[from..], dropped);
  }

  lemma AddStep(before: seq<Down>, from: nat, body: Down, dropped: set<int>)
    requires from <= |before| && PosOf(body) == |before| && forall d :: d in dropped ==> d < |before|
    ensures Except((before + [body])[from..], dropped) == Except(before[from..], dropped) + [body]
  {
    assert (before + [body])[from..] == before[from..] + [body];
    ExceptAppend(before[from..], body, dropped);
  }

  /** A broadcast begins: the user's part of the log is as before. */
  lemma BegunSoFar(s: Chat, s': Chat, p: nat, i: nat)
    requires !s.server.Pushing? && Kind(p)
    requires LogOf(s', p) == LogOf(s, p)
          || (s'.server.Pushing? && s'.server.item.prio == p && s'.server.k == 0 && LogOf(s', p) != []
              && LogOf(s', p)[..|LogOf(s', p)| - 1] == LogOf(s, p))
    requires LogOf(s', p) == LogOf(s, p) ==> !Coming(s'.server, p, i)
    ensures SoFar(s', p, i) == SoFar(s, p, i)
  {
  }

  lemma RegisterKept(cfg: Config, s: Chat, login: string, p: nat, i: nat, dropped: set<int>)
    requires DeliveryOk(s) && KeptOk(s, p, i, dropped) && Kind(p) && s.server == AtLogin
    ensures KeptOk(Registered(cfg, s, login), p, i, dropped)
  {
    var s' := Registered(cfg, s, login);
    BegunSoFar(s, s', p, i);
    if i < |s.links| {
      assert s'.links[i] == s.links[i] && s'.users[i] == s.users[i];
    } else if i == |s.links| {
      assert s'.links[i] == Fresh(|s.log|, |s.lists|) && SoFar(s, p, i) == LogOf(s, p);
    }
  }

  /** The answer to a request joins what the user holds, but is not numbered. */
  lemma AnswerHeld(cfg: Config, s: Chat, p: nat, i: nat)
    requires Kind(p) && TakesRequest(s, i) && !FullAt(cfg, s, i)
    ensures var s' := Scan(cfg, s);
            && |s'.links| == |s.links| && s'.users == s.users && FromOf(s'.links[i], p) == FromOf(s.links[i], p)
            && Held(s'.links[i], p)
               == Held(s.links[i], p) + if p == UPD_USRLIST_PRIO then [UserList(-1, s.usersList)] else []
  {
    var links := s.links[i := s.links[i].(up := s.links[i].up[1..])];
    var item := Item(UPD_USRLIST_PRIO, UserList(-1, s.usersList));
    assert Scan(cfg, s).links == Pushed(cfg, links, i, item);
    PushHeld(cfg, links, i, item, p);
    assert Held(links[i], p) == Held(s.links[i], p);
  }

  /** What the scan otherwise leaves as it is. */
  lemma ScanLeaves(cfg: Config, s: Chat, i: nat)
    requires |s.users| == |s.links| && s.server == Scanning && s.index >= 0 && i < |s.links|
    ensures var s' := Scan(cfg, s);
            && |s'.links| == |s.links| && |s'.users| == |s.users|
            && s'.links[i].fromLine == s.links[i].fromLine && s'.links[i].fromList == s.links[i].fromList
            && s'.links[i].got == s.links[i].got && s'.links[i].gotLists == s.links[i].gotLists
            && (Connected(s'.users[i]) ==> Connected(s.users[i]))
            && (!TakesRequest(s, i) || FullAt(cfg, s, i) ==> s'.links[i].down == s.links[i].down)
  {
  }

  lemma ScanHeld(cfg: Config, s: Chat, p: nat, i: nat)
    requires |s.users| == |s.links| && s.server == Scanning && s.index >= 0 && Kind(p) && i < |s.links|
    ensures var s' := Scan(cfg, s);
            && |s'.links| == |s.links| && |s'.users| == |s.users| && FromOf(s'.links[i], p) == FromOf(s.links[i], p)
            && Numbered(Held(s'.links[i], p)) == Numbered(Held(s.links[i], p))
            && (Connected(s'.users[i]) ==> Connected(s.users[i]))
  {
    ScanLeaves(cfg, s, i);
    if TakesRequest(s, i) && !FullAt(cfg, s, i) {
      AnswerHeld(cfg, s, p, i);
      NumberedAppend(Held(s.links[i], p), UserList(-1, s.usersList));
      assert Numbered(Held(s.links[i], p)) + [] == Numbered(Held(s.links[i], p));
      assert Held(s.links[i], p) + [] == Held(s.links[i], p);
    }
  }

  lemma ScanKept(cfg: Config, s: Chat, p: nat, i: nat, dropped: set<int>)
    requires DeliveryOk(s) && KeptOk(s, p, i, dropped) && Kind(p) && s.server == Scanning && s.index >= 0
    ensures KeptOk(Scan(cfg, s), p, i, dropped)
  {
    var s' := Scan(cfg, s);
    ScanLogs(cfg, s, p, i);
    if i < |s.links| { ScanHeld(cfg, s, p, i); }
    SameKept(s, s', p, i, dropped);
  }

  lemma ScanLogs(cfg: Config, s: Chat, p: nat, i: nat)
    requires |s.users| == |s.links| && s.server == Scanning && s.index >= 0 && Kind(p)
    ensures SoFar(Scan(cfg, s), p, i) == SoFar(s, p, i)
    ensures |Scan(cfg, s).links| == |s.links| && |Scan(cfg, s).users| == |s.users|
  {
    BegunSoFar(s, Scan(cfg, s), p, i);
  }

  /** A turn of somebody else, or of nobody, leaves what a connected user holds and what has reached it. */
  lemma PassedLeaves(cfg: Config, s: Chat, p: nat, i: nat)
    requires DeliveryOk(s) && s.server.Pushing? && i < |s.links| && Connected(s.users[i]) && !Reaches(s, i)
    ensures var s' := ServerNext(cfg, s);
            && |s'.links| == |s.links| && s'.links[i] == s.links[i] && s'.users == s.users
            && LogOf(s', p) == LogOf(s, p) && Coming(s'.server, p, i) == Coming(s.server, p, i)
  {
  }

  lemma PassedKept(cfg: Config, s: Chat, p: nat, i: nat, dropped: set<int>)
    requires DeliveryOk(s) && KeptOk(s, p, i, dropped) && Kind(p) && s.server.Pushing? && !Reaches(s, i)
    ensures KeptOk(ServerNext(cfg, s), p, i, dropped)
  {
    if i < |s.links| && Connected(s.users[i]) {
      PassedLeaves(cfg, s, p, i);
      SameKept(s, ServerNext(cfg, s), p, i, dropped);
    } else {
      PassedBounds(cfg, s, p, i);
    }
  }

  lemma PassedBounds(cfg: Config, s: Chat, p: nat, i: nat)
    requires DeliveryOk(s) && s.server.Pushing?
    ensures var s' := ServerNext(cfg, s);
            |s'.links| == |s.links| && s'.users == s.users && |SoFar(s', p, i)| >= |SoFar(s, p, i)|
  {
  }

  lemma ServeKept(cfg: Config, s: Chat, p: nat, i: nat, dropped: set<int>)
    requires DeliveryOk(s) && KeptOk(s, p, i, dropped) && Kind(p)
    ensures KeptOk(ServerNext(cfg, s), p, i, dropped + DropOf(cfg, s, Serve, p, i))
  {
    if Reaches(s, i) {
      ReachedKept(cfg, s, p, i, dropped);
    } else {
      assert dropped + {} == dropped;
      if s.server.Pushing? {
        PassedKept(cfg, s, p, i, dropped);
      } else if s.server == Scanning && s.index >= 0 {
        ScanKept(cfg, s, p, i, dropped);
      } else {
        SameKept(s, ServerNext(cfg, s), p, i, dropped);
      }
    }
  }

  lemma SendKept(cfg: Config, s: Chat, j: nat, prio: nat, text: string, p: nat, i: nat, dropped: set<int>)
    requires KeptOk(s, p, i, dropped) && Kind(p) && j < |s.links|
    ensures KeptOk(SendUp(cfg, s, j, prio, text), p, i, dropped)
  {
    SameKept(s, SendUp(cfg, s, j, prio, text), p, i, dropped);
  }

  lemma ReceiveLeaves(s: Chat, j: nat, p: nat, i: nat)
    requires j < |s.links| && s.links[j].down != [] && i < |s.links|
    ensures var s' := ReceiveDown(s, j);
            FromOf(s'.links[i], p) == FromOf(s.links[i], p) && (i != j ==> s'.links[i] == s.links[i])
  {
  }

  lemma ReceiveKept(s: Chat, j: nat, p: nat, i: nat, dropped: set<int>)
    requires KeptOk(s, p, i, dropped) && Kind(p) && j < |s.links| && s.links[j].down != []
    ensures KeptOk(ReceiveDown(s, j), p, i, dropped)
  {
    var s' := ReceiveDown(s, j);
    if i < |s.links| { ReceiveLeaves(s, j, p, i); }
    ReceiveHeld(s, j, p);
    assert |s'.links| == |s.links| && s'.users == s.users && s'.server == s.server && LogOf(s', p) == LogOf(s, p);
    SameKept(s, s', p, i, dropped);
  }

  lemma EventKept(cfg: Config, s: Chat, e: Event, p: nat, i: nat, dropped: set<int>)
    requires DeliveryOk(s) && KeptOk(s, p, i, dropped) && Kind(p)
    ensures KeptOk(Next(cfg, s, e), p, i, dropped + DropOf(cfg, s, e, p, i))
  {
    if e.Serve? {
      ServeKept(cfg, s, p, i, dropped);
    } else {
      assert dropped + {} == dropped;
      match e {
        case Send(j, prio, text) => if j < |s.links| { SendKept(cfg, s, j, prio, text, p, i, dropped); }
        case Receive(j) => if j < |s.links| && s.links[j].down != [] { ReceiveKept(s, j, p, i, dropped); }
        case Register(login) => if s.server == AtLogin { RegisterKept(cfg, s, login, p, i, dropped); }
        case _ =>
      }
    }
  }

  lemma {:induction false} RunKept(cfg: Config, s: Chat, es: seq<Event>, p: nat, i: nat, dropped: set<int>)
    requires DeliveryOk(s) && KeptOk(s, p, i, dropped) && Kind(p)
    ensures KeptOk(Run(cfg, s, es), p, i, dropped + Drops(cfg, s, es, p, i))
    decreases |es|
  {
    if es == [] {
      assert dropped + {} == dropped;
    } else {
      var now := DropOf(cfg, s, es[0], p, i);
      EventDelivery(cfg, s, es[0]);
      EventKept(cfg, s, es[0], p, i, dropped);
      RunKept(cfg, Next(cfg, s, es[0]), es[1..], p, i, dropped + now);
      assert dropped + now + Drops(cfg, Next(cfg, s, es[0]), es[1..], p, i) == dropped + Drops(cfg, s, es, p, i);
    }
  }

  lemma Kept(cfg: Config, es: seq<Event>, p: nat, i: nat)
    requires Kind(p)
    ensures KeptOk(Run(cfg, Init(cfg), es), p, i, Drops(cfg, Init(cfg), es, p, i))
  {
    InitDelivery(cfg);
    RunKept(cfg, Init(cfg), es, p, i, {});
    assert {} + Drops(cfg, Init(cfg), es, p, i) == Drops(cfg, Init(cfg), es, p, i);
  }

  // ----- The lists of a user -----

  /** Every user is sent the list of its own registration. */
  predicate ListsBegun(s: Chat) { forall i :: 0 <= i < |s.links| ==> s.links[i].fromList < |s.lists| }

  lemma {:induction false} RunBegins(cfg: Config, s: Chat, es: seq<Event>)
    requires ListsBegun(s)
    ensures ListsBegun(Run(cfg, s, es))
    decreases |es|
  {
    if es != [] {
      EventBegins(cfg, s, es[0]);
      RunBegins(cfg, Next(cfg, s, es[0]), es[1..]);
    }
  }

  lemma EventBegins(cfg: Config, s: Chat, e: Event)
    requires ListsBegun(s)
    ensures ListsBegun(Next(cfg, s, e))
  {
  }

  /** While somebody is connected the server runs. */
  lemma ConnectedRuns(s: Chat, i: nat)
    requires TablesOk(s) && i < |s.users| && Connected(s.users[i])
    ensures s.server != Stopped
  {
    TotalAtLeast(s.users, i, ConnectedUnit);
  }

  // ----- The answers -----

  lemma ScanAnswers(cfg: Config, s: Chat, i: nat)
    requires |s.users| == |s.links| && s.server == Scanning && s.index >= 0 && i < |s.links|
    ensures |Scan(cfg, s).links| == |s.links|
    ensures Answers(Held(Scan(cfg, s).links[i], UPD_USRLIST_PRIO))
         == Answers(Held(s.links[i], UPD_USRLIST_PRIO)) + AnswerNow(cfg, s, Serve, i)
  {
    var held := Held(s.links[i], UPD_USRLIST_PRIO);
    ScanLeaves(cfg, s, i);
    if TakesRequest(s, i) && !FullAt(cfg, s, i) {
      AnswerHeld(cfg, s, UPD_USRLIST_PRIO, i);
      AnswersAppend(held, UserList(-1, s.usersList));
    } else {
      assert Answers(held) + [] == Answers(held);
    }
  }

  lemma PushAnswers(cfg: Config, s: Chat, i: nat)
    requires DeliveryOk(s) && s.server.Pushing? && i < |s.links|
    ensures |ServerNext(cfg, s).links| == |s.links|
    ensures Answers(Held(ServerNext(cfg, s).links[i], UPD_USRLIST_PRIO)) == Answers(Held(s.links[i], UPD_USRLIST_PRIO))
  {
    if Reaches(s, i) && !FullAt(cfg, s, i) {
      assert InSequence(LogOf(s, s.server.item.prio));
      PushHeld(cfg, s.links, i, s.server.item, UPD_USRLIST_PRIO);
      AnswersAppend(Held(s.links[i], UPD_USRLIST_PRIO), s.server.item.body);
      assert Answers(Held(s.links[i], UPD_USRLIST_PRIO)) + [] == Answers(Held(s.links[i], UPD_USRLIST_PRIO));
      assert Held(s.links[i], UPD_USRLIST_PRIO) + [] == Held(s.links[i], UPD_USRLIST_PRIO);
    } else {
      assert ServerNext(cfg, s).links[i] == s.links[i];
    }
  }

  function AnswersAt(s: Chat, i: nat): seq<Down> {
    if i < |s.links| then Answers(Held(s.links[i], UPD_USRLIST_PRIO)) else []
  }

  lemma ServeAnswers(cfg: Config, s: Chat, i: nat)
    requires DeliveryOk(s) && i < |s.links|
    ensures AnswersAt(ServerNext(cfg, s), i) == AnswersAt(s, i) + AnswerNow(cfg, s, Serve, i)
  {
    assert AnswersAt(s, i) + [] == AnswersAt(s, i);
    if s.server.Pushing? {
      PushAnswers(cfg, s, i);
    } else if s.server == Scanning && s.index >= 0 {
      ScanAnswers(cfg, s, i);
    }
  }

  lemma EventAnswers(cfg: Config, s: Chat, e: Event, i: nat)
    requires DeliveryOk(s)
    ensures AnswersAt(Next(cfg, s, e), i) == AnswersAt(s, i) + AnswerNow(cfg, s, e, i)
  {
    assert AnswersAt(s, i) + [] == AnswersAt(s, i);
    if e.Serve? && i < |s.links| {
      ServeAnswers(cfg, s, i);
    } else if e.Receive? && e.i < |s.links| && s.links[e.i].down != [] {
      ReceiveHeld(s, e.i, UPD_USRLIST_PRIO);
    } else {
      QuietAnswers(cfg, s, e, i);
    }
  }

  lemma QuietAnswers(cfg: Config, s: Chat, e: Event, i: nat)
    requires |s.users| == |s.links| && (e.Serve? ==> i >= |s.links|) && !(e.Receive? && e.i < |s.links| && s.links[e.i].down != [])
    ensures AnswersAt(Next(cfg, s, e), i) == AnswersAt(s, i) && AnswerNow(cfg, s, e, i) == []
  {
    var s' := Next(cfg, s, e);
    if i < |s.links| {
      assert s'.links[i].down == s.links[i].down && s'.links[i].gotLists == s.links[i].gotLists;
    } else if i < |s'.links| {
      assert s'.links[i] == Fresh(|s.log|, |s.lists|);
    }
  }

  lemma {:induction false} AnswersFrom(cfg: Config, s: Chat, es: seq<Event>, i: nat)
    requires DeliveryOk(s)
    ensures AnswersAt(Run(cfg, s, es), i) == AnswersAt(s, i) + AnswersDue(cfg, s, es, i)
    decreases |es|
  {
    if es == [] {
      assert AnswersAt(s, i) + [] == AnswersAt(s, i);
    } else {
      EventDelivery(cfg, s, es[0]);
      EventAnswers(cfg, s, es[0], i);
      AnswersFrom(cfg, Next(cfg, s, es[0]), es[1..], i);
      ThreeParts(AnswersAt(s, i), AnswerNow(cfg, s, es[0], i), AnswersDue(cfg, Next(cfg, s, es[0]), es[1..], i));
    }
  }

  lemma AnswersRun(cfg: Config, es: seq<Event>, i: nat)
    ensures AnswersAt(Run(cfg, Init(cfg), es), i) == AnswersDue(cfg, Init(cfg), es, i)
  {
    InitDelivery(cfg);
    AnswersFrom(cfg, Init(cfg), es, i);
    assert [] + AnswersDue(cfg, Init(cfg), es, i) == AnswersDue(cfg, Init(cfg), es, i);
  }

  // ----- The uploads -----

  function UpHeld(s: Chat, i: nat): seq<string>
    requires i < |s.links|
  {
    Said(s.log, i) + Bodies(OfPrio(s.links[i].up, USER_PRIO))
  }

  lemma SendUpHeld(cfg: Config, s: Chat, j: nat, prio: nat, text: string, i: nat)
    requires i < |s.links| && j < |s.links|
    ensures UpHeld(SendUp(cfg, s, j, prio, text), i) == UpHeld(s, i) + AcceptedNow(cfg, s, Send(j, prio, text), i)
  {
    assert UpHeld(s, i) + [] == UpHeld(s, i);
    if i == j && |s.links[i].up| < cfg.cap {
      var waiting := OfPrio(s.links[i].up, USER_PRIO);
      InsertIsFifo(s.links[i].up, Item(prio, text), USER_PRIO);
      if prio == USER_PRIO {
        assert Bodies(waiting + [Item(prio, text)]) == Bodies(waiting) + [text];
        assert Said(s.log, i) + (Bodies(waiting) + [text]) == UpHeld(s, i) + [text];
      } else {
        assert waiting + [] == waiting;
      }
    }
  }

  /** A line moves from the head of the queue to the log. */
  lemma ScanUpHeld(cfg: Config, s: Chat, i: nat)
    requires TablesOk(s) && s.server == Scanning && i < |s.links|
    ensures |Scan(cfg, s).links| == |s.links| && UpHeld(Scan(cfg, s), i) == UpHeld(s, i)
  {
    var s', j := Scan(cfg, s), s.index;
    if j < |s.users| && Connected(s.users[j]) && s.links[j].up != [] {
      ScanFrame(cfg, s, i);
      ScanLog(cfg, s);
      if s'.log != s.log { SaidAppend(s.log, s'.log[|s.log|], i); }
      if i == j {
        HeadToLog(s, s', i);
      } else {
        assert Said(s.log, i) + [] == Said(s.log, i);
      }
    } else {
      assert s'.links == s.links && s'.log == s.log;
    }
  }

  lemma HeadToLog(s: Chat, s': Chat, i: nat)
    requires i < |s.links| == |s'.links| && s.links[i].up != [] && s'.links[i].up == s.links[i].up[1..]
    requires var head := s.links[i].up[0];
             Said(s'.log, i) == Said(s.log, i) + if head.prio == USER_PRIO then [head.body] else []
    ensures UpHeld(s', i) == UpHeld(s, i)
  {
    var up := s.links[i].up;
    var rest := OfPrio(up[1..], USER_PRIO);
    ReceiveIsFifo(up, USER_PRIO);
    if up[0].prio == USER_PRIO {
      BodiesHead(Said(s.log, i), up[0], rest);
    } else {
      assert [] + rest == rest && Said(s.log, i) + [] == Said(s.log, i);
    }
  }

  lemma EventUpload(cfg: Config, s: Chat, e: Event, i: nat)
    requires TablesOk(s) && i < |s.links|
    ensures i < |Next(cfg, s, e).links| && UpHeld(Next(cfg, s, e), i) == UpHeld(s, i) + AcceptedNow(cfg, s, e, i)
  {
    assert UpHeld(s, i) + [] == UpHeld(s, i);
    match e {
      case Send(j, prio, text) => if j < |s.links| { SendUpHeld(cfg, s, j, prio, text, i); }
      case Receive(j) => assert Next(cfg, s, e).links[i].up == s.links[i].up;
      case Register(login) => assert Next(cfg, s, e).links[i] == s.links[i];
      case Serve =>
        if s.server == Scanning {
          ScanUpHeld(cfg, s, i);
        } else {
          assert ServerNext(cfg, s).links[i].up == s.links[i].up && ServerNext(cfg, s).log == s.log;
        }
    }
  }

  function UpAt(s: Chat, i: nat): seq<string> { if i < |s.links| then UpHeld(s, i) else [] }

  lemma NothingUploaded(cfg: Config, s: Chat, e: Event, i: nat)
    requires Inv(cfg, s) && |s.links| <= i
    ensures UpAt(Next(cfg, s, e), i) == [] && AcceptedNow(cfg, s, e, i) == []
  {
    if i < |Next(cfg, s, e).links| {
      assert i == |s.links| && Next(cfg, s, e).links[i] == Fresh(|s.log|, |s.lists|) && Next(cfg, s, e).log == s.log;
      NothingSaid(s.log, i);
    }
  }

  lemma {:induction false} UploadFrom(cfg: Config, s: Chat, es: seq<Event>, i: nat)
    requires Inv(cfg, s)
    ensures UpAt(Run(cfg, s, es), i) == UpAt(s, i) + Accepted(cfg, s, es, i)
    decreases |es|
  {
    if es == [] {
      assert UpAt(s, i) + [] == UpAt(s, i);
    } else {
      var s' := Next(cfg, s, es[0]);
      EventInv(cfg, s, es[0]);
      if i < |s.links| { EventUpload(cfg, s, es[0], i); } else { NothingUploaded(cfg, s, es[0], i); }
      UploadFrom(cfg, s', es[1..], i);
      ThreeParts(UpAt(s, i), AcceptedNow(cfg, s, es[0], i), Accepted(cfg, s', es[1..], i));
    }
  }

  lemma RunUpload(cfg: Config, es: seq<Event>, i: nat)
    ensures UpAt(Run(cfg, Init(cfg), es), i) == Accepted(cfg, Init(cfg), es, i)
  {
    Reachable(cfg, []);
    UploadFrom(cfg, Init(cfg), es, i);
    assert [] + Accepted(cfg, Init(cfg), es, i) == Accepted(cfg, Init(cfg), es, i);
  }

  // ----- One pass of the server -----

  /** n applications of f. */
  function Iterate<S>(f: S -> S, s: S, n: nat): S { if n == 0 then s else Iterate(f, f(s), n - 1) }

  lemma {:induction false} IterateSum<S>(f: S -> S, s: S, a: nat, b: nat)
    ensures Iterate(f, s, a + b) == Iterate(f, Iterate(f, s, a), b)
  {
    if a > 0 { IterateSum(f, f(s), a - 1, b); }
  }

  function ServeOn(cfg: Config): Chat -> Chat { s => ServerNext(cfg, s) }

  lemma {:induction false} ServesIterate(cfg: Config, s: Chat, n: nat)
    ensures Run(cfg, s, Serves(n)) == Iterate(ServeOn(cfg), s, n)
    decreases n
  {
    if n > 0 {
      assert Serves(n)[0] == Serve && Serves(n)[1..] == Serves(n - 1);
      ServesIterate(cfg, ServeOn(cfg)(s), n - 1);
    }
  }

  /** A broadcast goes over all the users and back to the scan; it touches no upload queue. */
  lemma {:induction false} PushAll(cfg: Config, s: Chat) returns (n: nat)
    requires s.server.Pushing? && |s.users| == |s.links|
    ensures BackToScan(s, Iterate(ServeOn(cfg), s, n))
    decreases if s.server.k < |s.users| then |s.users| - s.server.k else 0
  {
    var s1 := ServeOn(cfg)(s);
    n := 0;
    if s.server.k < |s.users| {
      n := PushAll(cfg, s1);
    }
    n := n + 1;
  }

  predicate BackToScan(s: Chat, s': Chat)
    requires s.server.Pushing?
  {
    && s'.server == Scanning && s'.index == s.server.resume && s'.users == s.users && |s'.links| == |s.links|
    && forall j :: 0 <= j < |s.links| ==> s'.links[j].up == s.links[j].up
  }

  /** The server has done with user i: its head is taken, and the others are as they were. */
  predicate DoneWith(s: Chat, s': Chat, i: nat)
    requires i < |s.users| == |s.links|
  {
    && |s'.users| == |s.users| == |s'.links| && TakenOnce(s, s', i)
    && forall j :: 0 <= j < |s.users| && j != i ==> s'.links[j].up == s.links[j].up && s'.users[j] == s.users[j]
  }

  lemma ScanOne(cfg: Config, s: Chat, i: nat) returns (n: nat)
    requires s.server == Scanning && s.index == i < |s.users| == |s.links|
    ensures var s' := Iterate(ServeOn(cfg), s, n);
            s'.server == Stopped || (s'.server == Scanning && s'.index == i + 1 && DoneWith(s, s', i))
  {
    var s1 := ServeOn(cfg)(s);
    ScanEffect(cfg, s, i);
    n := 0;
    if s1.server.Pushing? {
      n := PushAll(cfg, s1);
    }
    assert Iterate(ServeOn(cfg), s, n + 1) == Iterate(ServeOn(cfg), s1, n);
    n := n + 1;
  }

  lemma ScanEffect(cfg: Config, s: Chat, i: nat)
    requires s.server == Scanning && s.index == i < |s.users| == |s.links|
    ensures var s1 := ServeOn(cfg)(s);
            || s1.server == Stopped
            || (s1.server == Scanning && s1.index == i + 1 && DoneWith(s, s1, i))
            || (s1.server.Pushing? && s1.server.resume == i + 1 && DoneWith(s, s1, i))
  {
  }

  /** The rest of a pass, from user i on. */
  predicate PassDone(s: Chat, s': Chat, i: nat)
    requires |s.users| == |s.links|
  {
    || s'.server == Stopped
    || (&& s'.server == AtLogin && |s'.links| == |s.links|
        && forall j :: 0 <= j < |s.users| ==> if j < i then s'.links[j].up == s.links[j].up else TakenOnce(s, s', j))
  }

  lemma {:induction false} PassFrom(cfg: Config, s: Chat, i: nat) returns (n: nat)
    requires s.server == Scanning && s.index == i <= |s.users| == |s.links|
    ensures PassDone(s, Iterate(ServeOn(cfg), s, n), i)
    decreases |s.users| - i
  {
    if i == |s.users| {
      n := 1;
      assert Iterate(ServeOn(cfg), s, 1) == ServeOn(cfg)(s);
    } else {
      n := ScanOne(cfg, s, i);
      var s1 := Iterate(ServeOn(cfg), s, n);
      if s1.server != Stopped {
        var rest := PassFrom(cfg, s1, i + 1);
        IterateSum(ServeOn(cfg), s, n, rest);
        PassJoined(s, s1, Iterate(ServeOn(cfg), s1, rest), i);
        n := n + rest;
      }
    }
  }

  lemma PassJoined(s: Chat, s1: Chat, s': Chat, i: nat)
    requires i < |s.users| == |s.links| && DoneWith(s, s1, i) && PassDone(s1, s', i + 1)
    ensures PassDone(s, s', i)
  {
    if s'.server != Stopped {
      forall j | 0 <= j < |s.users|
        ensures if j < i then s'.links[j].up == s.links[j].up else TakenOnce(s, s', j)
      {
        assert j > i ==> TakenOnce(s1, s', j);
      }
    }
  }
}
