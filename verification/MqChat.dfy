/**
  The chat of homework12_message_queue: the server scans the users' upload queues, logs every line and
  sends it to every connected user, never waiting; full queues drop messages and commands overtake
  lines, because the message priority is the command.
 */
module MqChat {
  import opened Sums
  import opened Roster
  import opened PosixQueue
  import opened Subsequences

  const USER_PRIO := 1
  const MSGSND_PRIO := 3
  const SET_USRNAME_PRIO := 4
  const UPD_USRLIST_PRIO := 5
  const REQ_USRLIST_PRIO := 6
  const DISCONNECT_PRIO := 7

  /** A chat line: who sent it, under which name; pos, its position in the log, is history. */
  datatype Line = Line(pos: nat, from: nat, login: string, text: string)

  /** What the server sends; pos is the list's position among the lists broadcast, -1 for the answer to a
      request, again only as history. */
  datatype Down = Chat(line: Line) | UserList(pos: int, text: string)

  /** A user's queues, and after them the history: the lines it has sent, the chat messages and the lists it has
      received, and the numbers of lines and lists broadcast before its login. */
  datatype Link = Link(
    up: seq<Item<string>>, down: seq<Item<Down>>, typed: seq<string>, got: seq<Down>, gotLists: seq<Down>,
    fromLine: nat, fromList: nat)

  datatype ServerAt =
    | AtLogin                                       // reading the login queue
    | Scanning                                      // reading the upload queue of user `index`
    | Pushing(k: nat, item: Item<Down>, resume: nat)  // sending item to user k, then scanning from resume
    | Stopped

  /** index is the scan variable, which a registration also reads; log and lists are the lines
      and the user lists ever broadcast. */
  datatype Chat = State(
    users: seq<Slot>, links: seq<Link>, usersList: string, active: int, index: int, server: ServerAt,
    log: seq<Down>, lists: seq<Down>)

  /** User i sends a message of some priority; user i receives; a registration request is waiting, with
      the given default name, when the server reads the login queue; the server moves on. */
  datatype Event = Send(i: nat, prio: nat, text: string) | Receive(i: nat) | Register(login: string) | Serve

  /** cap is T3_USER_Q_MAX_MSGS. The scan variable starts out uninitialised, and so does what it may
      point to. */
  datatype Config = Config(cap: nat, firstIndex: int, junk: string)

  function Init(cfg: Config): Chat {
    State([], [], "", 0, cfg.firstIndex, AtLogin, [], [])
  }

  function Next(cfg: Config, s: Chat, e: Event): Chat {
    match e
    case Send(i, prio, text) => if i < |s.links| then SendUp(cfg, s, i, prio, text) else s
    case Receive(i) => if i < |s.links| && s.links[i].down != [] then ReceiveDown(s, i) else s
    case Register(login) => if s.server == AtLogin then Registered(cfg, s, login) else s
    case Serve => ServerNext(cfg, s)
  }

  /** Non-blocking mq_send by the client. */
  function SendUp(cfg: Config, s: Chat, i: nat, prio: nat, text: string): Chat
    requires i < |s.links|
  {
    var link := s.links[i];
    var up := if |link.up| < cfg.cap then Insert(link.up, Item(prio, text)) else link.up;
    s.(links := s.links[i := link.(up := up, typed := if prio == USER_PRIO then link.typed + [text] else link.typed)])
  }

  function ReceiveDown(s: Chat, i: nat): Chat
    requires i < |s.links| && s.links[i].down != []
  {
    var link := s.links[i];
    var item := link.down[0];
    s.(links := s.links[i := link.(down := link.down[1..],
                                   got := if item.prio == MSGSND_PRIO then link.got + [item.body] else link.got,
                                   gotLists := if item.prio == UPD_USRLIST_PRIO then link.gotLists + [item.body] else link.gotLists)])
  }

  /** A new user: the list entry is made from the slot that the scan variable points to. */
  function Registered(cfg: Config, s: Chat, login: string): Chat {
    var users := s.users + [Slot(|s.users| + 1, login)];
    var named := if 0 <= s.index < |users| then users[s.index].login else cfg.junk;
    var list := s.usersList + Entry(named);
    Listing(s.(users := users, links := s.links + [Fresh(|s.log|, |s.lists|)], active := s.active + 1), list, 0)
  }

  function Fresh(fromLine: nat, fromList: nat): Link { Link([], [], [], [], [], fromLine, fromList) }

  /** The broadcast of a list begins; the scan will go on at resume. */
  function Listing(s: Chat, list: string, resume: nat): Chat {
    var body := UserList(|s.lists|, list);
    s.(usersList := list, lists := s.lists + [body], server := Pushing(0, Item(UPD_USRLIST_PRIO, body), resume))
  }

  function ServerNext(cfg: Config, s: Chat): Chat {
    match s.server
    case Stopped => s
    case AtLogin => s.(index := 0, server := Scanning)
    case Scanning => if |s.users| != |s.links| || s.index < 0 then s else Scan(cfg, s)
    case Pushing(k, item, resume) =>
      if |s.users| != |s.links| then s
      else if k >= |s.users| then s.(index := resume, server := Scanning)
      else s.(links := if Connected(s.users[k]) then Pushed(cfg, s.links, k, item) else s.links,
              server := Pushing(k + 1, item, resume))
  }

  /** Non-blocking mq_send by the server: a full queue drops the message. */
  function Pushed(cfg: Config, links: seq<Link>, k: nat, item: Item<Down>): seq<Link>
    requires k < |links|
  {
    if |links[k].down| < cfg.cap then links[k := links[k].(down := Insert(links[k].down, item))] else links
  }

  /** One turn of the scan over the users. */
  function Scan(cfg: Config, s: Chat): Chat
    requires |s.users| == |s.links| && s.index >= 0
  {
    var i := s.index;
    if i >= |s.users| then s.(server := AtLogin)
    else if !Connected(s.users[i]) || s.links[i].up == [] then s.(index := i + 1)
    else
      var item := s.links[i].up[0];
      var s' := s.(links := s.links[i := s.links[i].(up := s.links[i].up[1..])]);
      Handle(cfg, s', i, item)
  }

  /** Dispatch on the priority. */
  function Handle(cfg: Config, s: Chat, i: nat, item: Item<string>): Chat
    requires |s.users| == |s.links| && i < |s.users|
  {
    if item.prio == USER_PRIO then
      var body := Chat(Line(|s.log|, i, s.users[i].login, item.body));
      s.(log := s.log + [body], server := Pushing(0, Item(MSGSND_PRIO, body), i + 1))
    else if item.prio == SET_USRNAME_PRIO then
      Relisted(s, s.users[i := s.users[i].(login := item.body)], i)
    else if item.prio == REQ_USRLIST_PRIO then
      s.(links := Pushed(cfg, s.links, i, Item(UPD_USRLIST_PRIO, UserList(-1, s.usersList))), index := i + 1)
    else if item.prio == DISCONNECT_PRIO then
      var users := s.users[i := s.users[i].(id := -1)];
      if s.active - 1 <= 0 then s.(users := users, active := s.active - 1, server := Stopped)
      else Relisted(s.(active := s.active - 1), users, i)
    else s.(index := i + 1)
  }

  /** The list is rebuilt and sent to everybody. */
  function Relisted(s: Chat, users: seq<Slot>, i: nat): Chat {
    Listing(s.(users := users), ListText(users), i + 1)
  }

  function Run(cfg: Config, s: Chat, es: seq<Event>): Chat
    decreases |es|
  {
    if es == [] then s else Run(cfg, Next(cfg, s, es[0]), es[1..])
  }

  // ----- The tables -----

  /** The tables, whatever the scan variable holds at the start. */
  ghost predicate TablesOk(s: Chat) {
    && |s.users| == |s.links| && IdsInOrder(s.users)
    && s.active == Total(s.users, ConnectedUnit)
    && (s.server == Scanning ==> 0 <= s.index <= |s.users|)
    && (s.server.Pushing? ==> s.server.resume <= |s.users|)
    && (s.server == Stopped ==> s.active <= 0)
  }

  predicate ListRight(s: Chat) { s.server != Stopped ==> s.usersList == ListText(s.users) }

  /** The user list, once the scan variable has its value. */
  predicate ListOk(s: Chat) { ListRight(s) && (s.server == AtLogin ==> s.index == |s.users|) }

  lemma HandleTables(cfg: Config, s: Chat, i: nat, item: Item<string>)
    requires TablesOk(s) && s.server == Scanning && i < |s.users| && Connected(s.users[i])
    ensures TablesOk(Handle(cfg, s, i, item))
  {
    TotalUpdate(s.users, i, s.users[i].(login := item.body), ConnectedUnit);
    TotalUpdate(s.users, i, s.users[i].(id := -1), ConnectedUnit);
  }

  lemma EventTables(cfg: Config, s: Chat, e: Event)
    requires TablesOk(s)
    ensures TablesOk(Next(cfg, s, e))
  {
    match e {
      case Send(_, _, _) =>
      case Receive(_) =>
      case Register(login) =>
      case Serve =>
        if s.server == Scanning && s.index < |s.users| && Connected(s.users[s.index]) && s.links[s.index].up != [] {
          var i := s.index;
          HandleTables(cfg, s.(links := s.links[i := s.links[i].(up := s.links[i].up[1..])]), i, s.links[i].up[0]);
        }
    }
  }

  /** A registration appends the right name if the scan variable points to the new slot. */
  lemma RegisterList(cfg: Config, s: Chat, login: string)
    requires ListRight(s) && s.server == AtLogin && s.index == |s.users|
    ensures ListOk(Registered(cfg, s, login))
  {
    ListAppend(s.users, Slot(|s.users| + 1, login));
  }

  lemma ServeList(cfg: Config, s: Chat)
    requires TablesOk(s) && ListOk(s)
    ensures ListOk(ServerNext(cfg, s))
  {
  }

  lemma EventList(cfg: Config, s: Chat, e: Event)
    requires TablesOk(s) && ListOk(s)
    ensures ListOk(Next(cfg, s, e))
  {
    match e {
      case Send(_, _, _) =>
      case Receive(_) =>
      case Register(login) => if s.server == AtLogin { RegisterList(cfg, s, login); }
      case Serve => ServeList(cfg, s);
    }
  }

  // ----- Upload: what is logged from a user -----

  /** The texts logged from one user. */
  function Said(log: seq<Down>, from: nat): seq<string> {
    if log == [] then []
    else
      var last := log[|log| - 1];
      Said(log[..|log| - 1], from) + if last.Chat? && last.line.from == from then [last.line.text] else []
  }

  lemma SaidAppend(log: seq<Down>, body: Down, from: nat)
    ensures Said(log + [body], from)
         == Said(log, from) + if body.Chat? && body.line.from == from then [body.line.text] else []
  {
    assert (log + [body])[..|log|] == log;
  }

  /** What is logged from user i and what still waits in its upload queue is part of what it sent. */
  ghost predicate UploadOk(s: Chat, i: nat)
    requires i < |s.links|
  {
    Subseq(Said(s.log, i) + Bodies(OfPrio(s.links[i].up, USER_PRIO)), s.links[i].typed)
  }

  lemma SendUpload(cfg: Config, s: Chat, i: nat, prio: nat, text: string)
    requires i < |s.links| && UploadOk(s, i)
    ensures UploadOk(SendUp(cfg, s, i, prio, text), i)
  {
    var link := s.links[i];
    var waiting := OfPrio(link.up, USER_PRIO);
    var a := Said(s.log, i) + Bodies(waiting);
    InsertIsFifo(link.up, Item(prio, text), USER_PRIO);
    if prio == USER_PRIO {
      assert Bodies(waiting + [Item(prio, text)]) == Bodies(waiting) + [text];
      assert Said(s.log, i) + (Bodies(waiting) + [text]) == a + [text];
      SubseqSkip(a, link.typed, text);
      SubseqKeep(a, link.typed, text);
    } else {
      assert waiting + [] == waiting;
    }
  }

  /** Taking the head of the upload queue: a line moves from the queue to the log. */
  lemma HandleUpload(s: Chat, s': Chat, i: nat, j: nat)
    requires i < |s.links| && j < |s.links| && s.links[i].up != [] && UploadOk(s, j) && |s'.links| == |s.links|
    requires s'.links[j].typed == s.links[j].typed
    requires s'.links[j].up == if j == i then s.links[i].up[1..] else s.links[j].up
    requires var item := s.links[i].up[0];
             if item.prio == USER_PRIO
             then s'.log != [] && s'.log[..|s'.log| - 1] == s.log && IsLine(s'.log[|s'.log| - 1], i, item.body)
             else s'.log == s.log
    ensures UploadOk(s', j)
  {
    var up := s.links[i].up;
    ReceiveIsFifo(up, USER_PRIO);
    var rest := OfPrio(up[1..], USER_PRIO);
    if up[0].prio == USER_PRIO {
      if j == i {
        BodiesHead(Said(s.log, i), up[0], rest);
      } else {
        assert Said(s.log, j) + [] == Said(s.log, j);
      }
    } else {
      assert [] + rest == rest;
    }
  }

  predicate IsLine(body: Down, from: nat, text: string) { body.Chat? && body.line.from == from && body.line.text == text }

  lemma BodiesHead(said: seq<string>, item: Item<string>, rest: seq<Item<string>>)
    ensures said + Bodies([item] + rest) == said + [item.body] + Bodies(rest)
  {
    assert Bodies([item] + rest) == [item.body] + Bodies(rest);
  }

  // ----- Download: what a user receives -----

  predicate PushingLine(at: ServerAt) { at.Pushing? && at.item.prio == MSGSND_PRIO }

  /** The log as far as user i can have got it: without the line being sent, until its turn. */
  function LogFor(s: Chat, i: nat): seq<Down> {
    if PushingLine(s.server) && s.server.k <= i && s.log != [] then s.log[..|s.log| - 1] else s.log
  }

  /** What user i has received and what still waits for it is part of the log, in the log's order. */
  ghost predicate DownloadOk(s: Chat, i: nat)
    requires i < |s.links|
  {
    Subseq(s.links[i].got + Bodies(OfPrio(s.links[i].down, MSGSND_PRIO)), LogFor(s, i))
  }

  ghost predicate PushOk(s: Chat) {
    PushingLine(s.server) ==> s.log != [] && s.server.item.body == s.log[|s.log| - 1]
  }

  lemma ReceiveDownload(s: Chat, i: nat)
    requires i < |s.links| && s.links[i].down != [] && DownloadOk(s, i)
    ensures DownloadOk(ReceiveDown(s, i), i)
  {
    var link := s.links[i];
    var rest := OfPrio(link.down[1..], MSGSND_PRIO);
    ReceiveIsFifo(link.down, MSGSND_PRIO);
    if link.down[0].prio == MSGSND_PRIO {
      assert Bodies([link.down[0]] + rest) == [link.down[0].body] + Bodies(rest);
      assert link.got + ([link.down[0].body] + Bodies(rest)) == link.got + [link.down[0].body] + Bodies(rest);
    } else {
      assert [] + rest == rest;
    }
  }

  /** A message that is not a chat line, queued or dropped, leaves the chat lines alone. */
  lemma OtherPushed(cfg: Config, links: seq<Link>, k: nat, item: Item<Down>, j: nat)
    requires k < |links| && j < |links| && (j != k || item.prio != MSGSND_PRIO)
    ensures var links' := Pushed(cfg, links, k, item);
            && |links'| == |links| && links'[j].got == links[j].got
            && OfPrio(links'[j].down, MSGSND_PRIO) == OfPrio(links[j].down, MSGSND_PRIO)
            && links'[j].up == links[j].up && links'[j].typed == links[j].typed
  {
    InsertIsFifo(links[k].down, item, MSGSND_PRIO);
    assert OfPrio(links[k].down, MSGSND_PRIO) + [] == OfPrio(links[k].down, MSGSND_PRIO);
  }

  /** The line's turn for user k: it joins the user's messages, or is dropped for this user. */
  lemma LinePushed(cfg: Config, s: Chat)
    requires |s.users| == |s.links| && PushingLine(s.server) && s.server.k < |s.users|
    requires PushOk(s) && DownloadOk(s, s.server.k)
    ensures DownloadOk(ServerNext(cfg, s), s.server.k)
  {
    var k, item := s.server.k, s.server.item;
    var link := s.links[k];
    LineJoins(link.got, OfPrio(link.down, MSGSND_PRIO), item, s.log);
    InsertIsFifo(link.down, item, MSGSND_PRIO);
    var s' := ServerNext(cfg, s);
    assert s'.log == s.log == LogFor(s', k);
  }

  lemma LineJoins(got: seq<Down>, waiting: seq<Item<Down>>, item: Item<Down>, log: seq<Down>)
    requires log != [] && log[|log| - 1] == item.body
    requires Subseq(got + Bodies(waiting), log[..|log| - 1])
    ensures Subseq(got + Bodies(waiting), log) && Subseq(got + Bodies(waiting + [item]), log)
  {
    BodiesAppend(got, waiting, item);
    LineSkippedOrKept(got + Bodies(waiting), log);
  }

  lemma BodiesAppend(got: seq<Down>, waiting: seq<Item<Down>>, item: Item<Down>)
    ensures got + Bodies(waiting + [item]) == got + Bodies(waiting) + [item.body]
  {
    assert Bodies(waiting + [item]) == Bodies(waiting) + [item.body];
  }

  lemma LineSkippedOrKept(a: seq<Down>, log: seq<Down>)
    requires log != [] && Subseq(a, log[..|log| - 1])
    ensures Subseq(a, log) && Subseq(a + [log[|log| - 1]], log)
  {
    var front, last := log[..|log| - 1], log[|log| - 1];
    assert log == front + [last];
    SubseqSkip(a, front, last);
    SubseqKeep(a, front, last);
  }

  // ----- The invariant -----

  ghost predicate UploadsOk(s: Chat) {
    && (forall i :: 0 <= i < |s.links| ==> UploadOk(s, i))
    && (forall m :: 0 <= m < |s.log| ==> s.log[m].Chat? && s.log[m].line.from < |s.links| && s.log[m].line.pos == m)
  }

  ghost predicate DownloadsOk(s: Chat) {
    PushOk(s) && forall i :: 0 <= i < |s.links| ==> DownloadOk(s, i)
  }

  ghost predicate Inv(cfg: Config, s: Chat) { TablesOk(s) && UploadsOk(s) && DownloadsOk(s) }

  lemma SendInv(cfg: Config, s: Chat, i: nat, prio: nat, text: string)
    requires UploadsOk(s) && DownloadsOk(s) && i < |s.links|
    ensures UploadsOk(SendUp(cfg, s, i, prio, text)) && DownloadsOk(SendUp(cfg, s, i, prio, text))
  {
    var s' := SendUp(cfg, s, i, prio, text);
    forall j | 0 <= j < |s'.links|
      ensures UploadOk(s', j) && DownloadOk(s', j)
    {
      assert UploadOk(s, j) && DownloadOk(s, j);
      if j == i { SendUpload(cfg, s, i, prio, text); }
    }
  }

  lemma ReceiveInv(s: Chat, i: nat)
    requires UploadsOk(s) && DownloadsOk(s) && i < |s.links| && s.links[i].down != []
    ensures UploadsOk(ReceiveDown(s, i)) && DownloadsOk(ReceiveDown(s, i))
  {
    var s' := ReceiveDown(s, i);
    forall j | 0 <= j < |s'.links|
      ensures UploadOk(s', j) && DownloadOk(s', j)
    {
      assert UploadOk(s, j) && DownloadOk(s, j);
      if j == i { ReceiveDownload(s, i); }
    }
  }

  lemma RegisterInv(cfg: Config, s: Chat, login: string)
    requires UploadsOk(s) && DownloadsOk(s) && s.server == AtLogin
    ensures UploadsOk(Registered(cfg, s, login)) && DownloadsOk(Registered(cfg, s, login))
  {
    var s' := Registered(cfg, s, login);
    forall j | 0 <= j < |s'.links|
      ensures UploadOk(s', j) && DownloadOk(s', j)
    {
      if j < |s.links| {
        assert UploadOk(s, j) && DownloadOk(s, j);
      } else {
        NothingSaid(s.log, j);
      }
    }
  }

  lemma {:induction false} NothingSaid(log: seq<Down>, from: nat)
    requires forall m :: 0 <= m < |log| ==> log[m].Chat? && log[m].line.from < from
    ensures Said(log, from) == []
  {
    if log != [] { NothingSaid(log[..|log| - 1], from); }
  }

  /** The links after one turn of the scan: user i's upload queue has lost its head, and for a list
      request an answer may have been queued. */
  lemma ScanFrame(cfg: Config, s: Chat, j: nat)
    requires TablesOk(s) && s.server == Scanning && s.index < |s.users| && Connected(s.users[s.index])
    requires s.links[s.index].up != [] && j < |s.links|
    ensures var s' := Scan(cfg, s);
            && |s'.links| == |s.links| && s'.links[j].typed == s.links[j].typed && s'.links[j].got == s.links[j].got
            && s'.links[j].up == (if j == s.index then s.links[j].up[1..] else s.links[j].up)
            && OfPrio(s'.links[j].down, MSGSND_PRIO) == OfPrio(s.links[j].down, MSGSND_PRIO)
  {
    var i := s.index;
    var links := s.links[i := s.links[i].(up := s.links[i].up[1..])];
    OtherPushed(cfg, links, i, Item(UPD_USRLIST_PRIO, UserList(-1, s.usersList)), j);
  }

  lemma ScanLog(cfg: Config, s: Chat)
    requires TablesOk(s) && s.server == Scanning && s.index < |s.users| && Connected(s.users[s.index])
    requires s.links[s.index].up != []
    ensures var s', item := Scan(cfg, s), s.links[s.index].up[0];
            if item.prio == USER_PRIO then
              var body := Chat(Line(|s.log|, s.index, s.users[s.index].login, item.body));
              s'.log == s.log + [body] && s'.server == Pushing(0, Item(MSGSND_PRIO, body), s.index + 1)
            else s'.log == s.log && !PushingLine(s'.server)
  {
  }

  lemma ScanInv(cfg: Config, s: Chat)
    requires Inv(cfg, s) && s.server == Scanning && s.index < |s.users| && Connected(s.users[s.index])
    requires s.links[s.index].up != []
    ensures UploadsOk(Scan(cfg, s)) && DownloadsOk(Scan(cfg, s))
  {
    var s' := Scan(cfg, s);
    ScanLog(cfg, s);
    ScanFrame(cfg, s, s.index);
    forall j | 0 <= j < |s'.links|
      ensures UploadOk(s', j) && DownloadOk(s', j)
    {
      assert UploadOk(s, j) && DownloadOk(s, j);
      ScanFrame(cfg, s, j);
      HandleUpload(s, s', s.index, j);
      ScanDownload(s, s', j);
    }
  }

  lemma ScanDownload(s: Chat, s': Chat, j: nat)
    requires j < |s.links| == |s'.links| && s.server == Scanning && DownloadOk(s, j)
    requires s'.links[j].got == s.links[j].got
    requires OfPrio(s'.links[j].down, MSGSND_PRIO) == OfPrio(s.links[j].down, MSGSND_PRIO)
    requires if PushingLine(s'.server) then s'.server.k == 0 && s'.log != [] && s'.log[..|s'.log| - 1] == s.log
             else s'.log == s.log
    ensures DownloadOk(s', j)
  {
  }

  lemma PushInv(cfg: Config, s: Chat)
    requires Inv(cfg, s) && s.server.Pushing?
    ensures UploadsOk(ServerNext(cfg, s)) && DownloadsOk(ServerNext(cfg, s))
  {
    var s' := ServerNext(cfg, s);
    PushFrame(cfg, s);
    forall j | 0 <= j < |s'.links|
      ensures UploadOk(s', j) && DownloadOk(s', j)
    {
      PushOne(cfg, s, j);
    }
  }

  lemma PushFrame(cfg: Config, s: Chat)
    requires s.server.Pushing? && |s.users| == |s.links|
    ensures var s' := ServerNext(cfg, s);
            && |s'.links| == |s.links| && s'.log == s.log
            && (s'.server.Pushing? ==> s'.server.item == s.server.item && s.server.k < |s.users|)
  {
  }

  lemma PushOther(cfg: Config, s: Chat, j: nat)
    requires s.server.Pushing? && j < |s.users| == |s.links| && s.server.k < |s.users| && DownloadOk(s, j)
    requires !(PushingLine(s.server) && j == s.server.k)
    ensures |ServerNext(cfg, s).links| == |s.links| && DownloadOk(ServerNext(cfg, s), j)
  {
    var s' := ServerNext(cfg, s);
    OtherPushed(cfg, s.links, s.server.k, s.server.item, j);
    assert s'.server == s.server.(k := s.server.k + 1) && s'.log == s.log;
    assert s'.links == s.links || s'.links == Pushed(cfg, s.links, s.server.k, s.server.item);
    PushDownload(s, s', j);
  }

  lemma PushOne(cfg: Config, s: Chat, j: nat)
    requires s.server.Pushing? && j < |s.users| == |s.links| && PushOk(s) && UploadOk(s, j) && DownloadOk(s, j)
    ensures var s' := ServerNext(cfg, s);
            |s'.links| == |s.links| && UploadOk(s', j) && DownloadOk(s', j)
  {
    var k := s.server.k;
    if k < |s.users| {
      PushUpload(cfg, s, j);
      if PushingLine(s.server) && j == k {
        LinePushed(cfg, s);
      } else {
        PushOther(cfg, s, j);
      }
    } else {
      assert ServerNext(cfg, s).links == s.links && LogFor(s, j) == s.log;
    }
  }

  lemma PushUpload(cfg: Config, s: Chat, j: nat)
    requires s.server.Pushing? && s.server.k < |s.users| == |s.links| && j < |s.links| && UploadOk(s, j)
    ensures var s' := ServerNext(cfg, s);
            |s'.links| == |s.links| && s'.log == s.log && UploadOk(s', j)
  {
    var s' := ServerNext(cfg, s);
    assert s'.links[j].up == s.links[j].up && s'.links[j].typed == s.links[j].typed;
  }

  lemma PushDownload(s: Chat, s': Chat, j: nat)
    requires j < |s.links| == |s'.links| && s.server.Pushing? && DownloadOk(s, j) && s'.log == s.log
    requires s'.server == s.server.(k := s.server.k + 1) && (PushingLine(s.server) ==> j != s.server.k)
    requires s'.links[j].got == s.links[j].got
    requires OfPrio(s'.links[j].down, MSGSND_PRIO) == OfPrio(s.links[j].down, MSGSND_PRIO)
    ensures DownloadOk(s', j)
  {
  }

  lemma EventInv(cfg: Config, s: Chat, e: Event)
    requires Inv(cfg, s)
    ensures Inv(cfg, Next(cfg, s, e))
  {
    EventTables(cfg, s, e);
    match e {
      case Send(i, prio, text) => if i < |s.links| { SendInv(cfg, s, i, prio, text); }
      case Receive(i) => if i < |s.links| && s.links[i].down != [] { ReceiveInv(s, i); }
      case Register(login) => if s.server == AtLogin { RegisterInv(cfg, s, login); }
      case Serve =>
        if s.server.Pushing? {
          PushInv(cfg, s);
        } else if s.server == Scanning && s.index < |s.users| && Connected(s.users[s.index]) && s.links[s.index].up != [] {
          ScanInv(cfg, s);
        } else {
          IdleInv(cfg, s);
        }
    }
  }

  /** A turn that handles no message leaves the channels alone. */
  lemma IdleInv(cfg: Config, s: Chat)
    requires Inv(cfg, s) && !s.server.Pushing?
    requires s.server == Scanning && s.index < |s.users| && Connected(s.users[s.index]) ==> s.links[s.index].up == []
    ensures UploadsOk(ServerNext(cfg, s)) && DownloadsOk(ServerNext(cfg, s))
  {
    var s' := ServerNext(cfg, s);
    assert s'.links == s.links && s'.log == s.log && !s'.server.Pushing?;
    forall j | 0 <= j < |s'.links|
      ensures UploadOk(s', j) && DownloadOk(s', j)
    {
      assert UploadOk(s, j) && DownloadOk(s, j);
    }
  }

  lemma {:induction false} RunInv(cfg: Config, s: Chat, es: seq<Event>)
    requires Inv(cfg, s)
    ensures Inv(cfg, Run(cfg, s, es))
    decreases |es|
  {
    if es != [] {
      EventInv(cfg, s, es[0]);
      RunInv(cfg, Next(cfg, s, es[0]), es[1..]);
    }
  }

  lemma Reachable(cfg: Config, es: seq<Event>)
    ensures Inv(cfg, Run(cfg, Init(cfg), es))
  {
    RunInv(cfg, Init(cfg), es);
  }

  // ----- What holds over every run -----

  /** The ids follow the slot order, active_users counts the connected slots, and the server stops only when
      there are none. */
  lemma TablesAreExact(cfg: Config, es: seq<Event>)
    ensures var s := Run(cfg, Init(cfg), es);
            && IdsInOrder(s.users) && s.active == Total(s.users, ConnectedUnit)
            && (s.server == Stopped ==> s.active <= 0)
  {
    Reachable(cfg, es);
  }

  /** The server's first look at the login queue finds no request, or it reads the right name. */
  predicate FirstLookRight(cfg: Config, es: seq<Event>)
    decreases |es|
  {
    es != [] ==>
      match es[0]
      case Serve => true
      case Register(login) => cfg.firstIndex == 0 || cfg.junk == login
      case _ => FirstLookRight(cfg, es[1..])
  }

  /** The list is right in every state of a run. */
  predicate AlwaysListed(cfg: Config, s: Chat, es: seq<Event>)
    decreases |es|
  {
    ListRight(s) && (es != [] ==> AlwaysListed(cfg, Next(cfg, s, es[0]), es[1..]))
  }

  lemma {:induction false} ListedFromHere(cfg: Config, s: Chat, es: seq<Event>)
    requires TablesOk(s) && ListOk(s)
    ensures AlwaysListed(cfg, s, es)
    decreases |es|
  {
    if es != [] {
      EventTables(cfg, s, es[0]);
      EventList(cfg, s, es[0]);
      ListedFromHere(cfg, Next(cfg, s, es[0]), es[1..]);
    }
  }

  /** A request that waits in the very first pass reads the uninitialised scan variable: the list comes out
      right exactly if that happens to be 0, or the name it reads the right one. */
  lemma FirstPassListExactly(cfg: Config, login: string)
    ensures var s := Registered(cfg, Init(cfg), login);
            ListRight(s) <==> cfg.firstIndex == 0 || cfg.junk == login
  {
    var s := Registered(cfg, Init(cfg), login);
    ListAppend([], Slot(1, login));
    assert s.users == [] + [Slot(1, login)] && ListText(s.users) == Entry(login);
    var named := if cfg.firstIndex == 0 then login else cfg.junk;
    assert s.usersList == Entry(named);
    assert Entry(named)[1..|Entry(named)| - 2] == named && Entry(login)[1..|Entry(login)| - 2] == login;
  }

  /** In every state of a run the list kept entry by entry is the list rebuilt from scratch, if and only if the
      server's first look at the login queue finds no request or happens to read the right name. */
  lemma {:induction false} ListIsExact(cfg: Config, es: seq<Event>)
    ensures AlwaysListed(cfg, Init(cfg), es) <==> FirstLookRight(cfg, es)
    decreases |es|
  {
    if es != [] {
      var s, s' := Init(cfg), Next(cfg, Init(cfg), es[0]);
      match es[0] {
        case Serve => ListedFromHere(cfg, s', es[1..]);
        case Register(login) =>
          FirstPassListExactly(cfg, login);
          EventTables(cfg, s, es[0]);
          if ListRight(s') { ListedFromHere(cfg, s', es[1..]); }
        case _ =>
          assert s' == s;
          ListIsExact(cfg, es[1..]);
      }
    }
  }

  lemma FollowsLog(cfg: Config, s: Chat, i: nat)
    requires Inv(cfg, s) && i < |s.links|
    ensures Subseq(s.links[i].got, s.log)
  {
    assert DownloadOk(s, i);
    var waiting := Bodies(OfPrio(s.links[i].down, MSGSND_PRIO));
    SubseqPrefix(s.links[i].got, waiting);
    SubseqTrans(s.links[i].got, s.links[i].got + waiting, LogFor(s, i));
    if LogFor(s, i) != s.log {
      SubseqSkip(s.links[i].got, LogFor(s, i), s.log[|s.log| - 1]);
      assert LogFor(s, i) + [s.log[|s.log| - 1]] == s.log;
    }
  }

  /** What every user receives is a subsequence of the one broadcast log, although full queues drop
      lines and lists overtake them. */
  lemma ReceivedFollowsLog(cfg: Config, es: seq<Event>, i: nat)
    requires i < |Run(cfg, Init(cfg), es).links|
    ensures var s := Run(cfg, Init(cfg), es);
            Subseq(s.links[i].got, s.log)
  {
    Reachable(cfg, es);
    FollowsLog(cfg, Run(cfg, Init(cfg), es), i);
  }

  /** Every user receives broadcasts at increasing positions of the log, each unchanged. */
  lemma ReceivedInLogOrder(cfg: Config, es: seq<Event>, u: nat, j: nat)
    requires u < |Run(cfg, Init(cfg), es).links| && j < |Run(cfg, Init(cfg), es).links[u].got|
    ensures var s := Run(cfg, Init(cfg), es);
            var got := s.links[u].got;
            && got[j].Chat? && got[j].line.pos < |s.log| && s.log[got[j].line.pos] == got[j]
            && forall i :: 0 <= i < j ==> got[i].Chat? && got[i].line.pos < got[j].line.pos
  {
    Reachable(cfg, es);
    ReceivedFollowsLog(cfg, es, u);
    var s := Run(cfg, Init(cfg), es);
    var p := Positions(s.links[u].got, s.log);
    assert s.log[p[j]].line.pos == p[j];
    forall i | 0 <= i < j
      ensures s.links[u].got[i].Chat? && s.links[u].got[i].line.pos < s.links[u].got[j].line.pos
    {
      assert s.log[p[i]].line.pos == p[i] && p[i] < p[j];
    }
  }

  /** So any two users see the broadcasts they both receive in the same order, however often a line is
      repeated. */
  lemma UsersAgreeOnOrder(cfg: Config, es: seq<Event>, u: nat, v: nat, i: nat, j: nat, k: nat, l: nat)
    requires u < |Run(cfg, Init(cfg), es).links| && v < |Run(cfg, Init(cfg), es).links|
    requires var a, b := Run(cfg, Init(cfg), es).links[u].got, Run(cfg, Init(cfg), es).links[v].got;
             i < j < |a| && k < |b| && l < |b| && a[i] == b[k] && a[j] == b[l]
    ensures k < l
  {
    ReceivedInLogOrder(cfg, es, u, j);
    if k > l {
      ReceivedInLogOrder(cfg, es, v, k);
    }
  }

  /** End to end: what user v receives from user u is part of what u sent, in the order it was sent. */
  lemma LinesArriveInOrder(cfg: Config, es: seq<Event>, u: nat, v: nat)
    requires u < |Run(cfg, Init(cfg), es).links| && v < |Run(cfg, Init(cfg), es).links|
    ensures var s := Run(cfg, Init(cfg), es);
            Subseq(Said(s.links[v].got, u), s.links[u].typed)
  {
    Reachable(cfg, es);
    var s := Run(cfg, Init(cfg), es);
    ReceivedFollowsLog(cfg, es, v);
    SaidSubseq(s.links[v].got, s.log, u);
    assert UploadOk(s, u);
    var waiting := Bodies(OfPrio(s.links[u].up, USER_PRIO));
    SubseqPrefix(Said(s.log, u), waiting);
    SubseqTrans(Said(s.log, u), Said(s.log, u) + waiting, s.links[u].typed);
    SubseqTrans(Said(s.links[v].got, u), Said(s.log, u), s.links[u].typed);
  }

  lemma {:induction false} SaidSubseq(a: seq<Down>, b: seq<Down>, from: nat)
    requires Subseq(a, b)
    ensures Subseq(Said(a, from), Said(b, from))
    decreases |b|
  {
    if a != [] {
      var b', y := b[..|b| - 1], b[|b| - 1];
      var yes := y.Chat? && y.line.from == from;
      if Subseq(a, b') {
        SaidSubseq(a, b', from);
        if yes { SubseqSkip(Said(a, from), Said(b', from), y.line.text); }
      } else {
        SaidSubseq(a[..|a| - 1], b', from);
        if yes { SubseqKeep(Said(a[..|a| - 1], from), Said(b', from), y.line.text); }
      }
      if !yes {
        assert Said(b', from) + [] == Said(b', from);
        assert Said(a[..|a| - 1], from) + [] == Said(a[..|a| - 1], from);
      }
    }
  }

  // ----- The server and its queues -----

  class Server {
    const cfg: Config
    var users: seq<Slot>
    var links: seq<Link>
    var usersList: string
    var active: int
    var index: int
    var server: ServerAt
    var log: seq<Down>   // the history
    var lists: seq<Down>

    ghost function View(): Chat
      reads this
    {
      State(users, links, usersList, active, index, server, log, lists)
    }

    constructor (cfg: Config)
      ensures this.cfg == cfg && View() == Init(cfg) && Inv(cfg, View())
    {
      this.cfg := cfg;
      users, links, usersList, active, index, server, log, lists := [], [], "", 0, cfg.firstIndex, AtLogin, [], [];
    }

    method ClientSends(i: nat, prio: nat, text: string)
      requires i < |links|
      modifies this
      ensures View() == Next(cfg, old(View()), Send(i, prio, text))
    {
      var link := links[i];
      if |link.up| < cfg.cap {
        link := link.(up := Insert(link.up, Item(prio, text)));
      }
      if prio == USER_PRIO {
        link := link.(typed := link.typed + [text]);
      }
      links := links[i := link];
    }

    method ClientReceives(i: nat)
      requires i < |links| && links[i].down != []
      modifies this
      ensures View() == Next(cfg, old(View()), Receive(i))
    {
      var link, item := links[i], links[i].down[0];
      link := link.(down := link.down[1..]);
      if item.prio == MSGSND_PRIO {
        link := link.(got := link.got + [item.body]);
      } else if item.prio == UPD_USRLIST_PRIO {
        link := link.(gotLists := link.gotLists + [item.body]);
      }
      links := links[i := link];
    }

    method RegisterUser(login: string)
      requires server == AtLogin
      modifies this
      ensures View() == Next(cfg, old(View()), Register(login))
    {
      users := users + [Slot(|users| + 1, login)];
      links := links + [Fresh(|log|, |lists|)];
      active := active + 1;
      usersList := usersList + Entry(if 0 <= index < |users| then users[index].login else cfg.junk);
      SendList(0);
    }

    method SendList(resume: nat)
      modifies this`lists, this`server
      ensures View() == Listing(old(View()), old(usersList), resume)
    {
      var body := UserList(|lists|, usersList);
      lists := lists + [body];
      server := Pushing(0, Item(UPD_USRLIST_PRIO, body), resume);
    }

    method PushTo(k: nat, item: Item<Down>)
      requires k < |links|
      modifies this`links
      ensures links == Pushed(cfg, old(links), k, item)
    {
      if |links[k].down| < cfg.cap {
        links := links[k := links[k].(down := Insert(links[k].down, item))];
      }
    }

    method HandleMessage(i: nat, item: Item<string>)
      requires |users| == |links| && i < |users|
      modifies this
      ensures View() == Handle(cfg, old(View()), i, item)
    {
      if item.prio == USER_PRIO {
        var body := Chat(Line(|log|, i, users[i].login, item.body));
        log := log + [body];
        server := Pushing(0, Item(MSGSND_PRIO, body), i + 1);
      } else if item.prio == SET_USRNAME_PRIO {
        users := users[i := users[i].(login := item.body)];
        usersList := Rebuild(users);
        SendList(i + 1);
      } else if item.prio == REQ_USRLIST_PRIO {
        PushTo(i, Item(UPD_USRLIST_PRIO, UserList(-1, usersList)));
        index := i + 1;
      } else if item.prio == DISCONNECT_PRIO {
        users := users[i := users[i].(id := -1)];
        active := active - 1;
        if active <= 0 {
          server := Stopped;
          return;
        }
        usersList := Rebuild(users);
        SendList(i + 1);
      } else {
        index := i + 1;
      }
    }

    method Step()
      requires |users| == |links| && (server == Scanning ==> index >= 0)
      modifies this
      ensures View() == Next(cfg, old(View()), Serve)
    {
      match server {
        case Stopped =>
        case AtLogin =>
          index := 0;
          server := Scanning;
        case Scanning =>
          var i := index;
          if i >= |users| {
            server := AtLogin;
          } else if users[i].id == -1 || links[i].up == [] {
            index := i + 1;
          } else {
            var item := links[i].up[0];
            links := links[i := links[i].(up := links[i].up[1..])];
            HandleMessage(i, item);
          }
        case Pushing(k, item, resume) =>
          if k >= |users| {
            index := resume;
            server := Scanning;
          } else {
            if users[k].id != -1 { PushTo(k, item); }
            server := Pushing(k + 1, item, resume);
          }
      }
    }

    method Perform(e: Event)
      requires Inv(cfg, View())
      modifies this
      ensures View() == Next(cfg, old(View()), e) && Inv(cfg, View())
    {
      EventInv(cfg, View(), e);
      match e {
        case Send(i, prio, text) => if i < |links| { ClientSends(i, prio, text); }
        case Receive(i) => if i < |links| && links[i].down != [] { ClientReceives(i); }
        case Register(login) => if server == AtLogin { RegisterUser(login); }
        case Serve => if server != Scanning || index >= 0 { Step(); }
      }
    }

    /** Whatever the schedule, what every user has received is part of the log, in its order. */
    method Execute(es: seq<Event>)
      requires Inv(cfg, View())
      modifies this
      ensures View() == Run(cfg, old(View()), es) && Inv(cfg, View())
      ensures active == Total(users, ConnectedUnit) && |links| == |users|
      ensures forall i :: 0 <= i < |links| ==> Subseq(links[i].got, log)
    {
      for k := 0 to |es|
        invariant Run(cfg, View(), es[k..]) == Run(cfg, old(View()), es) && Inv(cfg, View())
      {
        Perform(es[k]);
      }
      forall i | 0 <= i < |links|
        ensures Subseq(links[i].got, log)
      {
        FollowsLog(cfg, View(), i);
      }
    }
  }
}
