/**
  The chat of homework13_shared_memory after the login: every user has an upload channel (a one-slot
  buffer with cts and usr), a download channel (a one-slot buffer with stc and srv) and a handler
  thread; the server scans the upload channels and broadcasts with timed acknowledgements.
 */
module ShmChat {
  import opened Sums
  import opened Roster

  /** What a client puts into its upload buffer. */
  datatype Command = Say(text: string) | Quit

  /** What the server puts into a download buffer; from is the history of a line, not part of the buffer. */
  datatype Notice = Line(from: nat, text: string) | UserList(text: string)

  datatype ClientAt =
    | Typing     // the buffer is the client's
    | Ready      // the command is written, before the post of cts
    | Waiting    // at the wait on usr
    | Quitting   // the quit command is posted, the handler still runs
    | Gone

  datatype HandlerAt =
    | Idle        // trying stc
    | Reading     // has taken stc, before it shows the buffer
    | Answering   // before the post of srv

  /** The upload channel; sent and heard are the lines written by the client and read by the server. */
  datatype Up = Up(cts: nat, usr: nat, command: Command, client: ClientAt, sent: seq<string>, heard: seq<string>)

  /** The download channel. The history: notices posted and shown, for every notice shown the number of the
      write it came from, writes, posts that nobody waits for, expired waits, writes over an unread notice. */
  datatype Down = Down(
    stc: nat, srv: nat, notice: Notice, handler: HandlerAt,
    posted: seq<Notice>, shown: seq<Notice>, seen: seq<int>,
    written: nat, unawaited: nat, expired: nat, overwritten: nat)

  /** The history: the number of broadcasts and of confirmed logins before the user's own. */
  datatype User = User(up: Up, down: Down, from: nat, earlier: int)

  datatype ServerAt =
    | Scanning                                         // trying the users' cts
    | Taken(i: nat)                                    // has user i's command
    | Heard(i: nat, notice: Notice)                    // has copied the line, before the post of usr
    | Writing(k: nat, notice: Notice, awaited: bool)   // broadcasting, before writing to user k
    | Posting(k: nat, notice: Notice, awaited: bool)   // before the post of stc
    | Awaiting(k: nat, notice: Notice)                 // at the timed wait on srv
    | Stopped

  /** slots is the server's table, active is active_users, log lists the broadcasts in order. */
  datatype Chat = Chat(
    slots: seq<Slot>, users: seq<User>, usersList: string, active: int, server: ServerAt,
    timeouts: nat, log: seq<Notice>)

  datatype Event =
    | Join(login: string, confirmed: bool)   // a login ends, with its confirmation or with a timeout
    | Hear(i: nat)                           // the server's trywait on user i's cts
    | Serve                                  // any other step of the server
    | Expire                                 // the server's timed wait expires
    | Type(i: nat, text: string)             // the client writes a line
    | Leave(i: nat)                          // the client writes the quit command
    | Step(i: nat)                           // the client posts or waits
    | Handle(i: nat)                         // the handler moves on

  const INIT := Chat([], [], "", 0, Scanning, 0, [])

  function Fresh(confirmed: bool, from: nat, earlier: int): User {
    User(Up(0, 0, Quit, if confirmed then Typing else Gone, [], []),
         Down(0, 0, UserList(""), Idle, [], [], [], 0, 0, 0, 0), from, earlier)
  }

  function Next(s: Chat, e: Event): Chat {
    match e
    case Join(login, confirmed) => if s.server == Scanning then Joined(s, login, confirmed) else s
    case Hear(i) =>
      if s.server == Scanning && i < |s.users| && i < |s.slots| && Connected(s.slots[i]) && s.users[i].up.cts > 0
      then WithUp(s, i, s.users[i].up.(cts := s.users[i].up.cts - 1)).(server := Taken(i)) else s
    case Serve => ServerNext(s)
    case Expire =>
      if s.server.Awaiting? && s.server.k < |s.users| && s.users[s.server.k].down.srv == 0
      then WithDown(s, s.server.k, s.users[s.server.k].down.(expired := s.users[s.server.k].down.expired + 1))
           .(server := Writing(s.server.k + 1, s.server.notice, true)) else s
    case Type(i, text) =>
      if i < |s.users| && s.users[i].up.client == Typing && text != ""
      then WithUp(s, i, Entered(s.users[i].up, Say(text))) else s
    case Leave(i) =>
      if i < |s.users| && s.users[i].up.client == Typing then WithUp(s, i, Entered(s.users[i].up, Quit)) else s
    case Step(i) => if i < |s.users| then WithUp(s, i, ClientNext(s.users[i].up)) else s
    case Handle(i) =>
      if i < |s.users| && s.users[i].up.client != Gone then WithDown(s, i, HandlerNext(s.users[i].down)) else s
  }

  function WithUp(s: Chat, i: nat, up: Up): Chat
    requires i < |s.users|
  {
    s.(users := s.users[i := s.users[i].(up := up)])
  }

  function WithDown(s: Chat, i: nat, down: Down): Chat
    requires i < |s.users|
  {
    s.(users := s.users[i := s.users[i].(down := down)])
  }

  /** The confirmed logins so far: every login has a slot. */
  function Confirmed(s: Chat): int { |s.slots| - s.timeouts }

  /** The end of a login: a confirmed user joins the list, an unconfirmed one loses its slot. */
  function Joined(s: Chat, login: string, confirmed: bool): Chat {
    var s' := s.(users := s.users + [Fresh(confirmed, |s.log|, Confirmed(s))], active := s.active + 1);
    if confirmed then
      var list := s.usersList + Entry(login);
      Broadcasting(s'.(slots := s.slots + [Slot(|s.slots| + 1, login)], usersList := list), UserList(list), false)
    else
      s'.(slots := s.slots + [Slot(-1, login)], timeouts := s.timeouts + 1)
  }

  function Broadcasting(s: Chat, notice: Notice, awaited: bool): Chat {
    s.(server := Writing(0, notice, awaited), log := s.log + [notice])
  }

  /** The client fills its upload buffer. */
  function Entered(up: Up, command: Command): Up {
    up.(command := command, client := Ready, sent := if command.Say? then up.sent + [command.text] else up.sent)
  }

  function ClientNext(up: Up): Up {
    match up.client
    case Ready => up.(cts := up.cts + 1, client := if up.command == Quit then Quitting else Waiting)
    case Waiting => if up.usr == 0 then up else up.(usr := up.usr - 1, client := Typing)
    case Quitting => up.(client := Gone)
    case _ => up
  }

  function HandlerNext(down: Down): Down {
    match down.handler
    case Idle => if down.stc == 0 then down else down.(stc := down.stc - 1, handler := Reading)
    case Reading => down.(handler := Answering, shown := down.shown + [down.notice], seen := down.seen + [down.written - 1])
    case Answering => down.(handler := Idle, srv := down.srv + 1)
  }

  /** Notices posted and not yet shown. */
  function Unread(d: Down): nat { d.stc + if d.handler == Reading then 1 else 0 }

  function ServerNext(s: Chat): Chat {
    if |s.users| != |s.slots| then s else
      match s.server
      case Scanning => s
      case Stopped => s
      case Taken(i) => if i >= |s.users| then s else Obeyed(s, i)
      case Heard(i, notice) =>
        if i >= |s.users| then s
        else Broadcasting(WithUp(s, i, s.users[i].up.(usr := s.users[i].up.usr + 1)), notice, true)
      case Writing(k, notice, awaited) =>
        if k >= |s.users| then s.(server := Scanning)
        else if !Connected(s.slots[k]) then s.(server := Writing(k + 1, notice, awaited))
        else WithDown(s, k, Written(s.users[k].down, notice)).(server := Posting(k, notice, awaited))
      case Posting(k, notice, awaited) =>
        if k >= |s.users| then s
        else WithDown(s, k, Posted(s.users[k].down, notice, awaited))
             .(server := if awaited then Awaiting(k, notice) else Writing(k + 1, notice, false))
      case Awaiting(k, notice) =>
        if k >= |s.users| || s.users[k].down.srv == 0 then s
        else WithDown(s, k, s.users[k].down.(srv := s.users[k].down.srv - 1)).(server := Writing(k + 1, notice, true))
  }

  /** The server fills a download buffer, whether or not the old notice was shown. */
  function Written(d: Down, notice: Notice): Down {
    d.(notice := notice, written := d.written + 1, overwritten := d.overwritten + if Unread(d) > 0 then 1 else 0)
  }

  /** The post of stc; only the broadcast of a registration goes on without waiting. */
  function Posted(d: Down, notice: Notice, awaited: bool): Down {
    d.(stc := d.stc + 1, posted := d.posted + [notice], unawaited := d.unawaited + if awaited then 0 else 1)
  }

  function Tagged(login: string, text: string): string { login + ": " + text }

  /** The server carries out user i's command. */
  function Obeyed(s: Chat, i: nat): Chat
    requires i < |s.users| == |s.slots|
  {
    var up := s.users[i].up;
    match up.command
    case Say(text) =>
      WithUp(s, i, up.(heard := up.heard + [text])).(server := Heard(i, Line(i, Tagged(s.slots[i].login, text))))
    case Quit =>
      var s' := s.(slots := s.slots[i := s.slots[i].(id := -1)], active := s.active - 1);
      if s.active - 1 <= 0 then s'.(server := Stopped)
      else Broadcasting(s'.(usersList := ListText(s'.slots)), UserList(ListText(s'.slots)), true)
  }

  function Run(s: Chat, es: seq<Event>): Chat
    decreases |es|
  {
    if es == [] then s else Run(Next(s, es[0]), es[1..])
  }

  // ----- The table -----

  ghost predicate TableOk(s: Chat) {
    && |s.users| == |s.slots| && IdsInOrder(s.slots)
    && s.active == Total(s.slots, ConnectedUnit) + s.timeouts
    && (s.server != Stopped ==> s.usersList == ListText(s.slots))
    && (s.server == Stopped ==> s.active <= 0)
    && (s.server.Taken? || s.server.Heard? ==> s.server.i < |s.users| && Connected(s.slots[s.server.i]))
    && (s.server.Heard? ==> s.server.notice.Line? && s.server.notice.from == s.server.i)
    && (s.server.Posting? || s.server.Awaiting? ==> s.server.k < |s.users| && Connected(s.slots[s.server.k]))
    && (s.server.Writing? || s.server.Posting? || s.server.Awaiting? ==>
          s.log != [] && s.log[|s.log| - 1] == s.server.notice)
  }

  lemma JoinTable(s: Chat, login: string, confirmed: bool)
    requires TableOk(s) && s.server == Scanning
    ensures TableOk(Joined(s, login, confirmed))
  {
    var slot := if confirmed then Slot(|s.slots| + 1, login) else Slot(-1, login);
    ListAppend(s.slots, slot);
    TotalAppend(s.slots, slot, ConnectedUnit);
    assert ListText(s.slots) + "" == ListText(s.slots);
  }

  lemma ObeyTable(s: Chat, i: nat)
    requires TableOk(s) && s.server == Taken(i)
    ensures TableOk(Obeyed(s, i))
  {
    TotalUpdate(s.slots, i, s.slots[i].(id := -1), ConnectedUnit);
  }

  lemma ServeTable(s: Chat)
    requires TableOk(s)
    ensures TableOk(ServerNext(s))
  {
    if s.server.Taken? { ObeyTable(s, s.server.i); }
  }

  lemma EventTable(s: Chat, e: Event)
    requires TableOk(s)
    ensures TableOk(Next(s, e))
  {
    match e {
      case Join(login, confirmed) => if s.server == Scanning { JoinTable(s, login, confirmed); }
      case Serve => ServeTable(s);
      case _ =>
    }
  }

  // ----- The channels of one user -----

  /** The server has taken user i's command and not yet given the buffer back. */
  predicate ServerHas(at: ServerAt, i: nat) { (at.Taken? || at.Heard?) && at.i == i }

  predicate PostingTo(at: ServerAt, i: nat) { at.Posting? && at.k == i }

  predicate AwaitingFrom(at: ServerAt, i: nat) { at.Awaiting? && at.k == i }

  /** The broadcast under way has still to reach user i. */
  predicate Pending(at: ServerAt, i: nat) {
    ((at.Writing? || at.Posting?) && at.k <= i) || (at.Awaiting? && at.k < i)
  }

  /** The line on its way from the client to the server. */
  function InFlight(up: Up, taken: bool): seq<string> {
    if up.command.Say? && (up.client == Ready || up.cts > 0 || taken) then [up.command.text] else []
  }

  /** One token: in cts, in usr, with the client, with the server, or gone with the user; and the lines
      sent are the lines heard and the one in flight. */
  predicate UpOk(up: Up, at: ServerAt, i: nat, connected: bool) {
    && up.cts + up.usr + (if up.client == Typing || up.client == Ready then 1 else 0)
       + (if ServerHas(at, i) then 1 else 0) + (if connected then 0 else 1) == 1
    && up.sent == up.heard + InFlight(up, at == Taken(i))
    && (up.client == Quitting || up.client == Gone ==> up.command == Quit)
    && (ServerHas(at, i) && at.Heard? ==> up.client == Waiting)
    && (up.client == Waiting ==> up.command.Say?)
  }

  /** The semaphore credit of user i. */
  predicate CreditOk(d: Down, at: ServerAt, i: nat) {
    && d.stc + (if d.handler == Idle then 0 else 1) + d.srv
       == d.unawaited + d.expired + (if AwaitingFrom(at, i) then 1 else 0)
    && |d.posted| == |d.shown| + Unread(d)
    && d.written == |d.posted| + (if PostingTo(at, i) then 1 else 0)
    && (PostingTo(at, i) ==> d.notice == at.notice)
  }

  /** The notice of write number m. */
  function NoticeOf(d: Down, m: int): Notice { if 0 <= m < |d.posted| then d.posted[m] else d.notice }

  /** What was shown: later and later writes, none of them earlier than its turn. */
  ghost predicate SeenOk(d: Down) {
    && |d.seen| == |d.shown| && |d.posted| == |d.shown| + Unread(d)
    && |d.posted| <= d.written <= |d.posted| + 1
    && (d.written == |d.posted| > 0 ==> d.notice == d.posted[d.written - 1])
    && (forall j :: 0 <= j < |d.seen| ==> j <= d.seen[j] < d.written && d.shown[j] == NoticeOf(d, d.seen[j]))
    && (forall j, k :: 0 <= j < k < |d.seen| ==> d.seen[j] <= d.seen[k])
  }

  /** Exactly its turn, if nothing was overwritten. */
  ghost predicate FaithfulOk(d: Down) {
    d.overwritten == 0 ==> |d.seen| + 1 >= d.written && forall j :: 0 <= j < |d.seen| ==> d.seen[j] == j
  }

  /** Some write before the latest is missing, if anything was overwritten. */
  ghost predicate LossOk(d: Down) {
    d.overwritten > 0 ==> exists m :: 0 <= m < d.written - 1 && m !in d.seen
  }

  ghost predicate ShownOk(d: Down) { SeenOk(d) && FaithfulOk(d) && LossOk(d) }

  /** The posts are the broadcasts since the login, in order; for a connected user all of them but the
      one that is still to reach it. */
  predicate Follows(posted: seq<Notice>, from: nat, log: seq<Notice>, pending: bool, connected: bool) {
    && from + |posted| <= |log|
    && posted == log[from..from + |posted|]
    && (connected ==> from + |posted| + (if pending then 1 else 0) == |log|)
  }

  predicate LogOk(s: Chat, i: nat)
    requires i < |s.users| == |s.slots|
  {
    Follows(s.users[i].down.posted, s.users[i].from, s.log, Pending(s.server, i), Connected(s.slots[i]))
  }

  /** A registration's broadcast has still to reach user i. */
  predicate JoinPending(at: ServerAt, i: nat) { (at.Writing? || at.Posting?) && !at.awaited && at.k <= i }

  /** The posts that nobody waits for are those of the confirmed logins since the user's own, that one
      included, but the one under way. */
  predicate Unanswered(unawaited: nat, earlier: int, confirmed: int, pending: bool, connected: bool) {
    && unawaited <= confirmed - earlier
    && (connected ==> unawaited + (if pending then 1 else 0) == confirmed - earlier)
  }

  predicate JoinsOk(s: Chat, i: nat)
    requires i < |s.users| == |s.slots|
  {
    Unanswered(s.users[i].down.unawaited, s.users[i].earlier, Confirmed(s), JoinPending(s.server, i), Connected(s.slots[i]))
  }

  predicate ChannelsOk(s: Chat, i: nat)
    requires i < |s.users| == |s.slots|
  {
    UpOk(s.users[i].up, s.server, i, Connected(s.slots[i])) && CreditOk(s.users[i].down, s.server, i)
  }

  ghost predicate UserOk(s: Chat, i: nat)
    requires i < |s.users| == |s.slots|
  {
    ChannelsOk(s, i) && ShownOk(s.users[i].down) && LogOk(s, i) && SaidOk(s, i) && JoinsOk(s, i)
    && BeginsWithList(s, i)
  }

  ghost predicate Inv(s: Chat) {
    && TableOk(s) && FromUsers(s.log, |s.users|) && ListsOk(s)
    && forall i :: 0 <= i < |s.users| ==> UserOk(s, i)
  }

  // ----- What one user's steps do to its channels -----

  lemma ClientUp(up: Up, at: ServerAt, i: nat, connected: bool)
    requires UpOk(up, at, i, connected)
    ensures UpOk(ClientNext(up), at, i, connected)
  {
  }

  lemma EnteredUp(up: Up, at: ServerAt, i: nat, connected: bool, command: Command)
    requires UpOk(up, at, i, connected) && up.client == Typing
    ensures UpOk(Entered(up, command), at, i, connected)
  {
    assert up.sent == up.heard;
  }

  lemma HandlerCredit(d: Down, at: ServerAt, i: nat)
    requires CreditOk(d, at, i)
    ensures CreditOk(HandlerNext(d), at, i)
  {
  }

  lemma EnterEvent(s: Chat, i: nat, command: Command)
    requires TableOk(s) && i < |s.users| && ChannelsOk(s, i) && s.users[i].up.client == Typing
    ensures ChannelsOk(WithUp(s, i, Entered(s.users[i].up, command)), i)
  {
    EnteredUp(s.users[i].up, s.server, i, Connected(s.slots[i]), command);
  }

  lemma OwnEvent(s: Chat, e: Event, i: nat)
    requires TableOk(s) && i < |s.users| && ChannelsOk(s, i)
    requires e == Step(i) || e == Handle(i)
    ensures ChannelsOk(Next(s, e), i)
  {
    if e == Step(i) {
      ClientUp(s.users[i].up, s.server, i, Connected(s.slots[i]));
    } else {
      HandlerCredit(s.users[i].down, s.server, i);
    }
  }

  lemma UserEvent(s: Chat, e: Event, i: nat)
    requires TableOk(s) && i < |s.users| && ChannelsOk(s, i)
    requires e.Type? || e.Leave? || e.Step? || e.Handle?
    ensures var s' := Next(s, e);
            |s'.users| == |s.users| && s'.slots == s.slots && s'.server == s.server && ChannelsOk(s', i)
  {
    if e.i == i {
      match e {
        case Type(_, text) => if s.users[i].up.client == Typing { EnterEvent(s, i, Say(text)); }
        case Leave(_) => if s.users[i].up.client == Typing { EnterEvent(s, i, Quit); }
        case _ => OwnEvent(s, e, i);
      }
    } else {
      assert Next(s, e).users[i] == s.users[i];
    }
  }

  // ----- What the server's steps do to them -----

  /** A user whom the step does not touch. */
  lemma Untouched(u: User, at: ServerAt, at': ServerAt, i: nat, connected: bool)
    requires UpOk(u.up, at, i, connected) && CreditOk(u.down, at, i)
    requires !ServerHas(at, i) && !ServerHas(at', i)
    requires !PostingTo(at, i) && !PostingTo(at', i) && !AwaitingFrom(at, i) && !AwaitingFrom(at', i)
    ensures UpOk(u.up, at', i, connected) && CreditOk(u.down, at', i)
  {
  }

  lemma HearEvent(s: Chat, j: nat, i: nat)
    requires TableOk(s) && i < |s.users| && ChannelsOk(s, i)
    ensures var s' := Next(s, Hear(j));
            |s'.users| == |s.users| && s'.slots == s.slots && ChannelsOk(s', i)
  {
    if s.server == Scanning && i != j { Untouched(s.users[i], Scanning, Taken(j), i, Connected(s.slots[i])); }
  }

  lemma ExpireEvent(s: Chat, i: nat)
    requires TableOk(s) && i < |s.users| && ChannelsOk(s, i)
    ensures var s' := Next(s, Expire);
            |s'.users| == |s.users| && s'.slots == s.slots && ChannelsOk(s', i)
  {
    if s.server.Awaiting? && s.server.k != i {
      Untouched(s.users[i], s.server, Writing(s.server.k + 1, s.server.notice, true), i, Connected(s.slots[i]));
    }
  }

  lemma ObeyedOk(s: Chat, i: nat)
    requires TableOk(s) && i < |s.users| && ChannelsOk(s, i) && s.server == Taken(i)
    ensures |Obeyed(s, i).users| == |s.users| == |Obeyed(s, i).slots| && ChannelsOk(Obeyed(s, i), i)
  {
    var up := s.users[i].up;
    assert up.cts == 0;
    if up.command.Say? {
      assert up.sent == up.heard + [up.command.text];
    }
  }

  lemma PostedCredit(d: Down, k: nat, notice: Notice, awaited: bool)
    requires CreditOk(d, Posting(k, notice, awaited), k)
    ensures CreditOk(Posted(d, notice, awaited), if awaited then Awaiting(k, notice) else Writing(k + 1, notice, false), k)
  {
  }

  lemma WrittenCredit(d: Down, k: nat, notice: Notice, awaited: bool)
    requires CreditOk(d, Writing(k, notice, awaited), k)
    ensures CreditOk(Written(d, notice), Posting(k, notice, awaited), k)
  {
  }

  /** The user whose channel the server is working on; |s.users| if there is none. */
  function Subject(s: Chat): nat {
    match s.server
    case Taken(i) => i
    case Heard(i, _) => i
    case Writing(k, _, _) => k
    case Posting(k, _, _) => k
    case Awaiting(k, _) => k
    case _ => |s.users|
  }

  lemma BroadcastSubject(s: Chat, i: nat)
    requires TableOk(s) && i < |s.users| && ChannelsOk(s, i) && i == Subject(s)
    requires s.server.Writing? || s.server.Posting? || s.server.Awaiting?
    ensures var s' := ServerNext(s);
            |s'.users| == |s.users| && s'.slots == s.slots && ChannelsOk(s', i)
  {
    match s.server {
      case Writing(_, notice, awaited) => WrittenCredit(s.users[i].down, i, notice, awaited);
      case Posting(_, notice, awaited) => PostedCredit(s.users[i].down, i, notice, awaited);
      case _ =>
    }
  }

  lemma ServeSubject(s: Chat, i: nat)
    requires TableOk(s) && i < |s.users| && ChannelsOk(s, i) && i == Subject(s)
    ensures var s' := ServerNext(s);
            |s'.users| == |s.users| && |s'.slots| == |s.slots| && ChannelsOk(s', i)
  {
    match s.server {
      case Taken(_) => ObeyedOk(s, i);
      case Heard(_, _) =>
      case _ => BroadcastSubject(s, i);
    }
  }

  lemma ServeFrame(s: Chat, i: nat)
    requires TableOk(s) && i < |s.users| && i != Subject(s)
    ensures var s' := ServerNext(s);
            && |s'.users| == |s.users| && |s'.slots| == |s.slots|
            && s'.users[i] == s.users[i] && s'.slots[i] == s.slots[i]
            && !ServerHas(s'.server, i) && !PostingTo(s'.server, i) && !AwaitingFrom(s'.server, i)
  {
  }

  lemma ServeEvent(s: Chat, i: nat)
    requires TableOk(s) && i < |s.users| && ChannelsOk(s, i)
    ensures var s' := ServerNext(s);
            |s'.users| == |s.users| && |s'.slots| == |s.slots| && ChannelsOk(s', i)
  {
    if i == Subject(s) {
      ServeSubject(s, i);
    } else {
      ServeFrame(s, i);
      Untouched(s.users[i], s.server, ServerNext(s).server, i, Connected(s.slots[i]));
    }
  }

  lemma JoinEvent(s: Chat, login: string, confirmed: bool, i: nat)
    requires TableOk(s) && s.server == Scanning && i <= |s.users|
    requires i < |s.users| ==> ChannelsOk(s, i)
    ensures var s' := Joined(s, login, confirmed);
            |s'.users| == |s.users| + 1 == |s'.slots| && ChannelsOk(s', i)
  {
    var s' := Joined(s, login, confirmed);
    if i < |s.users| {
      assert s'.users[i] == s.users[i] && s'.slots[i] == s.slots[i];
      Untouched(s.users[i], s.server, s'.server, i, Connected(s.slots[i]));
    }
  }

  lemma EventChannels(s: Chat, e: Event, i: nat)
    requires TableOk(s) && TableOk(Next(s, e)) && i < |Next(s, e).users|
    requires i < |s.users| ==> ChannelsOk(s, i)
    ensures ChannelsOk(Next(s, e), i)
  {
    match e {
      case Join(login, confirmed) => if s.server == Scanning { JoinEvent(s, login, confirmed, i); }
      case Hear(j) => HearEvent(s, j, i);
      case Serve => ServeEvent(s, i);
      case Expire => ExpireEvent(s, i);
      case _ => UserEvent(s, e, i);
    }
  }

  // ----- What is shown -----

  lemma ReadSeen(d: Down)
    requires SeenOk(d)
    ensures SeenOk(HandlerNext(d))
  {
    if d.handler == Reading {
      assert d.written >= |d.posted| >= 1;
      assert NoticeOf(d, d.written - 1) == d.notice;
    }
  }

  lemma ReadFaithful(d: Down)
    requires SeenOk(d) && FaithfulOk(d)
    ensures FaithfulOk(HandlerNext(d))
  {
    if d.handler == Reading && d.overwritten == 0 {
      assert |d.seen| == d.written - 1;
    }
  }

  /** What is shown is the latest write, so what was missing stays missing. */
  lemma ReadLoss(d: Down)
    requires SeenOk(d) && LossOk(d)
    ensures LossOk(HandlerNext(d))
  {
    if d.overwritten > 0 {
      var m :| 0 <= m < d.written - 1 && m !in d.seen;
      assert m !in HandlerNext(d).seen;
    }
  }

  lemma ReadShown(d: Down)
    requires ShownOk(d)
    ensures ShownOk(HandlerNext(d))
  {
    ReadSeen(d);
    ReadFaithful(d);
    ReadLoss(d);
  }

  lemma WrittenSeen(d: Down, notice: Notice)
    requires SeenOk(d) && FaithfulOk(d) && d.written == |d.posted|
    ensures SeenOk(Written(d, notice)) && FaithfulOk(Written(d, notice))
  {
  }

  /** The first write over an unread notice loses that notice. */
  lemma WrittenLoss(d: Down, notice: Notice)
    requires ShownOk(d) && d.written == |d.posted|
    ensures LossOk(Written(d, notice))
  {
    var d' := Written(d, notice);
    if d.overwritten > 0 {
      var m :| 0 <= m < d.written - 1 && m !in d.seen;
      assert 0 <= m < d'.written - 1 && m !in d'.seen;
    } else if Unread(d) > 0 {
      assert 0 <= d.written - 1 < d'.written - 1 && d.written - 1 !in d'.seen;
    }
  }

  lemma PostedSeen(d: Down, notice: Notice, awaited: bool)
    requires SeenOk(d) && FaithfulOk(d) && d.written == |d.posted| + 1 && d.notice == notice
    ensures SeenOk(Posted(d, notice, awaited)) && FaithfulOk(Posted(d, notice, awaited))
  {
    var d' := Posted(d, notice, awaited);
    forall j | 0 <= j < |d.seen|
      ensures d'.shown[j] == NoticeOf(d', d'.seen[j])
    {
      assert d.shown[j] == NoticeOf(d, d.seen[j]);
    }
  }

  /** What a step of anyone can do to the download channel of user i. */
  predicate DownStep(d: Down, d': Down, at: ServerAt, i: nat) {
    || d' == d || d' == HandlerNext(d)
    || d' == d.(expired := d.expired + 1) || (d.srv > 0 && d' == d.(srv := d.srv - 1))
    || (at.Writing? && at.k == i && d' == Written(d, at.notice))
    || (PostingTo(at, i) && d' == Posted(d, at.notice, at.awaited))
  }

  lemma EventDown(s: Chat, e: Event, i: nat)
    requires TableOk(s) && i < |s.users|
    ensures i < |Next(s, e).users|
    ensures DownStep(s.users[i].down, Next(s, e).users[i].down, s.server, i)
  {
  }

  lemma DownStepSeen(d: Down, d': Down, at: ServerAt, i: nat)
    requires CreditOk(d, at, i) && ShownOk(d) && DownStep(d, d', at, i)
    ensures ShownOk(d')
  {
    if at.Writing? && d' == Written(d, at.notice) {
      WrittenSeen(d, at.notice);
      WrittenLoss(d, at.notice);
    } else if PostingTo(at, i) && d' == Posted(d, at.notice, at.awaited) {
      PostedSeen(d, at.notice, at.awaited);
    } else if d' == HandlerNext(d) {
      ReadShown(d);
    } else {
      assert d'.seen == d.seen && d'.shown == d.shown && d'.posted == d.posted;
    }
  }

  lemma EventSeen(s: Chat, e: Event, i: nat)
    requires TableOk(s) && i < |Next(s, e).users|
    requires i < |s.users| ==> ChannelsOk(s, i) && ShownOk(s.users[i].down)
    ensures ShownOk(Next(s, e).users[i].down)
  {
    if i < |s.users| {
      EventDown(s, e, i);
      DownStepSeen(s.users[i].down, Next(s, e).users[i].down, s.server, i);
    } else {
      assert e.Join? && s.server == Scanning;
    }
  }

  // ----- What is posted -----

  /** A broadcast begins. */
  lemma Announced(posted: seq<Notice>, from: nat, log: seq<Notice>, notice: Notice, connected: bool)
    requires Follows(posted, from, log, false, connected)
    ensures Follows(posted, from, log + [notice], true, connected)
  {
  }

  lemma JoinLog(s: Chat, login: string, confirmed: bool, i: nat)
    requires TableOk(s) && s.server == Scanning && i <= |s.users|
    requires i < |s.users| ==> LogOk(s, i)
    ensures |Joined(s, login, confirmed).slots| == |s.users| + 1 && LogOk(Joined(s, login, confirmed), i)
  {
    var s' := Joined(s, login, confirmed);
    if i < |s.users| {
      var u := s.users[i];
      assert s'.users[i] == u && s'.slots[i] == s.slots[i];
      if confirmed { Announced(u.down.posted, u.from, s.log, UserList(s'.usersList), Connected(s.slots[i])); }
    } else {
      assert s'.users[i] == Fresh(confirmed, |s.log|, Confirmed(s));
    }
  }

  lemma ObeyLog(s: Chat, j: nat, i: nat)
    requires TableOk(s) && s.server == Taken(j) && i < |s.users| && LogOk(s, i)
    ensures |Obeyed(s, j).users| == |s.users| == |Obeyed(s, j).slots| && LogOk(Obeyed(s, j), i)
  {
    var s' := Obeyed(s, j);
    var u := s.users[i];
    assert s'.users[i].down == u.down && s'.users[i].from == u.from;
    if s.users[j].up.command.Quit? && s.active > 1 {
      Announced(u.down.posted, u.from, s.log, UserList(s'.usersList), Connected(s.slots[i]));
    }
  }

  lemma PostingLog(s: Chat, i: nat)
    requires TableOk(s) && i < |s.users| && PostingTo(s.server, i) && LogOk(s, i)
    ensures var s' := ServerNext(s);
            |s'.users| == |s.users| == |s'.slots| && LogOk(s', i)
  {
  }

  lemma HeardLog(s: Chat, i: nat)
    requires TableOk(s) && i < |s.users| && s.server.Heard? && LogOk(s, i)
    ensures var s' := ServerNext(s);
            |s'.users| == |s.users| == |s'.slots| && LogOk(s', i)
  {
    var u := s.users[i];
    Announced(u.down.posted, u.from, s.log, s.server.notice, Connected(s.slots[i]));
  }

  /** A step within a broadcast that posts nothing to user i. */
  lemma QuietLog(s: Chat, i: nat)
    requires TableOk(s) && i < |s.users| && LogOk(s, i)
    requires !PostingTo(s.server, i) && !s.server.Taken? && !s.server.Heard?
    ensures var s' := ServerNext(s);
            |s'.users| == |s.users| == |s'.slots| && LogOk(s', i)
  {
    var s' := ServerNext(s);
    assert s'.users[i].down.posted == s.users[i].down.posted && s'.users[i].from == s.users[i].from;
    assert s'.log == s.log && s'.slots == s.slots;
    assert Connected(s.slots[i]) ==> Pending(s'.server, i) == Pending(s.server, i);
  }

  /** A step of another process, or the expiry of the wait. */
  lemma OtherLog(s: Chat, e: Event, i: nat)
    requires TableOk(s) && i < |s.users| && LogOk(s, i) && !e.Join? && !e.Serve?
    ensures var s' := Next(s, e);
            |s'.users| == |s.users| == |s'.slots| && LogOk(s', i)
  {
    var s' := Next(s, e);
    EventDown(s, e, i);
    assert s'.users[i].down.posted == s.users[i].down.posted && s'.users[i].from == s.users[i].from;
    assert s'.log == s.log && s'.slots == s.slots;
    assert Pending(s'.server, i) == Pending(s.server, i);
  }

  lemma EventLog(s: Chat, e: Event, i: nat)
    requires TableOk(s) && TableOk(Next(s, e)) && i < |Next(s, e).users|
    requires i < |s.users| ==> LogOk(s, i)
    ensures LogOk(Next(s, e), i)
  {
    if e.Join? {
      if s.server == Scanning { JoinLog(s, e.login, e.confirmed, i); }
    } else if e != Serve {
      OtherLog(s, e, i);
    } else if s.server.Taken? {
      ObeyLog(s, s.server.i, i);
    } else if s.server.Heard? {
      HeardLog(s, i);
    } else if PostingTo(s.server, i) {
      PostingLog(s, i);
    } else {
      QuietLog(s, i);
    }
  }

  // ----- What is broadcast -----

  /** The lines of the log that come from user i. */
  function Said(log: seq<Notice>, i: nat): seq<string> {
    if log == [] then []
    else
      var last := log[|log| - 1];
      Said(log[..|log| - 1], i) + if last.Line? && last.from == i then [last.text] else []
  }

  lemma SaidAppend(log: seq<Notice>, notice: Notice, i: nat)
    ensures Said(log + [notice], i) == Said(log, i) + if notice.Line? && notice.from == i then [notice.text] else []
  {
    assert (log + [notice])[..|log|] == log;
  }

  predicate FromUsers(log: seq<Notice>, n: nat) { forall k :: 0 <= k < |log| && log[k].Line? ==> log[k].from < n }

  lemma {:induction false} NothingSaid(log: seq<Notice>, n: nat)
    requires FromUsers(log, n)
    ensures Said(log, n) == []
  {
    if log != [] { NothingSaid(log[..|log| - 1], n); }
  }

  /** The lines under their sender's name. */
  function AllTagged(login: string, texts: seq<string>): seq<string> {
    seq(|texts|, k requires 0 <= k < |texts| => Tagged(login, texts[k]))
  }

  /** The line that the server has heard and not yet announced. */
  function InHand(at: ServerAt, i: nat): seq<string> { if at.Heard? && at.i == i then [at.notice.text] else [] }

  /** The lines of user i in the log, and the one in the server's hand, are the lines heard from it. */
  predicate SaidOk(s: Chat, i: nat)
    requires i < |s.users| == |s.slots|
  {
    Said(s.log, i) + InHand(s.server, i) == AllTagged(s.slots[i].login, s.users[i].up.heard)
  }

  lemma JoinSaid(s: Chat, login: string, confirmed: bool, i: nat)
    requires TableOk(s) && s.server == Scanning && i <= |s.users| && FromUsers(s.log, |s.users|)
    requires i < |s.users| ==> SaidOk(s, i)
    ensures |Joined(s, login, confirmed).slots| == |s.users| + 1 && SaidOk(Joined(s, login, confirmed), i)
  {
    var s' := Joined(s, login, confirmed);
    if confirmed { SaidAppend(s.log, UserList(s'.usersList), i); }
    if i < |s.users| {
      assert s'.users[i] == s.users[i] && s'.slots[i] == s.slots[i];
    } else {
      NothingSaid(s.log, i);
      assert s'.users[i].up.heard == [];
    }
    assert Said(s.log, i) + [] == Said(s.log, i);
  }

  lemma ObeySaid(s: Chat, j: nat, i: nat)
    requires TableOk(s) && s.server == Taken(j) && i < |s.users| && SaidOk(s, i)
    ensures |Obeyed(s, j).users| == |s.users| == |Obeyed(s, j).slots| && SaidOk(Obeyed(s, j), i)
  {
    var s' := Obeyed(s, j);
    assert s'.slots[i].login == s.slots[i].login && s'.users[i].up.heard
      == s.users[i].up.heard + if i == j && s.users[j].up.command.Say? then [s.users[j].up.command.text] else [];
    SaidAppend(s.log, UserList(s'.usersList), i);
    assert Said(s.log, i) + [] == Said(s.log, i);
    HeardMore(s.slots[i].login, s.users[i].up.heard, s.users[j].up.command);
  }

  lemma HeardMore(login: string, heard: seq<string>, command: Command)
    ensures command.Say? ==> AllTagged(login, heard + [command.text]) == AllTagged(login, heard) + [Tagged(login, command.text)]
    ensures heard + [] == heard
  {
  }

  lemma AnnouncedSaid(s: Chat, i: nat)
    requires TableOk(s) && s.server.Heard? && i < |s.users| && SaidOk(s, i)
    ensures |ServerNext(s).users| == |s.users| == |ServerNext(s).slots| && SaidOk(ServerNext(s), i)
  {
    SaidAppend(s.log, s.server.notice, i);
    var s' := ServerNext(s);
    assert s'.log == s.log + [s.server.notice] && s'.slots == s.slots && s'.users[i].up.heard == s.users[i].up.heard;
    assert Said(s'.log, i) == Said(s.log, i) + InHand(s.server, i);
    assert Said(s'.log, i) + [] == Said(s'.log, i);
  }

  /** The steps that neither hear nor announce. */
  predicate Silent(s: Chat, e: Event) { !e.Join? && !(e.Serve? && (s.server.Taken? || s.server.Heard?)) }

  lemma SilentHeard(s: Chat, e: Event, i: nat)
    requires TableOk(s) && i < |s.users| && Silent(s, e)
    ensures |Next(s, e).users| == |s.users| && Next(s, e).users[i].up.heard == s.users[i].up.heard
  {
  }

  lemma SilentServer(s: Chat, e: Event, i: nat)
    requires TableOk(s) && Silent(s, e)
    ensures var s' := Next(s, e);
            s'.slots == s.slots && s'.log == s.log && InHand(s'.server, i) == InHand(s.server, i)
  {
  }

  lemma SilentSteps(s: Chat, e: Event, i: nat)
    requires TableOk(s) && i < |s.users| && SaidOk(s, i) && Silent(s, e)
    ensures |Next(s, e).users| == |s.users| == |Next(s, e).slots| && SaidOk(Next(s, e), i)
  {
    SilentHeard(s, e, i);
    SilentServer(s, e, i);
  }

  lemma EventSaid(s: Chat, e: Event, i: nat)
    requires TableOk(s) && TableOk(Next(s, e)) && FromUsers(s.log, |s.users|) && i < |Next(s, e).users|
    requires i < |s.users| ==> SaidOk(s, i)
    ensures SaidOk(Next(s, e), i)
  {
    if e.Join? {
      if s.server == Scanning { JoinSaid(s, e.login, e.confirmed, i); }
    } else if e.Serve? && s.server.Taken? {
      ObeySaid(s, s.server.i, i);
    } else if e.Serve? && s.server.Heard? {
      AnnouncedSaid(s, i);
    } else {
      SilentSteps(s, e, i);
    }
  }

  /** A step adds at most one broadcast: a list, or the line in the server's hand. */
  lemma EventAnnounces(s: Chat, e: Event)
    requires TableOk(s)
    ensures var s' := Next(s, e);
            && |s'.users| >= |s.users|
            && (|| s'.log == s.log
                || (exists text :: s'.log == s.log + [UserList(text)])
                || (s.server.Heard? && s'.log == s.log + [s.server.notice]))
  {
    var s' := Next(s, e);
    if e.Join? && s.server == Scanning && e.confirmed {
      assert s'.log == s.log + [UserList(s'.usersList)];
    } else if e.Serve? && s.server.Taken? && s'.log != s.log {
      assert s'.log == s.log + [UserList(s'.usersList)];
    }
  }

  lemma EventFromUsers(s: Chat, e: Event)
    requires TableOk(s) && FromUsers(s.log, |s.users|)
    ensures FromUsers(Next(s, e).log, |Next(s, e).users|)
  {
    EventAnnounces(s, e);
  }

  // ----- The posts that nobody waits for -----

  lemma JoinJoins(s: Chat, login: string, confirmed: bool, i: nat)
    requires TableOk(s) && s.server == Scanning && i <= |s.users|
    requires i < |s.users| ==> JoinsOk(s, i)
    ensures |Joined(s, login, confirmed).slots| == |s.users| + 1 && JoinsOk(Joined(s, login, confirmed), i)
  {
    var s' := Joined(s, login, confirmed);
    if i < |s.users| {
      assert s'.users[i] == s.users[i] && s'.slots[i] == s.slots[i];
    } else {
      assert s'.users[i] == Fresh(confirmed, |s.log|, Confirmed(s));
    }
  }

  lemma PostingJoins(s: Chat, i: nat)
    requires TableOk(s) && i < |s.users| && PostingTo(s.server, i) && JoinsOk(s, i)
    ensures var s' := ServerNext(s);
            |s'.users| == |s.users| == |s'.slots| && JoinsOk(s', i)
  {
  }

  /** A step that neither logs anybody in nor posts to user i. */
  lemma QuietJoins(s: Chat, e: Event, i: nat)
    requires TableOk(s) && i < |s.users| && JoinsOk(s, i) && !e.Join? && !(e.Serve? && PostingTo(s.server, i))
    ensures var s' := Next(s, e);
            |s'.users| == |s.users| == |s'.slots| && JoinsOk(s', i)
  {
    var s' := Next(s, e);
    QuietUser(s, e, i);
    QuietServer(s, e, i);
    assert |s'.users| == |s.users| == |s'.slots| && Confirmed(s') == Confirmed(s);
  }

  lemma QuietUser(s: Chat, e: Event, i: nat)
    requires TableOk(s) && i < |s.users| && !e.Join? && !(e.Serve? && PostingTo(s.server, i))
    ensures var s' := Next(s, e);
            && |s'.users| == |s.users| == |s'.slots| && s'.timeouts == s.timeouts
            && s'.users[i].down.unawaited == s.users[i].down.unawaited && s'.users[i].earlier == s.users[i].earlier
  {
  }

  lemma QuietServer(s: Chat, e: Event, i: nat)
    requires TableOk(s) && i < |s.users| && !e.Join? && !(e.Serve? && PostingTo(s.server, i))
    ensures |Next(s, e).slots| == |s.slots| && (Connected(Next(s, e).slots[i]) ==>
              Connected(s.slots[i]) && JoinPending(Next(s, e).server, i) == JoinPending(s.server, i))
  {
  }

  lemma EventJoins(s: Chat, e: Event, i: nat)
    requires TableOk(s) && TableOk(Next(s, e)) && i < |Next(s, e).users|
    requires i < |s.users| ==> JoinsOk(s, i)
    ensures JoinsOk(Next(s, e), i)
  {
    if e.Join? {
      if s.server == Scanning { JoinJoins(s, e.login, e.confirmed, i); }
    } else if e.Serve? && PostingTo(s.server, i) {
      PostingJoins(s, i);
    } else {
      QuietJoins(s, e, i);
    }
  }

  // ----- What the lists say -----

  predicate HasList(log: seq<Notice>) { exists k :: 0 <= k < |log| && log[k].UserList? }

  /** The text of the last list of a sequence of notices; empty if there is none. */
  function LatestList(log: seq<Notice>): string {
    if log == [] then ""
    else if log[|log| - 1].UserList? then log[|log| - 1].text
    else LatestList(log[..|log| - 1])
  }

  lemma LatestAppend(log: seq<Notice>, notice: Notice)
    ensures LatestList(log + [notice]) == if notice.UserList? then notice.text else LatestList(log)
  {
    assert (log + [notice])[..|log|] == log;
  }

  /** A part from some list on has the same last list. */
  lemma {:induction false} LatestOfPart(log: seq<Notice>, from: nat)
    requires from < |log| && log[from].UserList?
    ensures LatestList(log[from..]) == LatestList(log)
    decreases |log|
  {
    var n := |log| - 1;
    assert log[from..][|log[from..]| - 1] == log[n];
    if !log[n].UserList? {
      LatestOfPart(log[..n], from);
      assert log[from..][..|log[from..]| - 1] == log[..n][from..];
    }
  }

  predicate Broadcasts(at: ServerAt) { at.Writing? || at.Posting? || at.Awaiting? }

  /** A list on its way and the last list of the log are the list of the table. */
  predicate ListsOk(s: Chat) {
    && (Broadcasts(s.server) && s.server.notice.UserList? ==> s.server.notice.text == ListText(s.slots))
    && (s.server != Stopped ==> LatestList(s.log) == ListText(s.slots))
  }

  /** What a connected user gets begins with a list, that of its own login. */
  predicate BeginsWithList(s: Chat, i: nat)
    requires i < |s.users| == |s.slots|
  {
    Connected(s.slots[i]) ==> s.users[i].from < |s.log| && s.log[s.users[i].from].UserList?
  }

  lemma JoinLists(s: Chat, login: string, confirmed: bool)
    requires TableOk(s) && ListsOk(s) && s.server == Scanning
    ensures ListsOk(Joined(s, login, confirmed))
  {
    var slot := if confirmed then Slot(|s.slots| + 1, login) else Slot(-1, login);
    ListAppend(s.slots, slot);
    LatestAppend(s.log, UserList(Joined(s, login, confirmed).usersList));
    assert ListText(s.slots) + "" == ListText(s.slots);
  }

  lemma ServeLists(s: Chat)
    requires TableOk(s) && ListsOk(s)
    ensures ListsOk(ServerNext(s))
  {
    if s.server.Heard? {
      LatestAppend(s.log, s.server.notice);
    } else if s.server.Taken? {
      ObeyLists(s, s.server.i);
    }
  }

  lemma ObeyLists(s: Chat, i: nat)
    requires TableOk(s) && ListsOk(s) && s.server == Taken(i)
    ensures ListsOk(Obeyed(s, i))
  {
    LatestAppend(s.log, UserList(Obeyed(s, i).usersList));
  }

  lemma EventLists(s: Chat, e: Event)
    requires TableOk(s) && ListsOk(s)
    ensures ListsOk(Next(s, e))
  {
    match e {
      case Join(login, confirmed) => if s.server == Scanning { JoinLists(s, login, confirmed); }
      case Serve => ServeLists(s);
      case _ =>
    }
  }

  lemma EventBegins(s: Chat, e: Event, i: nat)
    requires TableOk(s) && TableOk(Next(s, e)) && i < |Next(s, e).users|
    requires i < |s.users| ==> BeginsWithList(s, i)
    ensures BeginsWithList(Next(s, e), i)
  {
    EventAnnounces(s, e);
    if i < |s.users| {
      KeepsFrom(s, e, i);
    } else {
      assert e.Join? && s.server == Scanning;
    }
  }

  lemma KeepsFrom(s: Chat, e: Event, i: nat)
    requires TableOk(s) && i < |s.users|
    ensures var s' := Next(s, e);
            && i < |s'.users| && i < |s'.slots| && s'.users[i].from == s.users[i].from
            && (Connected(s'.slots[i]) ==> Connected(s.slots[i]))
  {
  }

  lemma EventInv(s: Chat, e: Event)
    requires Inv(s)
    ensures Inv(Next(s, e))
  {
    EventTable(s, e);
    EventFromUsers(s, e);
    EventLists(s, e);
    var s' := Next(s, e);
    forall i | 0 <= i < |s'.users|
      ensures UserOk(s', i)
    {
      assert i < |s.users| ==> UserOk(s, i);
      EventChannels(s, e, i);
      EventSeen(s, e, i);
      EventLog(s, e, i);
      EventSaid(s, e, i);
      EventJoins(s, e, i);
      EventBegins(s, e, i);
    }
  }

  lemma {:induction false} RunInv(s: Chat, es: seq<Event>)
    requires Inv(s)
    ensures Inv(Run(s, es))
    decreases |es|
  {
    if es != [] {
      EventInv(s, es[0]);
      RunInv(Next(s, es[0]), es[1..]);
    }
  }

  // ----- What holds over every run -----

  lemma Reachable(es: seq<Event>)
    ensures Inv(Run(INIT, es))
  {
    RunInv(INIT, es);
  }

  lemma ReachableUser(es: seq<Event>, i: nat)
    requires i < |Run(INIT, es).users|
    ensures var s := Run(INIT, es);
            |s.users| == |s.slots| && UserOk(s, i)
  {
    RunInv(INIT, es);
  }

  /** The list kept line by line is the list rebuilt from the table, slot i has the id i+1 until its user
      is gone, and active_users counts the connected users and the logins that timed out. */
  lemma TableIsExact(es: seq<Event>)
    ensures var s := Run(INIT, es);
            && (s.server != Stopped ==> s.usersList == ListText(s.slots))
            && IdsInOrder(s.slots)
            && s.active == Total(s.slots, ConnectedUnit) + s.timeouts
  {
    Reachable(es);
  }

  /** Hence the server stops only when nobody is connected, and never once a login has timed out. */
  lemma StopsWhenEmpty(es: seq<Event>)
    requires Run(INIT, es).server == Stopped
    ensures var s := Run(INIT, es);
            s.timeouts == 0 && forall i :: 0 <= i < |s.slots| ==> !Connected(s.slots[i])
  {
    Reachable(es);
    var s := Run(INIT, es);
    TotalNonNegative(s.slots, ConnectedUnit);
    forall i | 0 <= i < |s.slots|
      ensures !Connected(s.slots[i])
    {
      TotalAtLeast(s.slots, i, ConnectedUnit);
    }
  }

  /** Whenever the server broadcasts a list, it is the list rebuilt from the table, and so is the last list of
      the log while the server runs. */
  lemma ListsAreCurrent(es: seq<Event>)
    ensures var s := Run(INIT, es);
            && (Broadcasts(s.server) && s.server.notice.UserList? ==> s.server.notice.text == ListText(s.slots))
            && (s.server != Stopped ==> LatestList(s.log) == ListText(s.slots))
  {
    Reachable(es);
  }

  /** The last list posted to a connected user, with no broadcast still to reach it, names exactly the connected
      users; and if that list is the user's latest notice and it has read everything, it is what it sees. */
  lemma UsersSeeWhoIsThere(es: seq<Event>, i: nat)
    requires var s := Run(INIT, es);
             i < |s.users| && i < |s.slots| && Connected(s.slots[i]) && !Pending(s.server, i)
    ensures var s := Run(INIT, es);
            var d := s.users[i].down;
            && HasList(d.posted) && LatestList(d.posted) == ListText(s.slots)
            && (Unread(d) == 0 && d.posted[|d.posted| - 1].UserList? ==>
                  d.shown != [] && d.shown[|d.shown| - 1] == UserList(ListText(s.slots)))
  {
    Reachable(es);
    ReachableUser(es, i);
    var s := Run(INIT, es);
    NotStopped(s, i);
    var u := s.users[i];
    LatestOfPart(s.log, u.from);
    assert u.down.posted == s.log[u.from..];
    assert u.down.posted[0].UserList?;
    if Unread(u.down) == 0 && u.down.posted[|u.down.posted| - 1].UserList? {
      LatestShown(u.down, s.server, i);
      LatestIsLast(u.down.posted);
    }
  }

  lemma LatestIsLast(log: seq<Notice>)
    requires log != [] && log[|log| - 1].UserList?
    ensures log[|log| - 1] == UserList(LatestList(log))
  {
  }

  lemma NotStopped(s: Chat, i: nat)
    requires TableOk(s) && i < |s.slots| && Connected(s.slots[i])
    ensures s.server != Stopped
  {
    TotalAtLeast(s.slots, i, ConnectedUnit);
  }

  /** A quit stops the server exactly if nobody else is connected and no login has ever timed out. */
  lemma QuitStopsExactly(es: seq<Event>, i: nat)
    requires Run(INIT, es).server == Taken(i) && i < |Run(INIT, es).users| && Run(INIT, es).users[i].up.command == Quit
    ensures var s := Run(INIT, es);
            Next(s, Serve).server == Stopped
            <==> s.timeouts == 0 && forall j :: 0 <= j < |s.slots| && j != i ==> !Connected(s.slots[j])
  {
    Reachable(es);
    OthersConnected(Run(INIT, es).slots, i);
  }

  /** The upload channel is a one-slot rendezvous: one token for every connected user, the server and the
      client never have the buffer together, and every line sent is heard once, in order, unchanged. */
  lemma UploadIsLossless(es: seq<Event>, i: nat)
    requires i < |Run(INIT, es).users|
    ensures var s := Run(INIT, es);
            var up := s.users[i].up;
            && |s.slots| == |s.users|
            && up.cts + up.usr + (if up.client == Typing || up.client == Ready then 1 else 0)
               + (if ServerHas(s.server, i) then 1 else 0) == (if Connected(s.slots[i]) then 1 else 0)
            && (up.sent == up.heard || (up.command.Say? && up.sent == up.heard + [up.command.text]))
            && (up.client == Typing ==> up.sent == up.heard)
  {
    ReachableUser(es, i);
  }

  /** Every line heard is broadcast exactly once, under its sender's name and in the order it was sent:
      whenever a client is back at its keyboard, the log holds all the lines it ever sent. */
  lemma EveryLineIsBroadcastOnce(es: seq<Event>, i: nat)
    requires i < |Run(INIT, es).users|
    ensures var s := Run(INIT, es);
            var up := s.users[i].up;
            && |s.slots| == |s.users|
            && Said(s.log, i) + InHand(s.server, i) == AllTagged(s.slots[i].login, up.heard)
            && (up.client == Typing ==> Said(s.log, i) == AllTagged(s.slots[i].login, up.sent))
  {
    ReachableUser(es, i);
    var s := Run(INIT, es);
    assert Said(s.log, i) + [] == Said(s.log, i);
  }

  /** The semaphore credit: what stc, srv and the handler hold are the posts nobody waited for, the waits
      that expired and the one the server is waiting for; and the posts nobody waited for are those of the
      confirmed logins since the user's own. So these logins and the expired waits bound what is unread. */
  lemma CreditAccounted(es: seq<Event>, i: nat)
    requires i < |Run(INIT, es).users|
    ensures var s := Run(INIT, es);
            var d, logins := s.users[i].down, |s.slots| - s.timeouts - s.users[i].earlier;
            && |s.slots| == |s.users|
            && d.stc + (if d.handler == Idle then 0 else 1) + d.srv
               == d.unawaited + d.expired + (if AwaitingFrom(s.server, i) then 1 else 0)
            && d.unawaited <= logins
            && (Connected(s.slots[i]) ==> d.unawaited + (if JoinPending(s.server, i) then 1 else 0) == logins)
            && |d.posted| - |d.shown| == Unread(d) <= logins + d.expired + 1
  {
    ReachableUser(es, i);
  }

  /** No broadcast passes a connected user by: its posts are the broadcasts since its login, in the order
      of the one log, all but the one under way. */
  lemma EveryBroadcastIsPosted(es: seq<Event>, i: nat)
    requires i < |Run(INIT, es).users|
    ensures var s := Run(INIT, es);
            var u := s.users[i];
            && |s.slots| == |s.users|
            && Follows(u.down.posted, u.from, s.log, Pending(s.server, i), Connected(s.slots[i]))
  {
    ReachableUser(es, i);
  }

  /** What a user is shown never goes back: notice j is a post, or the write about to be posted, numbered j
      or later, and the numbers never fall; without a write over an unread notice it is post j itself. */
  lemma ShownInOrder(es: seq<Event>, i: nat, j: nat)
    requires i < |Run(INIT, es).users| && j < |Run(INIT, es).users[i].down.shown|
    ensures var d := Run(INIT, es).users[i].down;
            && |d.seen| == |d.shown| && j <= d.seen[j] < d.written <= |d.posted| + 1
            && d.shown[j] == NoticeOf(d, d.seen[j])
            && (j > 0 ==> d.seen[j - 1] <= d.seen[j])
            && (d.overwritten == 0 ==> |d.shown| <= |d.posted| && d.shown[j] == d.posted[j])
  {
    ReachableUser(es, i);
    var d := Run(INIT, es).users[i].down;
    assert j <= d.seen[j];
  }

  /** A user who has read everything has the latest notice on the screen, whatever was overwritten. */
  lemma CaughtUpShowsLatest(es: seq<Event>, i: nat)
    requires i < |Run(INIT, es).users|
    requires var d := Run(INIT, es).users[i].down;
             d.posted != [] && Unread(d) == 0 && !PostingTo(Run(INIT, es).server, i)
    ensures var d := Run(INIT, es).users[i].down;
            d.shown != [] && d.shown[|d.shown| - 1] == d.posted[|d.posted| - 1]
  {
    ReachableUser(es, i);
    var s := Run(INIT, es);
    LatestShown(s.users[i].down, s.server, i);
  }

  /** A user who has read everything has been shown every post, if and only if the server never wrote over a
      notice it had not read. */
  lemma EveryPostShownExactly(es: seq<Event>, i: nat)
    requires i < |Run(INIT, es).users|
    requires Unread(Run(INIT, es).users[i].down) == 0 && !PostingTo(Run(INIT, es).server, i)
    ensures var d := Run(INIT, es).users[i].down;
            && ((forall m :: 0 <= m < |d.posted| ==> m in d.seen) <==> d.overwritten == 0)
            && (d.overwritten == 0 ==> d.shown == d.posted)
  {
    ReachableUser(es, i);
    AllShown(Run(INIT, es).users[i].down, Run(INIT, es).server, i);
  }

  lemma AllShown(d: Down, at: ServerAt, i: nat)
    requires CreditOk(d, at, i) && ShownOk(d) && Unread(d) == 0 && !PostingTo(at, i)
    ensures (forall m :: 0 <= m < |d.posted| ==> m in d.seen) <==> d.overwritten == 0
    ensures d.overwritten == 0 ==> d.shown == d.posted
  {
    if d.overwritten == 0 {
      forall m | 0 <= m < |d.posted|
        ensures m in d.seen && d.shown[m] == d.posted[m]
      {
        assert d.seen[m] == m;
      }
    }
  }

  lemma LatestShown(d: Down, at: ServerAt, i: nat)
    requires CreditOk(d, at, i) && SeenOk(d) && d.posted != [] && Unread(d) == 0 && !PostingTo(at, i)
    ensures d.shown != [] && d.shown[|d.shown| - 1] == d.posted[|d.posted| - 1]
  {
    var j := |d.shown| - 1;
    assert j <= d.seen[j] < d.written;
  }

  // ----- The server comes back -----

  predicate ServerOnly(es: seq<Event>) { forall e :: e in es ==> e == Serve || e == Expire }

  lemma ServeThen(s: Chat, e: Event, more: seq<Event>) returns (es: seq<Event>)
    requires (e == Serve || e == Expire) && ServerOnly(more)
    ensures ServerOnly(es) && Run(s, es) == Run(Next(s, e), more)
  {
    es := [e] + more;
    assert es[1..] == more;
  }

  function StageOf(at: ServerAt): nat { if at.Writing? then 2 else if at.Posting? then 1 else 0 }

  function UserOf(at: ServerAt): nat { if Broadcasts(at) then at.k else 0 }

  /** The server's step in a broadcast, giving up where it must: nearer to the end. */
  lemma BroadcastGoesOn(s: Chat) returns (e: Event)
    requires TableOk(s) && Broadcasts(s.server) && s.server.k < |s.users|
    ensures e == Serve || e == Expire
    ensures var s' := Next(s, e);
            && TableOk(s') && Broadcasts(s'.server) && |s'.users| == |s.users| && s'.log == s.log && s'.slots == s.slots
            && (s'.server.k == s.server.k + 1 || (s'.server.k == s.server.k && StageOf(s'.server) < StageOf(s.server)))
  {
    e := if s.server.Awaiting? && s.users[s.server.k].down.srv == 0 then Expire else Serve;
    EventTable(s, e);
  }

  lemma {:induction false} BroadcastEnds(s: Chat) returns (es: seq<Event>)
    requires TableOk(s) && Broadcasts(s.server)
    ensures ServerOnly(es)
    ensures var s' := Run(s, es);
            s'.server == Scanning && s'.log == s.log && s'.slots == s.slots && |s'.users| == |s.users|
    decreases if UserOf(s.server) < |s.users| then |s.users| - UserOf(s.server) else 0, StageOf(s.server)
  {
    if s.server.k >= |s.users| {
      es := ServeThen(s, Serve, []);
    } else {
      var e := BroadcastGoesOn(s);
      var more := BroadcastEnds(Next(s, e));
      es := ServeThen(s, e, more);
    }
  }

  /** From every reachable state the server's own steps, with waits that expire where nobody answers, bring it
      back to its scan or, after the last disconnection, to its end; and what it had in hand is announced. */
  lemma ServerComesBack(es: seq<Event>) returns (more: seq<Event>)
    ensures ServerOnly(more)
    ensures var s := Run(INIT, es);
            var s' := Run(s, more);
            && (s'.server == Scanning || s'.server == Stopped)
            && (s.server.Heard? ==> s'.server == Scanning && s'.log == s.log + [s.server.notice])
            && (Broadcasts(s.server) ==> s'.server == Scanning && s'.log == s.log)
  {
    Reachable(es);
    var s := Run(INIT, es);
    if Broadcasts(s.server) {
      more := BroadcastEnds(s);
    } else if s.server.Heard? {
      more := AnnounceEnds(s);
    } else if s.server.Taken? {
      var s1 := ServerNext(s);
      ServeTable(s);
      more := [];
      if s1.server.Heard? {
        more := AnnounceEnds(s1);
      } else if s1.server != Stopped {
        more := BroadcastEnds(s1);
      }
      more := ServeThen(s, Serve, more);
    } else {
      more := [];
    }
  }

  lemma AnnounceEnds(s: Chat) returns (es: seq<Event>)
    requires TableOk(s) && s.server.Heard?
    ensures ServerOnly(es)
    ensures Run(s, es).server == Scanning && Run(s, es).log == s.log + [s.server.notice]
  {
    ServeTable(s);
    es := BroadcastEnds(ServerNext(s));
    es := ServeThen(s, Serve, es);
  }

  // ----- A line that is never shown -----

  lemma {:induction false} RunThen(s: Chat, es: seq<Event>, e: Event)
    ensures Run(s, es + [e]) == Next(Run(s, es), e)
    decreases |es|
  {
    if es == [] {
      assert [e][1..] == [];
    } else {
      assert (es + [e])[1..] == es[1..] + [e];
      RunThen(Next(s, es[0]), es[1..], e);
    }
  }

  lemma Then(es: seq<Event>, e: Event) returns (es': seq<Event>)
    ensures Run(INIT, es') == Next(Run(INIT, es), e) && es' == es + [e]
  {
    es' := es + [e];
    RunThen(INIT, es, e);
  }

  /** The chat with one user. */
  function Solo(login: string, up: Up, down: Down, server: ServerAt, log: seq<Notice>): Chat {
    Chat([Slot(1, login)], [User(up, down, 0, 0)], Entry(login), 1, server, 0, log)
  }

  lemma SoloReads(login: string, up: Up, down: Down, at: ServerAt, log: seq<Notice>, es0: seq<Event>) returns (es: seq<Event>)
    requires Run(INIT, es0) == Solo(login, up, down, at, log) && Expire !in es0
    requires down.stc > 0 && down.handler == Idle && up.client != Gone
    ensures Run(INIT, es) == Solo(login, up,
      down.(stc := down.stc - 1, srv := down.srv + 1, shown := down.shown + [down.notice], seen := down.seen + [down.written - 1]),
      at, log)
    ensures Expire !in es
  {
    es := Then(es0, Handle(0));
    es := Then(es, Handle(0));
    es := Then(es, Handle(0));
  }

  lemma SoloEnters(login: string)
    ensures var list := UserList(Entry(login));
            Next(INIT, Join(login, true)) == Solo(login, Up(0, 0, Quit, Typing, [], []), Fresh(true, 0, 0).down,
              Writing(0, list, false), [list])
  {
    assert "" + Entry(login) == Entry(login);
    assert [] + [UserList(Entry(login))] == [UserList(Entry(login))];
  }

  lemma SoloPosted(login: string) returns (es: seq<Event>)
    ensures var list := UserList(Entry(login));
            Run(INIT, es) == Solo(login, Up(0, 0, Quit, Typing, [], []),
              Down(1, 0, list, Idle, [list], [], [], 1, 1, 0, 0), Scanning, [list])
    ensures Expire !in es
  {
    var list := UserList(Entry(login));
    var up := Up(0, 0, Quit, Typing, [], []);
    es := Then([], Join(login, true));
    SoloEnters(login);
    var down0 := Fresh(true, 0, 0).down;
    assert Run(INIT, es) == Solo(login, up, down0, Writing(0, list, false), [list]);
    es := Then(es, Serve);
    assert Run(INIT, es) == Solo(login, up, Written(down0, list), Posting(0, list, false), [list]);
    es := Then(es, Serve);
    var down := Down(1, 0, list, Idle, [list], [], [], 1, 1, 0, 0);
    assert Posted(Written(down0, list), list, false) == down;
    assert Run(INIT, es) == Solo(login, up, down, Writing(1, list, false), [list]);
    es := Then(es, Serve);
  }

  /** The only user logs in and is shown the list; the acknowledgement stays in srv. */
  lemma SoloJoins(login: string) returns (es: seq<Event>)
    ensures var list := UserList(Entry(login));
            Run(INIT, es) == Solo(login, Up(0, 0, Quit, Typing, [], []),
              Down(0, 1, list, Idle, [list], [list], [0], 1, 1, 0, 0), Scanning, [list])
    ensures Expire !in es
  {
    var list := UserList(Entry(login));
    es := SoloPosted(login);
    assert [] + [list] == [list] && [] + [0] == [0];
    es := SoloReads(login, Up(0, 0, Quit, Typing, [], []), Down(1, 0, list, Idle, [list], [], [], 1, 1, 0, 0),
      Scanning, [list], es);
  }

  /** The only user says a line and the server hears it. */
  lemma SoloHeard(login: string, up: Up, down: Down, log: seq<Notice>, text: string, es0: seq<Event>) returns (es: seq<Event>)
    requires Run(INIT, es0) == Solo(login, up, down, Scanning, log) && Expire !in es0
    requires text != "" && up.client == Typing && up.cts == 0 && up.usr == 0
    ensures Run(INIT, es) == Solo(login, Up(0, 0, Say(text), Waiting, up.sent + [text], up.heard + [text]), down,
              Heard(0, Line(0, Tagged(login, text))), log)
    ensures Expire !in es
  {
    es := Then(es0, Type(0, text));
    assert Run(INIT, es) == Solo(login, Entered(up, Say(text)), down, Scanning, log);
    es := Then(es, Step(0));
    var posted := Up(1, 0, Say(text), Waiting, up.sent + [text], up.heard);
    assert Run(INIT, es) == Solo(login, posted, down, Scanning, log);
    es := Then(es, Hear(0));
    assert Run(INIT, es) == Solo(login, posted.(cts := 0), down, Taken(0), log);
    es := Then(es, Serve);
  }

  /** The server gives the buffer back and posts the line. */
  lemma SoloBroadcast(login: string, up: Up, down: Down, log: seq<Notice>, line: Notice, es0: seq<Event>) returns (es: seq<Event>)
    requires Run(INIT, es0) == Solo(login, up, down, Heard(0, line), log) && Expire !in es0
    ensures Run(INIT, es) == Solo(login, up.(usr := up.usr + 1), Posted(Written(down, line), line, true), Awaiting(0, line), log + [line])
    ensures Expire !in es
  {
    var free := up.(usr := up.usr + 1);
    es := Then(es0, Serve);
    assert Run(INIT, es) == Solo(login, free, down, Writing(0, line, true), log + [line]);
    es := Then(es, Serve);
    assert Run(INIT, es) == Solo(login, free, Written(down, line), Posting(0, line, true), log + [line]);
    es := Then(es, Serve);
  }

  /** The only user says a line and the server posts it. */
  lemma SoloSays(login: string, up: Up, down: Down, log: seq<Notice>, text: string, es0: seq<Event>) returns (es: seq<Event>)
    requires Run(INIT, es0) == Solo(login, up, down, Scanning, log) && Expire !in es0
    requires text != "" && up.client == Typing && up.cts == 0 && up.usr == 0
    ensures var line := Line(0, Tagged(login, text));
            Run(INIT, es) == Solo(login, Up(0, 1, Say(text), Waiting, up.sent + [text], up.heard + [text]),
              Posted(Written(down, line), line, true), Awaiting(0, line), log + [line])
    ensures Expire !in es
  {
    es := SoloHeard(login, up, down, log, text, es0);
    es := SoloBroadcast(login, Up(0, 0, Say(text), Waiting, up.sent + [text], up.heard + [text]), down, log,
      Line(0, Tagged(login, text)), es);
  }

  /** The acknowledgement of the list, for which nobody waited, ends the wait for the first line. */
  lemma SoloAcknowledged(login: string, up: Up, down: Down, line: Notice, log: seq<Notice>, es0: seq<Event>)
      returns (es: seq<Event>)
    requires Run(INIT, es0) == Solo(login, up, down, Awaiting(0, line), log) && Expire !in es0
    requires up.client == Waiting && up.usr == 1 && down.srv == 1
    ensures Run(INIT, es) == Solo(login, up.(usr := 0, client := Typing), down.(srv := 0), Scanning, log)
    ensures Expire !in es
  {
    es := Then(es0, Serve);
    es := Then(es, Serve);
    assert Run(INIT, es) == Solo(login, up, down.(srv := 0), Scanning, log);
    es := Then(es, Step(0));
  }

  lemma TwoLines(login: string, a: string, b: string, list: Notice, lineA: Notice, lineB: Notice, es0: seq<Event>)
      returns (es: seq<Event>)
    requires a != "" && b != "" && Expire !in es0 && lineA == Line(0, Tagged(login, a)) && lineB == Line(0, Tagged(login, b))
    requires Run(INIT, es0) == Solo(login, Up(0, 0, Quit, Typing, [], []),
      Down(0, 1, list, Idle, [list], [list], [0], 1, 1, 0, 0), Scanning, [list])
    ensures Expire !in es
    ensures Run(INIT, es) == Solo(login, Up(0, 1, Say(b), Waiting, [a, b], [a, b]),
      Down(2, 0, lineB, Idle, [list, lineA, lineB], [list], [0], 3, 1, 0, 1), Awaiting(0, lineB), [list, lineA, lineB])
  {
    var up, down := Up(0, 0, Quit, Typing, [], []), Down(0, 1, list, Idle, [list], [list], [0], 1, 1, 0, 0);
    es := SoloSays(login, up, down, [list], a, es0);
    var up1, down1 := Up(0, 1, Say(a), Waiting, [a], [a]), Down(1, 1, lineA, Idle, [list, lineA], [list], [0], 2, 1, 0, 0);
    assert [] + [a] == [a] && [list] + [lineA] == [list, lineA];
    assert Posted(Written(down, lineA), lineA, true) == down1;
    es := SoloAcknowledged(login, up1, down1, lineA, [list, lineA], es);
    es := SoloSays(login, up1.(usr := 0, client := Typing), down1.(srv := 0), [list, lineA], b, es);
    assert [a] + [b] == [a, b] && [list, lineA] + [lineB] == [list, lineA, lineB];
  }

  /** So a line can be lost although no wait expires: the user is shown the list and twice the second
      line, never the first. */
  lemma LineNeverShown(login: string, a: string, b: string) returns (es: seq<Event>)
    requires a != "" && b != "" && a != b
    ensures Expire !in es && |Run(INIT, es).users| == 1
    ensures var d := Run(INIT, es).users[0].down;
            var list, lineA, lineB := UserList(Entry(login)), Line(0, Tagged(login, a)), Line(0, Tagged(login, b));
            d.posted == [list, lineA, lineB] && d.shown == [list, lineB, lineB] && lineA != lineB && Unread(d) == 0
  {
    var list, lineA, lineB := UserList(Entry(login)), Line(0, Tagged(login, a)), Line(0, Tagged(login, b));
    es := SoloJoins(login);
    es := TwoLines(login, a, b, list, lineA, lineB, es);
    var up2, down2 := Up(0, 1, Say(b), Waiting, [a, b], [a, b]), Down(2, 0, lineB, Idle, [list, lineA, lineB], [list], [0], 3, 1, 0, 1);
    var at, log := Awaiting(0, lineB), [list, lineA, lineB];
    es := SoloReads(login, up2, down2, at, log, es);
    assert [list] + [lineB] == [list, lineB] && [0] + [2] == [0, 2];
    es := SoloReads(login, up2, down2.(stc := 1, srv := 1, shown := [list, lineB], seen := [0, 2]), at, log, es);
    assert lineA.text[|login| + 2..] == a && lineB.text[|login| + 2..] == b;
  }

  // ----- A server that nobody uses and that runs on -----

  /** The first login timed out; the second user is at its keyboard. */
  lemma TimeoutThenUser(a: string, b: string) returns (es: seq<Event>)
    ensures var s := Run(INIT, es);
            && s.server == Scanning && s.timeouts == 1 && s.active == 2 && |s.users| == 2 && |s.slots| == 2
            && !Connected(s.slots[0]) && Connected(s.slots[1]) && s.users[1].up == Up(0, 0, Quit, Typing, [], [])
  {
    es := Then([], Join(a, false));
    var s := Run(INIT, es);
    assert Run(INIT, []) == INIT && s == Joined(INIT, a, false);
    es := Then(es, Join(b, true));
    var notice := UserList(Entry(b));
    assert "" + Entry(b) == Entry(b);
    assert Run(INIT, es).server == Writing(0, notice, false);
    es := Then(es, Serve);
    assert Run(INIT, es).server == Writing(1, notice, false);
    es := Then(es, Serve);
    assert Run(INIT, es).server == Posting(1, notice, false);
    es := Then(es, Serve);
    assert Run(INIT, es).server == Writing(2, notice, false);
    es := Then(es, Serve);
  }

  /** The second user quits and the server takes the command. */
  lemma TimeoutThenQuit(a: string, b: string) returns (es: seq<Event>)
    ensures var s := Run(INIT, es);
            && s.server == Taken(1) && s.timeouts == 1 && s.active == 2 && |s.users| == 2 && |s.slots| == 2
            && !Connected(s.slots[0]) && Connected(s.slots[1]) && s.users[1].up.client == Gone && s.users[1].up.command == Quit
  {
    es := TimeoutThenUser(a, b);
    es := Then(es, Leave(1));
    es := Then(es, Step(1));
    assert Run(INIT, es).users[1].up.cts == 1 && Run(INIT, es).users[1].up.client == Quitting;
    es := Then(es, Step(1));
    es := Then(es, Hear(1));
  }

  /** After one login timeout everybody can be gone, by quitting, and the server still runs. */
  lemma RunsOnAfterTimeout(a: string, b: string) returns (es: seq<Event>)
    ensures var s := Run(INIT, es);
            && s.timeouts == 1 && |s.users| == 2 && |s.slots| == 2 && s.users[1].up.client == Gone
            && !Connected(s.slots[0]) && !Connected(s.slots[1]) && s.active == 1 && s.server == Scanning
  {
    es := TimeoutThenQuit(a, b);
    es := Then(es, Serve);
    assert Run(INIT, es).server.Writing? && Run(INIT, es).server.k == 0;
    es := Then(es, Serve);
    assert Run(INIT, es).server.Writing? && Run(INIT, es).server.k == 1;
    es := Then(es, Serve);
    assert Run(INIT, es).server.Writing? && Run(INIT, es).server.k == 2;
    es := Then(es, Serve);
  }

  // ----- The processes -----

  /** The server's variables and the shared buffers and semaphores of every user. */
  class Processes {
    var slots: seq<Slot>
    var users: seq<User>
    var usersList: string
    var active: int
    var server: ServerAt
    var timeouts: nat    // the history
    var log: seq<Notice>   // the history

    ghost function State(): Chat
      reads this
    {
      Chat(slots, users, usersList, active, server, timeouts, log)
    }

    constructor ()
      ensures State() == INIT && Inv(State())
    {
      slots, users, usersList, active, server, timeouts, log := [], [], "", 0, Scanning, 0, [];
    }

    method EndLogin(login: string, confirmed: bool)
      requires server == Scanning
      modifies this
      ensures State() == Next(old(State()), Join(login, confirmed))
    {
      users := users + [Fresh(confirmed, |log|, |slots| - timeouts)];
      active := active + 1;
      if confirmed {
        slots := slots + [Slot(|slots| + 1, login)];
        usersList := usersList + Entry(login);
        Announce(UserList(usersList), false);
      } else {
        slots := slots + [Slot(-1, login)];
        timeouts := timeouts + 1;
      }
    }

    method Announce(notice: Notice, awaited: bool)
      modifies this
      ensures State() == Broadcasting(old(State()), notice, awaited)
    {
      server := Writing(0, notice, awaited);
      log := log + [notice];
    }

    /** sem_trywait on the user's cts. */
    method TryHear(i: nat)
      requires i < |users| == |slots| && server == Scanning && Connected(slots[i])
      modifies this
      ensures State() == Next(old(State()), Hear(i))
    {
      var up := users[i].up;
      if up.cts > 0 {
        users := users[i := users[i].(up := up.(cts := up.cts - 1))];
        server := Taken(i);
      }
    }

    method Obey(i: nat)
      requires i < |users| == |slots| && server == Taken(i)
      modifies this
      ensures State() == Next(old(State()), Serve)
    {
      var up := users[i].up;
      match up.command {
        case Say(text) =>
          users := users[i := users[i].(up := up.(heard := up.heard + [text]))];
          server := Heard(i, Line(i, Tagged(slots[i].login, text)));
        case Quit =>
          slots := slots[i := slots[i].(id := -1)];
          active := active - 1;
          if active <= 0 {
            server := Stopped;
          } else {
            usersList := Rebuild(slots);
            Announce(UserList(usersList), true);
          }
      }
    }

    method GiveBack(i: nat, notice: Notice)
      requires i < |users| == |slots| && server == Heard(i, notice)
      modifies this
      ensures State() == Next(old(State()), Serve)
    {
      var up := users[i].up;
      users := users[i := users[i].(up := up.(usr := up.usr + 1))];
      Announce(notice, true);
    }

    /** One step of the loop that sends a notice to every user: the copy, the post, the timed wait. */
    method BroadcastStep()
      requires |users| == |slots| && (server.Writing? || server.Posting? || server.Awaiting?)
      requires server.Posting? || server.Awaiting? ==> server.k < |users|
      modifies this
      ensures State() == Next(old(State()), Serve)
    {
      match server {
        case Writing(k, notice, awaited) =>
          if k >= |users| {
            server := Scanning;
          } else if slots[k].id == -1 {
            server := Writing(k + 1, notice, awaited);
          } else {
            FillBuffer(k, notice);
            server := Posting(k, notice, awaited);
          }
        case Posting(k, notice, awaited) =>
          PostNotice(k, notice, awaited);
          server := if awaited then Awaiting(k, notice) else Writing(k + 1, notice, false);
        case Awaiting(k, notice) =>
          var d := users[k].down;
          if d.srv > 0 {
            users := users[k := users[k].(down := d.(srv := d.srv - 1))];
            server := Writing(k + 1, notice, true);
          }
      }
    }

    /** The copy: the buffer holds the notice, a notice not yet shown is lost, and the semaphores and the
        other users' channels are as they were. */
    method FillBuffer(k: nat, notice: Notice)
      requires k < |users|
      modifies this`users
      ensures users == old(users)[k := old(users)[k].(down := Written(old(users)[k].down, notice))]
      ensures users[k].down.notice == notice && users[k].down.written == old(users)[k].down.written + 1
      ensures users[k].down.overwritten > old(users)[k].down.overwritten <==> Unread(old(users)[k].down) > 0
      ensures users[k].down.stc == old(users)[k].down.stc && users[k].down.srv == old(users)[k].down.srv
    {
      var d := users[k].down;
      if d.stc > 0 || d.handler == Reading {
        d := d.(overwritten := d.overwritten + 1);
      }
      d := d.(written := d.written + 1);
      d := d.(notice := notice);
      users := users[k := users[k].(down := d)];
    }

    /** The post: one more unit of stc, one more notice posted, and the buffer as it was. */
    method PostNotice(k: nat, notice: Notice, awaited: bool)
      requires k < |users|
      modifies this`users
      ensures users == old(users)[k := old(users)[k].(down := Posted(old(users)[k].down, notice, awaited))]
      ensures users[k].down.stc == old(users)[k].down.stc + 1 && Unread(users[k].down) == Unread(old(users)[k].down) + 1
      ensures users[k].down.notice == old(users)[k].down.notice && users[k].down.shown == old(users)[k].down.shown
    {
      var d := users[k].down;
      d := d.(stc := d.stc + 1);
      d := d.(posted := d.posted + [notice]);
      if !awaited {
        d := d.(unawaited := d.unawaited + 1);
      }
      users := users[k := users[k].(down := d)];
    }

    /** sem_timedwait gives up. */
    method WaitExpires()
      requires server.Awaiting? && server.k < |users| && users[server.k].down.srv == 0
      modifies this
      ensures State() == Next(old(State()), Expire)
    {
      var k := server.k;
      var d := users[k].down;
      users := users[k := users[k].(down := d.(expired := d.expired + 1))];
      server := Writing(k + 1, server.notice, true);
    }

    /** Enter or F3 in the client: the command is in the buffer, the old one having been heard, and the
        server is not told yet. */
    method Enter(i: nat, command: Command)
      requires Inv(State()) && i < |users| && users[i].up.client == Typing && command != Say("")
      modifies this`users
      ensures State() == Next(old(State()), if command.Say? then Type(i, command.text) else Leave(i))
      ensures |users| == |old(users)| && users[i].up.command == command && users[i].up.cts == 0
      ensures users[i].up.sent == users[i].up.heard + if command.Say? then [command.text] else []
    {
      assert UserOk(State(), i);
      var up := users[i].up;
      assert up.sent == up.heard;
      up := up.(command := command);
      if command.Say? {
        up := up.(sent := up.sent + [command.text]);
      }
      up := up.(client := Ready);
      users := users[i := users[i].(up := up)];
    }

    method ClientStep(i: nat)
      requires i < |users|
      modifies this
      ensures State() == Next(old(State()), Step(i))
    {
      var up := users[i].up;
      match up.client {
        case Ready =>
          up := up.(cts := up.cts + 1, client := if up.command == Quit then Quitting else Waiting);
        case Waiting =>
          if up.usr > 0 { up := up.(usr := up.usr - 1, client := Typing); }
        case Quitting => up := up.(client := Gone);
        case _ =>
      }
      users := users[i := users[i].(up := up)];
    }

    method HandlerStep(i: nat)
      requires i < |users| && users[i].up.client != Gone
      modifies this
      ensures State() == Next(old(State()), Handle(i))
    {
      var d := users[i].down;
      match d.handler {
        case Idle =>
          if d.stc > 0 { d := d.(stc := d.stc - 1, handler := Reading); }
        case Reading =>
          d := d.(handler := Answering, shown := d.shown + [d.notice], seen := d.seen + [d.written - 1]);
        case Answering =>
          d := d.(handler := Idle, srv := d.srv + 1);
      }
      users := users[i := users[i].(down := d)];
    }

    method Perform(e: Event)
      requires Inv(State())
      modifies this
      ensures State() == Next(old(State()), e) && Inv(State())
    {
      EventInv(State(), e);
      match e {
        case Join(login, confirmed) => if server == Scanning { EndLogin(login, confirmed); }
        case Hear(i) => if server == Scanning && i < |users| && Connected(slots[i]) { TryHear(i); }
        case Serve => ServerStep();
        case Expire => if server.Awaiting? && users[server.k].down.srv == 0 { WaitExpires(); }
        case Type(i, text) => if i < |users| && users[i].up.client == Typing && text != "" { Enter(i, Say(text)); }
        case Leave(i) => if i < |users| && users[i].up.client == Typing { Enter(i, Quit); }
        case Step(i) => if i < |users| { ClientStep(i); }
        case Handle(i) => if i < |users| && users[i].up.client != Gone { HandlerStep(i); }
      }
    }

    method ServerStep()
      requires TableOk(State())
      modifies this
      ensures State() == Next(old(State()), Serve)
    {
      match server {
        case Scanning =>
        case Stopped =>
        case Taken(i) => Obey(i);
        case Heard(i, notice) => GiveBack(i, notice);
        case _ => BroadcastStep();
      }
    }

    /** Whatever the schedule, every user has been posted the broadcasts since its login in the order of the
        log, and what it has sent is what the server has heard or is about to hear. */
    method Execute(es: seq<Event>)
      requires Inv(State())
      modifies this
      ensures State() == Run(old(State()), es) && Inv(State())
      ensures active == Total(slots, ConnectedUnit) + timeouts && |users| == |slots|
      ensures forall i :: 0 <= i < |users| ==>
        && Follows(users[i].down.posted, users[i].from, log, Pending(server, i), Connected(slots[i]))
        && users[i].up.sent == users[i].up.heard + InFlight(users[i].up, server == Taken(i))
    {
      for k := 0 to |es|
        invariant Run(State(), es[k..]) == Run(old(State()), es) && Inv(State())
      {
        Perform(es[k]);
      }
      forall i | 0 <= i < |users|
        ensures Follows(users[i].down.posted, users[i].from, log, Pending(server, i), Connected(slots[i]))
        ensures users[i].up.sent == users[i].up.heard + InFlight(users[i].up, server == Taken(i))
      {
        assert UserOk(State(), i);
      }
    }
  }
}
