# Verified models of the homework programs

This project models the hard parts of the repository in Dafny and proves what they keep, for every size,
every input and every schedule. Each `#define` (queue capacity, pool step, number of threads, buffer
length, matrix size) is a parameter.

Concurrent programs are state machines: every thread or process is a program counter, a semaphore is a
`nat` whose wait is guarded, a message queue is a bounded sequence, and a schedule is any sequence of
events. A step that would block, or an event that cannot happen, leaves the state alone, so the theorems
range over all event sequences. Beside each state machine stands a class with the program's variables whose
methods change them step by step and are proved equal to the machine's steps. Programs that work on an
array (the spiral, the checksum, the devices) are methods over that array, proved against independent
definitions.

| file | models |
|---|---|
| `TcpPool.dfy` | the worker pool of `multiproto_server.c` (homework 16): main thread, workers, semaphores, connection queue |
| `Producer.dfy`, `ProducerRuns.dfy` | the poll listener and workers of `producer_server.c` (homework 16); how they get stuck |
| `ShmLogin.dfy` | the four-semaphore login rendezvous over shared memory (homework 13) |
| `ShmChat.dfy` | the chat over shared memory after the login (homework 13): upload slots, broadcasts, acknowledgements, user list |
| `MqLogin.dfy` | the shared login queue of the message-queue chat (homework 12) |
| `MqChat.dfy`, `MqChatRuns.dfy` | the message-queue chat after the login (homework 12): priorities as commands, drops, user list; what is not lost and why |
| `PosixQueue.dfy` | a POSIX message queue: highest priority first, first in first out within a priority |
| `Roster.dfy` | the user table and user list that both chat servers keep |
| `Snail.dfy` | the spiral fill of homework 1 |
| `Checksum.dfy` | the IPv4 header checksum of homework 19 against RFC 1071 |
| `Counter.dfy` | the shared counter of homework 7, with and without its mutex |
| `LifeSim.dfy`, `LifeSimRuns.dfy` | the stores, loaders and customers of homework 8; their rounds and how they get home |
| `Device.dfy` | the character device of homework 24 and the proc file of homework 25 |
| `Sums.dfy`, `Subsequences.dfy` | sums and multiset unions over sequences; subsequences |

## What turned out false

Several expectations do not hold of the code. The code was kept, and each has a theorem that says for all
inputs exactly when it does hold.

- The header checksum is the RFC's exactly when no word has its top bit set and the halves of the sum add
  up without a carry (`HeaderChecksumCorrectExactly`); `HighAddressIsWrong` is a header that fails.
- The login of the shared-memory chat: in all runs with k timeouts at most one process is at the buffer
  (`ExclusiveExactly`), no two clients know the same id (`DistinctIdsExactly`) and every client knows its own
  slot (`OwnIdsExactly`), exactly when k is 0, apart from the trivial cases named there. Every timeout adds a
  token (`TokensCountTimeouts`).
- A client of that login that was given up before it opened its segment and semaphores tries to open them for
  ever (`SpinExactly`, `LoneClientSticks`): nobody can move exactly when all clients are logged in or do that,
  and the server is at its scan (`StuckExactly`).
- After a login timeout that server never stops again when everybody has left, because `active_users`
  keeps counting the lost login: a quit stops it exactly if nobody else is connected and no login timed out
  (`QuitStopsExactly`); `RunsOnAfterTimeout` is a run.
- A broadcast of the shared-memory chat can be overwritten before it is shown although no wait ever
  expires, because nobody waits for the acknowledgement of the registration broadcast (`LineNeverShown`).
  A user is shown every post exactly if the server never wrote over a notice it had not read
  (`EveryPostShownExactly`).
- A client of the message-queue chat can be registered and never get its id, exactly if there are more
  clients than the queue has room for messages (`ReplyLostExactly`).
- A registration in the very first pass of the message-queue server reads an uninitialised loop variable;
  the list is right in every state of a run exactly if the first look at the login queue finds no request or
  reads the right name by chance (`ListIsExact`). The order of the lines does not depend on it.
- The producer server can deadlock with every pool and every capacity above 0 once two sockets are registered
  (`DeadlockExactly`), in exactly the states of `StuckExactlyWhenBlocked`. One socket can be with two workers at once
  (`ServedByTwoExactly`); in a run it never is exactly if the listener never sends an entry whose socket is
  still out (`ServedByOneExactly`).
- A device write that reaches the end of the buffer makes the writer's next read leave the buffer
  (`NextReadOverrunsExactly`); a second write to the proc file erases what the first one stored
  (`ProcWriteBehindStartIsLost`), and a shorter write to the device keeps the old tail
  (`DeviceWriteKeepsTail`).

## Model

| member | source | states |
|---|---|---|
| TcpPool.WorkersAccountedFor | homework16_client_service/src/multiproto_server.c:167-200 | In every reachable state free and busy are the workers between post and wait of each semaphore, free + busy + workers in transit = workers created, and served = closed connections minus workers about to post it |
| TcpPool.WaitsNeverBlock | homework16_client_service/src/multiproto_server.c:180-195 | Neither `sem_wait` of a worker ever blocks |
| TcpPool.ConnectionsConserved | homework16_client_service/src/multiproto_server.c:170-200 | Accepted connections = taken in order ++ queued ++ the one in main's hand; every taken one is with exactly one worker or closed, none closed twice, the queue within its capacity |
| TcpPool.NeverOverProvisions | homework16_client_service/src/multiproto_server.c:686-721 | The pool size is a multiple of the step, grows at most once per accepted connection and never beyond the peak number of busy workers plus one step |
| TcpPool.GrowsOnlyWhenAllBusy | homework16_client_service/src/multiproto_server.c:689-690 | When main decides to grow, every created worker is busy |
| TcpPool.MainWaitsOnlyForPosts | homework16_client_service/src/multiproto_server.c:686-721 | While main spins without growing, some worker is about to post a semaphore, so it never waits for a client |
| TcpPool.EveryClientIsHandedOver | homework16_client_service/src/multiproto_server.c:686-743 | From every reachable state with a client in main's hand and room in the queue, steps of main and semaphore calls of workers in transit alone put it into the queue; the pool does not grow on the way if a worker is free, and by exactly one step if all are busy |
| TcpPool.QuiescentMeansServed | homework16_client_service/src/multiproto_server.c:167-200 | When no thread can move, every accepted connection is closed and counted |
| TcpPool.Server.AcceptClient | homework16_client_service/src/multiproto_server.c:669-676 | Accepting is the machine's accept step |
| TcpPool.Server.MainStep | homework16_client_service/src/multiproto_server.c:686-743 | Main's check, growth and dispatch are the machine's main step, which hands every client over (`EveryClientIsHandedOver`) |
| TcpPool.Server.WorkerStep | homework16_client_service/src/multiproto_server.c:167-200 | A worker's semaphore calls, receive and close are the machine's worker step |
| TcpPool.Server.Execute | homework16_client_service/src/multiproto_server.c:167-200 | Any schedule of the threads leaves free + busy + workers in transit = workers, the accepted connections in order, and every taken one held or closed |
| Producer.TableGrowsInOrder | homework16_client_service/src/producer_server.c:210-236 | The poll table holds the accepted sockets in order, each once, the rest is still on its way; the served semaphore counts the entries; every entry goes on asking for POLLIN |
| Producer.DispatchesConserved | homework16_client_service/src/producer_server.c:257-274 | Dispatched = taken in order ++ queued; taken = held by workers + sent back; sent back = drained in order ++ queued; both queues within capacity |
| Producer.EverySocketIsKnown | homework16_client_service/src/producer_server.c:246-253 | Every socket in a queue or with a worker has an entry, so the search for an acknowledged socket always succeeds |
| Producer.FindEntry | homework16_client_service/src/producer_server.c:246-253 | The search finds the first entry of the socket, and one exactly if the socket is in the table |
| Producer.FillRevents | homework16_client_service/src/producer_server.c:200-209 | The loop over the table puts each reported flag into its entry and changes no socket and no events |
| Producer.RearmedChangesNothing | homework16_client_service/src/producer_server.c:237-256 | An acknowledgement leaves the table as it was, since no entry ever stopped asking |
| Producer.RoundSendsTheReadable | homework16_client_service/src/producer_server.c:198-278 | From what poll reports to the next poll the listener sends exactly the sockets of the entries reported readable, in table order, and a newly registered one whose uninitialised revents happened to be set |
| Producer.ReadyExactly | homework16_client_service/src/producer_server.c:257-259 | A socket is among the readable ones exactly if an entry of it is |
| Producer.StuckExactlyWhenBlocked | homework16_client_service/src/producer_server.c:257-274 | A reachable state lets neither listener nor workers move exactly if the listener waits for room in the work queue and every worker for room in the other |
| ProducerRuns.DeadlockIsReachable | homework16_client_service/src/producer_server.c:198-278 | For every capacity, every pool and every two or more sockets there is a run, with poll reporting at once whatever is there, into such a state |
| ProducerRuns.DeadlockExactly | homework16_client_service/src/producer_server.c:198-278 | Such a run exists exactly if the queues have room and there are two sockets, or one and no worker: no capacity and no pool is safe |
| ProducerRuns.OneSocketNeverBlocks | homework16_client_service/src/producer_server.c:198-278 | With one socket in the table a pool with workers never gets there |
| ProducerRuns.ServedByTwo | homework16_client_service/src/producer_server.c:257-274 | For every capacity and every pool of at least two workers a run in which two workers serve one socket |
| ProducerRuns.ServedByTwoExactly | homework16_client_service/src/producer_server.c:257-274 | Such a run exists exactly if the queues have room and there are two workers |
| Producer.ServedByOneExactly | homework16_client_service/src/producer_server.c:257-274 | In every state of a run each socket is queued or held at most once, if and only if the listener never sends an entry whose socket is still out |
| Producer.StepOnceExactly | homework16_client_service/src/producer_server.c:257-274 | The same for one step: the resending send is the only one that breaks it |
| Producer.WorkersShareNothing | homework16_client_service/src/producer_server.c:531-573 | In a run without such a send no two workers have the same socket and none has one that is queued |
| Producer.Processes.PollReturns | homework16_client_service/src/producer_server.c:200-209 | After poll every entry carries exactly what was reported for it, with its socket and events as before |
| Producer.Processes.ListenerStep | homework16_client_service/src/producer_server.c:208-276 | One test of the listener's loop and what follows it is the machine's listener step |
| Producer.Processes.Register | homework16_client_service/src/producer_server.c:210-236 | A new socket is counted and appended to the table |
| Producer.Processes.Rearm | homework16_client_service/src/producer_server.c:237-256 | An acknowledgement is received and its entry asks for POLLIN |
| Producer.Processes.Dispatch | homework16_client_service/src/producer_server.c:257-274 | A readable entry is sent to the workers, waiting for room |
| Producer.Processes.WorkerStep | homework16_client_service/src/producer_server.c:531-573 | A worker's receive, service and acknowledgement are the machine's worker step |
| Producer.Processes.Execute | homework16_client_service/src/producer_server.c:198-278 | Any schedule and any answers of poll leave every accepted socket in the table or on its way, and every dispatch accounted for |
| ShmLogin.TokensCountTimeouts | homework13_shared_memory/src/server.c:203-366 | The tokens in the four semaphores, the clients' and the server's sections are always one plus the login timeouts |
| ShmLogin.BufferExclusive | homework13_shared_memory/src/client.c:338-413 | Without a timeout at most one process is at the login buffer |
| ShmLogin.OwnIdentity | homework13_shared_memory/src/client.c:346-349 | Without a timeout each client reads the id of the slot that holds its own name, and no two clients the same id |
| ShmLogin.NeverStuck | homework13_shared_memory/src/client.c:338-413 | With or without timeouts, while some client is neither logged in nor opening what a timeout has unlinked, some process can move, and not by giving up |
| ShmLogin.StuckExactly | homework13_shared_memory/src/client.c:338-413 | In every run nobody can move if and only if the server is back at its scan without a request and every client is logged in or opens, again and again, what a timeout has unlinked |
| ShmLogin.SpinsForGood | homework13_shared_memory/src/client.c:361-405 | Such a client never gets any further |
| ShmLogin.TimeoutMakesSpin | homework13_shared_memory/src/server.c:320-341 | For every number of clients and of timeouts a run with such a client |
| ShmLogin.SpinExactly | homework13_shared_memory/src/client.c:361-405 | In all runs with k timeouts there is no such client, if and only if k is 0 or no run has k timeouts |
| ShmLogin.LoneClientSticks | homework13_shared_memory/src/client.c:361-405 | A run of a single client that ends with it opening for ever and nobody able to move |
| ShmLogin.GoneForGood | homework13_shared_memory/src/server.c:320-341 | A slot that was given up stays so |
| ShmLogin.TimeoutBreaksIdentity | homework13_shared_memory/src/server.c:320-366 | For any two or more clients a run with one timeout after which client 0 has read the id of the slot that holds client 1's name |
| ShmLogin.TimeoutBreaksExclusion | homework13_shared_memory/src/server.c:320-366 | For any two or more clients and any possible number of timeouts a run with two clients at the buffer |
| ShmLogin.TimeoutsShareAnId | homework13_shared_memory/src/server.c:320-366 | For the same a run in which two clients know one id |
| ShmLogin.TimeoutsBounded | homework13_shared_memory/src/server.c:320-341 | The timeouts are the slots given up, no slot twice, and no more than there are clients |
| ShmLogin.ExclusiveExactly | homework13_shared_memory/src/client.c:338-413 | In all runs with k timeouts at most one process is at the buffer, if and only if k is 0, or there is one client, or no run has k timeouts |
| ShmLogin.DistinctIdsExactly | homework13_shared_memory/src/client.c:346-349 | In all runs with k timeouts no two clients know one id, under the same condition |
| ShmLogin.OwnIdsExactly | homework13_shared_memory/src/client.c:346-349 | In all runs with k timeouts every client knows its own slot and nobody else its id, if and only if k is 0 or no run has k timeouts |
| ShmLogin.Shared.ClientStep | homework13_shared_memory/src/client.c:338-413 | The client's waits, copies, posts and the opening of its segment and semaphores are the machine's client step |
| ShmLogin.Shared.ServerStep | homework13_shared_memory/src/server.c:209-366 | The server's registration and reply are the machine's server step |
| ShmLogin.Shared.TimedWaitExpires | homework13_shared_memory/src/server.c:320-341 | A timeout gives up the newest slot |
| ShmLogin.Shared.Execute | homework13_shared_memory/src/server.c:203-366 | Any schedule leaves one token plus one per timeout, and without a timeout each client its own slot |
| ShmChat.TableIsExact | homework13_shared_memory/src/server.c:241-364 | At every point the user list is the one rebuilt from the table, slot i has id i+1 or -1, and `active_users` is the connected slots plus the login timeouts |
| ShmChat.ListsAreCurrent | homework13_shared_memory/src/server.c:522-536 | Whenever the server broadcasts a list it is the one rebuilt from the table, and so is the last list of the log |
| ShmChat.UsersSeeWhoIsThere | homework13_shared_memory/src/server.c:531-538 | The last list posted to a connected user, with none still to reach it, names exactly the connected users in slot order; if that is its latest notice and it has read everything, it is what it sees |
| ShmChat.ServerComesBack | homework13_shared_memory/src/server.c:369-560 | From every reachable state the server's own steps, giving up on users that do not answer, bring it back to its scan or its end, with what it had in hand announced |
| ShmChat.StopsWhenEmpty | homework13_shared_memory/src/server.c:516-521 | The server stops only when nobody is connected and no login ever timed out |
| ShmChat.QuitStopsExactly | homework13_shared_memory/src/server.c:516-521 | A quit stops the server if and only if nobody else is connected and no login ever timed out |
| ShmChat.RunsOnAfterTimeout | homework13_shared_memory/src/server.c:320-341 | A run with one timeout in which everybody is gone and the server still runs |
| ShmChat.UploadIsLossless | homework13_shared_memory/src/client.c:431-450 | Upload is a one-slot rendezvous: one token per connected user among cts, usr, client and server; the lines sent are the lines heard, in order and unchanged, and at most one in flight |
| ShmChat.EveryLineIsBroadcastOnce | homework13_shared_memory/src/server.c:387-392 | Every line heard from a user is in the broadcast log exactly once, under its name, in order; when the client is back at its keyboard, all it ever sent is there |
| ShmChat.CreditAccounted | homework13_shared_memory/src/server.c:392-419 | stc + busy handler + srv = posts nobody waited for + expired waits + the wait under way; the posts nobody waited for are the confirmed logins since the user's own, so these and the expired waits bound the unread notices |
| ShmChat.EveryBroadcastIsPosted | homework13_shared_memory/src/server.c:356-363 | A connected user is posted every broadcast since its login, in the order of one log, except the one under way |
| ShmChat.ShownInOrder | homework13_shared_memory/src/client.c:104-128 | The notices shown are writes of non-falling number, notice j never earlier than write j; without a write over an unread notice exactly write j |
| ShmChat.CaughtUpShowsLatest | homework13_shared_memory/src/client.c:104-128 | A user with nothing unread shows the latest notice last |
| ShmChat.EveryPostShownExactly | homework13_shared_memory/src/client.c:104-128 | A user with nothing unread has been shown every post if and only if the server never wrote over an unread notice; then what was shown is what was posted |
| ShmChat.LineNeverShown | homework13_shared_memory/src/server.c:356-419 | A run without any expired wait in which one of two lines is never shown |
| ShmChat.Processes.EndLogin | homework13_shared_memory/src/server.c:320-364 | The end of a login, confirmed or not, is the machine's join step |
| ShmChat.Processes.TryHear | homework13_shared_memory/src/server.c:369-383 | The trywait on a user's cts |
| ShmChat.Processes.Obey | homework13_shared_memory/src/server.c:384-530 | The server's reaction to a line or a disconnection, with the list rebuilt |
| ShmChat.Processes.GiveBack | homework13_shared_memory/src/server.c:389-392 | The post of usr gives the buffer back and starts the broadcast |
| ShmChat.Processes.BroadcastStep | homework13_shared_memory/src/server.c:392-419 | The broadcast goes on by one copy, one post or one acknowledged wait, skipping the users that are gone |
| ShmChat.Processes.FillBuffer | homework13_shared_memory/src/server.c:397-398 | The copy puts the notice into the one buffer, loses a notice there exactly if one was unread, and leaves the semaphores and the other users alone |
| ShmChat.Processes.PostNotice | homework13_shared_memory/src/server.c:399 | The post adds one unit and one unread notice and leaves the buffer and what was shown alone |
| ShmChat.Processes.WaitExpires | homework13_shared_memory/src/server.c:407-419 | An expired wait goes on to the next user |
| ShmChat.Processes.Enter | homework13_shared_memory/src/client.c:431-442 | The command is in the buffer, every earlier line has been heard, and the server is not told yet |
| ShmChat.Processes.ClientStep | homework13_shared_memory/src/client.c:444-473 | The client's post, wait and exit |
| ShmChat.Processes.HandlerStep | homework13_shared_memory/src/client.c:104-128 | The handler's trywait, display and post |
| ShmChat.Processes.ServerStep | homework13_shared_memory/src/server.c:384-560 | The server's next step, whatever it is at |
| ShmChat.Processes.Execute | homework13_shared_memory/src/server.c:369-560 | Any schedule leaves every user posted the broadcasts since its login in order, and every line sent heard or in flight |
| MqLogin.RequestsConserved | homework12_message_queue/src/server.c:132-228 | Requests queued, in a client's hand and registered are the requests sent, under every re-queueing |
| MqLogin.IdsConserved | homework12_message_queue/src/server.c:151-228 | Ids held by clients + ids under way + ids dropped by a full queue are exactly 1..n after n registrations; at most one is under way |
| MqLogin.IssuedOnce | homework12_message_queue/src/server.c:181-185 | Every id is issued once |
| MqLogin.IdsUnique | homework12_message_queue/src/client.c:317-341 | Every id that a client holds was issued, and no two clients ever hold the same |
| MqLogin.ReplyCanBeLost | homework12_message_queue/src/server.c:225-228 | For every capacity and any more clients a run in which the only registered client never gets its id |
| MqLogin.NoReplyLost | homework12_message_queue/src/server.c:225-228 | With no more clients than the queue has room for messages, no reply is ever dropped |
| MqLogin.ReplyLostExactly | homework12_message_queue/src/server.c:132-228 | Some run loses a reply if and only if there are more clients than room, and some room |
| MqLogin.QuiescentExactly | homework12_message_queue/src/client.c:317-341 | With no more clients than the queue has room for, nobody can move if and only if every client is logged in |
| MqLogin.Exchange.ClientStep | homework12_message_queue/src/client.c:303-341 | The client's request, receive and re-queue |
| MqLogin.Exchange.SendOrDrop | homework12_message_queue/src/server.c:227-228 | A non-blocking send drops the message if the queue is full |
| MqLogin.Exchange.ServerStep | homework12_message_queue/src/server.c:132-228 | The server's receive, re-queue and registration |
| MqLogin.Exchange.Execute | homework12_message_queue/src/server.c:132-228 | Any schedule leaves the ids of the clients logged in all different and no request lost |
| MqChat.ListIsExact | homework12_message_queue/src/server.c:181-243 | In every state of a run the list kept by appending is the one rebuilt from the table, if and only if the first look at the login queue finds no request or reads the right name by chance |
| MqChat.TablesAreExact | homework12_message_queue/src/server.c:181-185 | In every run ids follow the slots, `active_users` counts the connected ones, and the server stops only when there are none |
| MqChat.FirstPassListExactly | homework12_message_queue/src/server.c:230-236 | A registration in the first pass gets the right list exactly if the uninitialised variable is 0 or what it reads is the right name |
| MqChat.ReceivedFollowsLog | homework12_message_queue/src/server.c:271-290 | The chat messages a user receives are a subsequence of the one broadcast log, despite drops and overtaking |
| MqChat.ReceivedInLogOrder | homework12_message_queue/src/client.c:52-63 | Every message received stands unchanged in the log, at increasing positions |
| MqChat.UsersAgreeOnOrder | homework12_message_queue/src/client.c:52-63 | Two users see the broadcasts both receive in the same order, however often a line is repeated |
| MqChat.LinesArriveInOrder | homework12_message_queue/src/server.c:248-290 | What one user receives of another is a subsequence of what the other sent |
| MqChatRuns.LinesAreComplete | homework12_message_queue/src/server.c:271-290 | What a connected user has received and what waits for it are exactly the lines since its login, in order, but those whose turn found its queue full and the one still to come |
| MqChatRuns.ListsAreComplete | homework12_message_queue/src/server.c:237-243 | The same for the user lists broadcast |
| MqChatRuns.RequestsAreAnswered | homework12_message_queue/src/server.c:331-340 | Every list request is answered with the list of that moment, unless the queue is full |
| MqChatRuns.UsersGetTheList | homework12_message_queue/src/server.c:318-325 | A connected user for whom no list was dropped and whom none has still to reach has the server's list as its last one |
| MqChatRuns.UploadsAreComplete | homework12_message_queue/src/server.c:248-281 | Every line that the upload queue had room for is logged or waits, in order and unchanged |
| MqChatRuns.PassServesEverybody | homework12_message_queue/src/server.c:247-391 | From every reachable state at the login queue the server comes back there or stops, and on the way has taken exactly one message from every connected user that had one |
| MqChatRuns.QuitStopsExactly | homework12_message_queue/src/server.c:357-365 | A disconnection stops the server exactly if nobody else is connected |
| MqChatRuns.RenameStoresName | homework12_message_queue/src/server.c:295-326 | A rename puts the new name into that slot alone, and the list is the new table's |
| MqChat.Server.ClientSends | homework12_message_queue/src/server.c:247-253 | A client's send into its upload queue, dropped if that is full |
| MqChat.Server.ClientReceives | homework12_message_queue/src/client.c:52-63 | The client receives the oldest message of the highest priority |
| MqChat.Server.RegisterUser | homework12_message_queue/src/server.c:181-243 | A registration appends a slot and a list entry and starts the broadcast of the list |
| MqChat.Server.SendList | homework12_message_queue/src/server.c:318-325 | The broadcast of the list begins |
| MqChat.Server.PushTo | homework12_message_queue/src/server.c:284-288 | A non-blocking send to one user |
| MqChat.Server.HandleMessage | homework12_message_queue/src/server.c:265-390 | Dispatch on the priority: line, rename, list request, disconnection |
| MqChat.Server.Step | homework12_message_queue/src/server.c:247-391 | One turn of the scan or of a broadcast |
| MqChat.Server.Execute | homework12_message_queue/src/server.c:129-391 | Any schedule leaves what each user received a subsequence of the log and `active_users` exact |
| PosixQueue.InsertIsFifo | homework12_message_queue/src/server.c:286-287 | A message joins the end of its priority and no other |
| PosixQueue.ReceiveIsFifo | homework12_message_queue/src/server.c:252-253 | Receiving takes the oldest message of its priority |
| PosixQueue.InsertSorted | homework12_message_queue/src/server.c:241-242 | Delivery is by priority |
| Roster.Rebuild | homework12_message_queue/src/server.c:371-379 | The rebuilding loop gives one entry per connected slot, in slot order |
| Snail.FourthTask | homework01_arrays/src/functions.c:100-123 | The loop fills the array with the recursively defined spiral, writes every element exactly once in the order of the numbers, never outside the array, and ends with n*n+1 |
| Snail.FillSegment | homework01_arrays/src/functions.c:107-111 | The inner loop writes one straight segment |
| Snail.Turn | homework01_arrays/src/functions.c:113-122 | The turn computes the next segment's stride and first element |
| Snail.WalkSegment | homework01_arrays/src/functions.c:105-123 | One turn of the outer loop leads from the start of a segment to the start of the next |
| Snail.Walk | homework01_arrays/src/functions.c:105-123 | The outer loop writes all the segments, from the first number to the last |
| Snail.WalkStep | homework01_arrays/src/functions.c:105-123 | Each number of a segment stands one step in the segment's direction from its predecessor |
| Snail.ConsecutiveShareEdge | homework01_arrays/src/functions.c:105-123 | Consecutive numbers stand in cells that share an edge |
| Snail.ValueOfPlace | homework01_arrays/src/functions.c:105-123 | The cell of number m in the ring-by-ring spiral holds m |
| Snail.PlaceOfValue | homework01_arrays/src/functions.c:105-123 | The number of a cell belongs to that cell |
| Snail.TargetInjective | homework01_arrays/src/functions.c:109 | No element is written twice |
| Snail.TargetOnto | homework01_arrays/src/functions.c:109 | Every element is written |
| Snail.SegmentsCover | homework01_arrays/src/functions.c:105-111 | The segments together have as many cells as the square |
| Checksum.ChecksumCorrectExactly | homework19_link_layer/src/client.c:205-213 | When the signed sum with one fold is the RFC 1071 checksum, for all sequences of up to 65536 words |
| Checksum.HeaderChecksumCorrectExactly | homework19_link_layer/src/client.c:205-213 | For fewer than 65535 words: exactly if no word has its top bit set and the fold leaves no carry |
| Checksum.ReceiverAccepts | homework19_link_layer/src/client.c:191-213 | A finished header sums to 0xFFFF exactly for the RFC's checksum, up to the second zero |
| Checksum.FinishedHeaderVerifies | homework19_link_layer/src/client.c:191-213 | The header finished by the program passes the receiver's test exactly under the same condition |
| Checksum.SumIsByteOrderIndependent | homework19_link_layer/src/client.c:206-211 | The sum of byte-swapped words is the byte-swapped sum, so host-order words may be summed |
| Checksum.OnesSumIsReduced | homework19_link_layer/src/client.c:205-213 | The one's complement sum is the plain sum's representative modulo 65535 |
| Checksum.OwnHeaderIsCorrect | homework19_link_layer/src/client.c:163-213 | The header this client sends to itself gets the right checksum |
| Checksum.HighAddressIsWrong | homework19_link_layer/src/client.c:199-213 | A header to an address with a high last byte gets a wrong one |
| Checksum.FillChecksum | homework19_link_layer/src/client.c:191-213 | The loop stores the folded complement of the sum in the field and changes nothing else; the int never overflows |
| Counter.LockedCounterIsExact | homework07_threads/src/functions.c:22-33 | With the mutex the count ends at THREAD_NUM * (TARGET_VAL / THREAD_NUM), for every schedule |
| Counter.StuckExactlyWhenFinished | homework07_threads/src/functions.c:22-33 | With the mutex or without, no thread can step in a reachable world exactly if all have finished |
| Counter.AlwaysCanFinish | homework07_threads/src/functions.c:22-33 | From every reachable world some schedule finishes, with the exact count if there is a mutex |
| Counter.FinishedExactlyAfter | homework07_threads/src/functions.c:22-33 | A schedule has finished exactly when it has taken all the steps of all iterations, whatever it spent on blocked threads |
| Counter.RacyCounterIsBounded | homework07_threads/src/functions.c:22-33 | Without it the count ends between 2 and that value |
| Counter.UpperBoundReached | homework07_threads/src/functions.c:47-63 | The upper bound is reached for all sizes |
| Counter.LowerBoundReached | homework07_threads/src/functions.c:47-63 | The lower bound 2 is reached for all sizes with at least two threads and two iterations |
| Counter.Process.Advance | homework07_threads/src/functions.c:22-33 | One atomic step of a thread |
| Counter.Process.Execute | homework07_threads/src/functions.c:49-63 | Running a schedule; with the mutex the variable counts the stores at every point |
| LifeSim.GoodsConserved | homework08_lifesim/src/functions.c:18-32 | Stock + bought = initial stock + LOADER_INCREMENT * loads, in every reachable state |
| LifeSim.LoadsCoverNeed | homework08_lifesim/src/functions.c:98-129 | When all customers have joined, the loads cover the total need minus the initial stock, and the surplus is in the stores |
| LifeSim.NeedDecreases | homework08_lifesim/src/functions.c:54-83 | The total need falls by exactly what is bought; a buyer in need at a stocked store buys something |
| LifeSim.NeedNeverGrows | homework08_lifesim/src/functions.c:54-83 | In every reachable state the total need is not negative, and however the run goes on it never grows |
| LifeSim.HolderCanMove | homework08_lifesim/src/functions.c:58-79 | The thread that holds a store's mutex can take its next step |
| LifeSimRuns.BuyerRound | homework08_lifesim/src/functions.c:54-83 | With the mutexes free a buyer in need goes round all the stores by its own steps and is back outside |
| LifeSimRuns.RoundMeetsNeed | homework08_lifesim/src/functions.c:66-75 | The round leaves max(0, need - total stock) of the need and takes from the stores what it meets |
| LifeSimRuns.EmptiedInOrder | homework08_lifesim/src/functions.c:66-75 | Every store before one that the round uses is emptied |
| LifeSimRuns.LoaderRound | homework08_lifesim/src/functions.c:18-32 | A loader's own steps load every store whose mutex is free, pass over the others and lead back to the first store |
| LifeSimRuns.LoaderNeverWaits | homework08_lifesim/src/functions.c:22 | A loader never waits |
| LifeSimRuns.BuyerWaitsExactly | homework08_lifesim/src/functions.c:58 | A buyer waits exactly at a store whose mutex is held |
| LifeSimRuns.EverybodyHomeExactly | homework08_lifesim/src/functions.c:98-129 | From a reachable market some run brings everybody home if and only if the stock covers what is yet to be collected or somebody can load |
| LifeSim.Simulation.LoaderStep | homework08_lifesim/src/functions.c:18-32 | The loader's trylock, read, write and unlock |
| LifeSim.Simulation.BuyerStep | homework08_lifesim/src/functions.c:54-83 | The buyer's lock, purchase and unlock |
| LifeSim.Simulation.Execute | homework08_lifesim/src/functions.c:105-129 | Any schedule leaves the goods in the stores and collected equal to those of the start and those loaded |
| Device.OverrunExactly | homework24_chardev_driver/test_module.c:165-188 | A read leaves the buffer exactly if the offset is behind it or there is no NUL from there on and more is asked for than is left |
| Device.StreamIsPeriodic | homework24_chardev_driver/test_module.c:165-191 | Reads of any positive lengths give the rest of the text and then the text over and over |
| Device.CopyIsText | homework25_sys_and_proc_filesystems/procfs_module.c:17-38 | Reading until nothing comes gives exactly the text from the offset on, within one read per byte and one more |
| Device.ProcWriteReadsBack | homework25_sys_and_proc_filesystems/procfs_module.c:44-59 | The proc file written at offset 0 holds the data up to their first NUL, so exactly the data if and only if they have none |
| Device.ProcWriteBehindStartIsLost | homework25_sys_and_proc_filesystems/procfs_module.c:54-55 | Written behind offset 0 it is empty |
| Device.DeviceWriteKeepsTail | homework24_chardev_driver/test_module.c:196-213 | The device written at offset 0 holds the data followed by the old tail up to its first NUL; the data alone exactly if a NUL follows them |
| Device.WritesConcatenate | homework24_chardev_driver/test_module.c:196-213 | Any sequence of writes on one open file acts like one piece of all the data, cut at the buffer's end |
| Device.ReadsStayInside | homework24_chardev_driver/test_module.c:151-213 | While every write ends before the last byte, no read of any open file leaves the buffer |
| Device.NextReadOverrunsExactly | homework24_chardev_driver/test_module.c:196-213 | The writer's next read leaves the buffer exactly if the write did not end before the last byte |
| Device.RefusedWriteChangesNothing | homework25_sys_and_proc_filesystems/procfs_module.c:48-54 | A write longer than the buffer is refused before anything is cleared: every open file reads what it would have read |
| Device.AcceptedWriteIsThere | homework25_sys_and_proc_filesystems/procfs_module.c:54-55 | Any other write puts its bytes, as far as they fit, at the writer's offset; around them the proc file is cleared and the device as it was |
| Device.Driver.Read | homework24_chardev_driver/test_module.c:165-191 | The copy loop returns the text from the offset on, at most length bytes, or starts over at its end |
| Device.Driver.Write | homework25_sys_and_proc_filesystems/procfs_module.c:44-59 | The buffer, the offset and the result after a write, for both drivers |
| Device.Driver.Clear | homework25_sys_and_proc_filesystems/procfs_module.c:54 | The buffer is all NUL |
| Device.Driver.CopyIn | homework24_chardev_driver/test_module.c:208 | The data are copied to the offset, cut at the buffer's end |

## Left out

- UDP workers and the UDP listener: an early return at a failed send; under successful sends they repeat the TCP protocol.
- The workers' semaphores and the growth of the pool in `producer_server.c`: the same protocol as in `multiproto_server.c`; hiring is an event that may happen at any time.
- `classic_server.c`: two of its semaphores are opened under one name, so its counts are not separate.
- System calls and their failure exits, signals, `atexit` clean-up (the homework 13 server's farewell broadcast included), thread cancellation, sleeping, the clock: a timed wait is a step that may expire whenever the semaphore is 0.
- Descriptor reuse in `multiproto_server.c`: connections are fresh tokens.
- The bytes of `malloc` and `realloc`: tables grow as intended.
- Text lengths: names, lines and the user list are unbounded strings, so truncation by `snprintf`/`strncpy` and a list longer than its buffer are not modelled; ids are numbers, not their decimal text.
- SET_USRNAME and REQ_USRLIST in the homework 13 server: no client sends them; the same commands are in `MqChat`.
- A homework 13 client whose login timed out and who opens or confirms late: `ShmLogin` has it, in `ShmChat` it is gone.
- The single `shm_open` and `sem_open` calls of the homework 13 client: opening is one step, and a client that a timeout catches between two of them counts as still opening.
- The notification loop of the homework 12 client before its first receive, which shows one buffer while it fills another.
- The reader of homework 24 without `OLDER_READ_HANDLER`, which returns the raw buffer, and its read-write lock: operations are atomic.
- Negative offsets of the devices.
- The other tasks of homework 1 (reversal, sums, triangle), the byte and bit exercises, the editors, file managers and all other homeworks: easy members or input and output.
