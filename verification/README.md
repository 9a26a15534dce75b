# A verified model of the CBF sensor dashboard's KATCP client

The dashboard keeps one connection to every CMC server and two, control and monitor, to every correlator array a
server announces. It asks, listens, and keeps a registry of arrays and a tree of sensor readings in step with
what it hears. This project models those parts in Dafny and proves what they keep over all runs.

- `Text`, `Messages`, `Queues`, `Tokenise`: strings as the C library sees them, message texts, the queue that
  suppresses duplicates, and the single-pass tokeniser.
- `SensorTree`, `SensorObjects`, `ArraySensors`: teams, hosts, engines, devices and sensors as nested lists with
  first-match lookup, shown to be one map from paths to readings. `VirtualStatus` and `VirtualDevices` cover the
  virtual devices, `Mapping` the fixed-width list of host serials.
- `Activation`, `Subscriptions`, `ListedNames`: the sensors that the sensor list declares, the names they are
  subscribed to under, in terms of the text of each line, and the way a received name finds its sensor.
- `Connections`, `ConnectionRuns`: one array connection and all its runs. `CorrelatorArray`, `ArrayRuns`: the
  array as an object and all runs of its two connections together. `DisturbedRuns`, `GrantedRuns` and `StatusRuns`
  say more of such runs: which can go wrong, which settle everything, and when statuses can be read.
- `Cmc`, `CmcRuns`, `CmcServers`: the CMC server as functions on values, all runs of it, and the object.
- `Sorting`, `CmcAggregators`, `WebClients`, `ClientLoop`, `Removal`: the list of all arrays by size, the HTTP response
  buffer, and the loops over the web clients.

Code that changes things in place is a class or a method with loops. Each method says what it does to a value
(`Value()` or `Model`) by a function, and the properties are lemmas about these functions. Runs are sequences of
steps, each a total function on the state: the select loop's steps, and a peer that answers each request it has
received once, in order, with informs in between. Proofs about runs hold for every sequence of steps.

## Where the code and its comments or intentions differ

The model follows the code.

- The sweep of the registry runs on every reply to array-list, refused ones too; the comment at
  `src/cmc_server.c:530` names only ok. `CmcRuns.SweepLeavesAnnounced` holds of both.
- A poll that falls between `#array-list` informs and their reply makes the reply remove arrays that were just
  listed, unless they are listed again: `CmcRuns.ListingSurvives`, with such a run in
  `CmcRuns.PollDuringListingDropsArray`.
- Activation pops the monitor queue in any state but the control queue only when monitoring. One request at a
  time therefore holds on the monitor connection exactly as long as no activation falls between a request and its
  reply: `ArrayRuns.OneThroughoutIffUndisturbed`. Exactly which of the other runs can end with a reply and no
  current message is `DisturbedRuns.CanGoWrongIffOneWord`, with such a run in
  `DisturbedRuns.DisturbedRunMeetsNoRequest`.
- The disconnected state of an array connection is not final: `Connections.DisconnectedIsNotFinal`. All runs contain
  socket failures.
- The control connection would read the xhost number at the wrong place (`Connections.ControlNumberIsZero`), but none
  of its requests names an xhost: `ArrayRuns.ControlNeverNamesXhost`.
- `engine_add_device` and `device_add_sensor` append without looking, although `src/team.c:70-71` speaks of a
  check. First-match lookup hides the duplicates: `SensorTree.AddRefinesMap`.
- `host_add_engine` returns 1, not the index, for an engine it finds; nothing uses the result.
- Host numbers are read from two characters. Names, subscriptions and created sensors agree for any number of hosts,
  but an inform reaches its sensor, and a refused xhost is judged by its own number, exactly for hosts below 100:
  `Activation.InformReachesItsSensor`, `ArrayRuns.PlannedSensorsAreWritten`, `Subscriptions.XhostPolicy`.
- The mapping text is read past its end when it breaks off just before a host number: `Mapping.ReadsStayInText`.
- A request that is refused while an equal one waits is merged with it, and an activation gives up the current
  monitor request even if it was not sent: `ArrayRuns.RequestsAreAccountedFor` counts both.
- The comparator of the aggregator is right for sizes below 2^31 and for no larger bound:
  `CmcAggregators.ComparatorRange`.
- What the first write does not take of the header is lost, text added to a response under way is not counted in
  its Content-Length, and a first body write that takes nothing repeats the header: `WebClients.WholeResponse`,
  `WebClients.AddingMidDrain`, `WebClients.EmptyFirstWriteRepeatsHeader`.
- `tokenise_string` reads an unset variable for a text that is empty or only a newline; `Tokenise.TokeniseString`
  and the sensor list (`Activation.ProperConfig`) exclude it.

## Model

| member | source | states |
|---|---|---|
| `CmcRuns.ExactlyOnceInOrder` | src/cmc_server.c:67-107 | in every run (polls, refusals, lost and renewed connections in any order) the requests accepted into the queue are those the peer granted, then the current one, then the queue: nothing is lost, reordered or acknowledged twice |
| `CmcRuns.OneOutstandingRequest` | src/cmc_server.c:502-529 | in every run, while online, the requests under way are exactly the current one while a reply is awaited and none otherwise; monitoring means nothing is current, and nothing current means an empty queue |
| `CmcRuns.AnswersMeetTheirRequest` | src/cmc_server.c:502-529 | in every run, while online, a reply about to be handled finds the very request it answers as the current one, never another and never NULL, so it can always be handled |
| `CmcRuns.QueueIsShort` | src/cmc_server.c:164-190 | however often the server is polled, at most three requests wait behind the current one |
| `CmcRuns.RegistryFollowsAnnouncements` | src/cmc_server.c:164-172 | in every run the arrays that are not suspect are exactly those announced since the last poll, and the list is strictly sorted by name, so no name occurs twice |
| `CmcRuns.SweepLeavesAnnounced` | src/cmc_server.c:530-547 | in every run, handling a reply to array-list, granted or refused, leaves exactly the sorted duplicate-free listing of the names announced since the last poll |
| `CmcRuns.ListingSurvives` | src/cmc_server.c:164-172 | in every run, a reply to array-list keeps every array listed for it if and only if all those listed before the last poll were listed again after it |
| `CmcRuns.PollDuringListingDropsArray` | src/cmc_server.c:167-172 | a run from the start in which a poll falls between an announcement and its reply, and the reply, granted or refused, removes the array the peer has just listed |
| `CmcRuns.ExchangesReachIdle` | src/cmc_server.c:509-523 | from any orderly state ready to send, with no reply unhandled, a granting peer brings the server to monitoring in as many exchanges as requests are pending, with all accepted requests granted |
| `CmcRuns.InitialIsOrderly` | src/cmc_server.c:67-107 | the created server, before it connects, meets the invariant of all runs |
| `CmcRuns.PollKeeps` | src/cmc_server.c:164-198 | a poll keeps the invariant: it clears every array, adds only what is not queued yet, and never starts a second request |
| `CmcRuns.WriteKeeps` | src/cmc_server.c:288-330 | sending keeps the invariant: the current request becomes the one under way |
| `CmcRuns.ConnectionKeeps` | src/cmc_server.c:144-153 | reconnecting, a connection that succeeds or fails, and a lost connection keep the invariant: the request under way is sent again, none is dropped |
| `CmcRuns.ReplyKeeps` | src/cmc_server.c:506-549 | a reply can be handled in every orderly state and handling it keeps the invariant |
| `CmcRuns.InformKeeps` | src/cmc_server.c:550-604 | an inform keeps the invariant: it changes the registry or the counters and no request |
| `CmcRuns.StepKeeps` | src/main.c:282-340 | every step of the select loop keeps the invariant, whatever the order of the steps |
| `Cmc.AnnouncedNames` | src/cmc_server.c:446-479 | an announcement adds exactly the announced name to the names, and to the active names, and keeps the list strictly sorted |
| `Cmc.MarkedNames` | src/cmc_server.c:167-171 | marking keeps the names and the order and leaves no array active |
| `Cmc.SweptNames` | src/cmc_server.c:533-546 | the sweep leaves exactly the active names, all still active, and keeps the order |
| `Cmc.SweptIsFilter` | src/cmc_server.c:533-546 | an array survives the sweep if and only if it was there and active |
| `Cmc.SortedListingUnique` | src/cmc_server.c:477 | two strictly sorted lists with the same names list the same names in the same places |
| `Cmc.InsertedSorted` | src/cmc_server.c:461-477 | inserting a new name keeps strict order and holds the old arrays and the new one |
| `Cmc.LineAddsAtMostOne` | src/cmc_server.c:502-608 | one received line makes the list at most one longer |
| `Cmc.AnnouncementRead` | src/cmc_server.c:551-585 | an announcement of a name, two printed ports and some groups is of an array of that name, the first port for control and the second for monitoring, modulo 2^16, and half as many antennas as groups |
| `Cmc.ResourceRead` | src/cmc_server.c:586-603 | a board on standby, or up and in use, or up and free, raises its own counter by one and no other |
| `Cmc.ResourcesCounted` | src/cmc_server.c:586-603 | after any listing each counter is up by the number of its lines |
| `Cmc.PollAsks` | src/cmc_server.c:164-198 | after a poll all counters are zero and ?array-list and ?resource-list are both in hand or waiting |
| `Cmc.RequestTexts` | src/cmc_server.c:80-103 | the texts of the four requests a server makes |
| `Cmc.OtherReplyIgnored` | src/cmc_server.c:507 | a reply that does not carry the current request's name changes nothing |
| `CmcServers.SortedRegistry` | src/cmc_server.c:461-477 | any permutation of the old list and a new array that is sorted by name is the old listing with the new entry in its place |
| `CmcServers.SortedIsStrict` | src/cmc_server.c:417-433 | for arrays of different names a list that qsort may return under strcmp is strictly sorted |
| `CmcServers.MarkAllSuspect` | src/cmc_server.c:166-171 | the loop clears the active flag of every array and touches nothing else |
| `CmcServers.Sweep` | src/cmc_server.c:533-546 | deleting in place with a size_t index that is stepped back, wrapping at zero, tests every array once, in order, and keeps exactly those not suspect, in order |
| `CmcServers.ActiveRegistry` | src/cmc_server.c:533-546 | what the sweep of the objects leaves is the sweep of the registry |
| `CmcServers.ActiveKeepsOrder` | src/cmc_server.c:533-546 | the arrays kept are old ones, still strictly sorted and sharing no object |
| `CmcServers.FindArrayNamed` | src/cmc_server.c:449-458 | the search gives the first array of a name, or the length of the list |
| `CmcServers.MarkFineAt` | src/cmc_server.c:451-457 | a known array is active again and is polled as array_mark_fine does; the other entries stay |
| `CmcServers.AppendAndSort` | src/cmc_server.c:461-477 | a created array joins the others, and the sorted list is the old registry with its entry in place |
| `CmcServers.CmcServer.constructor` | src/cmc_server.c:67-107 | a created server waits to be connected, has log-local in hand and three more requests queued, and no arrays |
| `CmcServers.CmcServer.TryReconnect` | src/cmc_server.c:144-153 | only a server without a connection starts connecting; its requests stay |
| `CmcServers.CmcServer.QueuePop` | src/cmc_server.c:207-215 | the front of the queue becomes the current message |
| `CmcServers.CmcServer.AskForLists` | src/cmc_server.c:173-197 | asking for both lists duplicates no queued request, resets the counters and sets an idle server going |
| `CmcServers.CmcServer.PollArrayList` | src/cmc_server.c:164-198 | a poll of a server that is online marks its arrays and asks for both lists; of a server that is not, it changes nothing; no array changes otherwise |
| `CmcServers.CmcServer.SetupWrites` | src/cmc_server.c:288-338 | katcl is handed the words of the current message if it is due, and then what is due on both connections of every array, whether the server is connected or not |
| `CmcServers.CmcServer.SetupOwnWrite` | src/cmc_server.c:288-331 | when the current message is due, katcl is handed as many arguments as it has words, the first with its type and each other the word itself, which joined by spaces are its text; the server then waits |
| `CmcServers.SetupArrayWrites` | src/cmc_server.c:333-337 | every array of the list sends its own due messages, independently of the others |
| `CmcServers.CmcServer.ConnectionAttempted` | src/cmc_server.c:353-374 | a connection attempt leads to sending or to being disconnected |
| `CmcServers.CmcServer.SocketFailed` | src/cmc_server.c:378-404 | a failed read or write disconnects a server that is online and keeps its requests |
| `CmcServers.CmcServer.AddArray` | src/cmc_server.c:446-479 | a known name leads to that array being marked fine and its index; an unknown one to a created array in its sorted place and 0; every other array is left alone |
| `CmcServers.CmcServer.SweepArrays` | src/cmc_server.c:531-547 | the list keeps exactly the array objects that are not suspect, in order and untouched |
| `CmcServers.CmcServer.HandleReply` | src/cmc_server.c:506-549 | a reply to another request changes nothing; ok moves on, anything else asks again; and an array-list reply sweeps whatever it says, leaving the array objects it keeps untouched |
| `CmcServers.CmcServer.CountAntennas` | src/cmc_server.c:574-581 | the loop to the first missing argument counts two multicast groups per antenna, rounding down |
| `CmcServers.CmcServer.HandleInform` | src/cmc_server.c:550-604 | an array-list inform marks the one array of its name fine or adds a new one, a resource-list inform is counted, any other is ignored; no other array is touched |
| `CmcServers.CmcServer.HandleLine` | src/cmc_server.c:502-608 | a line is handled by its type character; an unknown type changes nothing; which array objects are in the list afterwards, and that the ones not announced are untouched |
| `CmcServers.CmcServer.HandleReceived` | src/cmc_server.c:489-609 | while connected, the arrays handle their lines and then all buffered lines of the server are handled in order; otherwise nothing happens |
| `CmcServers.CmcServer.HandleArrayLines` | src/cmc_server.c:496-501 | every array handles what it received, and nothing the server keeps about itself or its list changes |
| `CmcServers.HandleArrays` | src/cmc_server.c:496-501 | the loop over the list: each array ends up as its own lines make it, no matter what the others received |
| `CmcServers.CmcServer.CheckForArray` | src/cmc_server.c:705-729 | a number in range, counted from 1, wins over a name; otherwise the first array of that name, or -1 |
| `ArrayRuns.AnswersMeetRequests` | src/array.c:860-922 | in every run of an array, socket failures included, at most one request is under way on the control connection, the current one, and every reply finds the request it answers; the same holds of the monitor connection in every run in which no activation falls between a request and its reply |
| `ArrayRuns.OneThroughoutIffUndisturbed` | src/array.c:841-842 | the monitor connection has at most one request under way, the current one, at every moment of a run if and only if no activation fell between a request and its reply |
| `DisturbedRuns.DisturbedRunMeetsNoRequest` | src/array.c:841-842 | a run from the start, with an empty sensor list, in which the configuration changes while the mapping request awaits its reply and a reply in the end finds no current message |
| `DisturbedRuns.CanGoWrongIffOneWord` | src/array.c:1018-1066 | after an activation that falls between a request and its reply, and before the next activation, some reply can find no current message if and only if that request, the one that replaced it and all queued ones have the same first word; in every other such run no reply ever does |
| `DisturbedRuns.StepStaysHarmless` | src/array.c:1018-1066 | while a message with another first word is ahead, every step that is no activation leaves one late answer at most, or restores order |
| `DisturbedRuns.DrainMeetsNull` | src/array.c:1018-1066 | with one first word throughout, granting peers bring every run with a late answer to a reply without a current message |
| `ArrayRuns.DisturbedStep` | src/array.c:841-842 | an activation between a request and its reply leaves a request under way that is not accounted for |
| `ArrayRuns.RequestsAreAccountedFor` | src/array.c:860-1071 | in every run each request accepted on the control connection was granted, merged with a waiting copy when asked again, or still waits, and only one of these; on the monitor connection, in every undisturbed run, it may also have been dropped as an absent xhost or given up by an activation |
| `GrantedRuns.GrantingPeersSettleAll` | src/array.c:1055-1066 | from any moment of an undisturbed run at which both connections are ready to send or monitoring, peers that grant bring both to monitoring in as many rounds as the longer has requests, and exactly what was waiting has then been granted in addition |
| `GrantedRuns.PlannedAreGranted` | src/array.c:685-850 | after an activation that disturbs nothing, granting peers grant every subscription of the sensor list in the rounds that follow |
| `GrantedRuns.RoundSettles` | src/array.c:544-621 | a round settles the current request of each connection, independently of the other |
| `ArrayRuns.ReadingsAreLastInforms` | src/array.c:1121-1175 | in every run a sensor of the list does not exist before the first activation, reads fresh after it, and from then on what the last line received for it carried, over any number of activations; no other sensor exists |
| `ArrayRuns.SensorShowsLastLine` | src/array.c:1121-1175 | in every run, once activated, a listed sensor shows argument 5 of the last line received for it as its value and argument 4 as its status, each none if missing, and unused and unknown if there was no such line |
| `ArrayRuns.PlannedSensorsAreWritten` | src/array.c:750-840 | for a proper sensor list every listed sensor has its host, and a sensor line under its printed name is a line for it if and only if the host number is below 100 |
| `ArrayRuns.StepReads` | src/array.c:1121-1175 | a step changes the reading of a sensor only if it is a line for it, or creates it; a mapping changes no reading |
| `ArrayRuns.ControlNeverNamesXhost` | src/array.c:124-133 | no request of the control connection contains the word xhost, so each refused one is asked again and the number is never read |
| `ArrayRuns.QueuesAreBounded` | src/array.c:685-850 | in every run, over any number of activations, retries, polls and socket failures, at most 4 requests wait on the control connection and at most 4 more than the sensor list has sensors on the monitor connection |
| `ArrayRuns.RunKeepsSafe` | src/array.c:841-847 | the invariant of both connections holds after every sequence of steps of the array |
| `ArrayRuns.StepKeepsSafe` | src/array.c:544-621 | every step of the array keeps the invariant of both connections, the monitor one unless the step disturbs it |
| `ArrayRuns.StepsOfConnections` | src/array.c:841-847 | a step of the array is, for each of its connections, one step of that connection or none |
| `ConnectionRuns.AnswersMeetTheirRequest` | src/array.c:1018-1066 | in every undisturbed run of a connection a reply meets the very request it answers |
| `ConnectionRuns.NothingIsLost` | src/array.c:1018-1071 | in every undisturbed run each message was granted, dropped, merged, given up or still waits exactly as often as it was accepted |
| `ConnectionRuns.AnswerSettles` | src/array.c:1018-1066 | handling a reply leaves waiting what was queued, and the refused request if it is asked again |
| `ConnectionRuns.ActivationKeepsOrder` | src/array.c:841-842 | activating the monitor connection leaves one request under way if and only if none awaits its reply at that moment |
| `ConnectionRuns.StepKeepsOrder` | src/array.c:860-922 | every other step, a socket failure too, keeps one request under way |
| `ConnectionRuns.ControlRunsAreUndisturbed` | src/array.c:843-847 | because activation pops the control queue only when monitoring, all runs of the control connection are undisturbed |
| `ConnectionRuns.InitialIsOrderly` | src/array.c:106-164 | a connection that starts with its first request in hand meets the invariant |
| `ConnectionRuns.QueueIsBounded` | src/queue.c:82-97 | in every run, disturbed or not and with failures or not, a queue is never longer than the number of different requests ever made |
| `Connections.FailureConserves` | src/array.c:1025-1053 | after a refusal exactly the same requests are pending, except the refused one when it names an xhost whose number is not below the number of xhosts and no copy of it is queued |
| `Connections.OkSettlesCurrent` | src/array.c:1018-1066 | after ok exactly the queued requests are pending |
| `Connections.ActivationConserves` | src/array.c:841-847 | activation keeps all queued requests and the new ones pending; on the monitor connection the current one is given up |
| `Connections.AnswerMakesProgress` | src/array.c:1055-1066 | against a peer that grants, or refuses only xhosts that are not there, each reply leaves one request fewer, and monitoring begins exactly when none is left |
| `Connections.RoundsReachMonitor` | src/array.c:1018-1066 | with such a peer monitoring begins after as many replies as there are requests and not before |
| `Connections.DisconnectedIsNotFinal` | src/array.c:633-675 | the disconnected state of an array is left by a buffered reply to the current request, or by an activation on the monitor side |
| `Connections.ControlNumberIsZero` | src/array.c:885-905 | reading the number where the text says xhost gives 0 for every xhost, so such a request would be asked again whenever there is any xhost |
| `Subscriptions.XhostPolicy` | src/array.c:1031-1046 | a refused subscription to a sensor of xhost h is asked again if and only if the number read for h is below the number of xhosts; that amounts to h being below it if and only if h is below 100 |
| `Subscriptions.XhostRead` | src/array.c:1031-1036 | the number read for an xhost is what the first two printed digits of its number make |
| `Subscriptions.NumberBehindXhost` | src/array.c:1031-1036 | the monitor connection reads the two characters after the first xhost in the text |
| `Connections.Connection.constructor` | src/array.c:106-164 | an empty connection that is to send |
| `Connections.Connection.PushRequest` | src/queue.c:66-117 | a request joins the queue unless the same text waits there |
| `Connections.Connection.QueuePop` | src/array.c:1366-1391 | the front of the queue becomes the current message, or there is none |
| `Connections.Connection.SetupWrites` | src/array.c:544-621 | when the current message is due, katcl is handed as many arguments as it has words, the first with its type and each other the word itself, which joined by spaces are its text; the connection then waits |
| `Connections.WireCarries` | src/array.c:556-571 | the line handed to katcl is the message word by word, and its text is the text the queue compares |
| `Connections.Connection.HandleReply` | src/array.c:871-922 | a reply to another request changes nothing; otherwise the request is done, queued again or dropped, and the next one follows or monitoring begins |
| `Connections.OtherReplyIgnored` | src/array.c:1018 | a reply that does not carry the current request's name changes nothing |
| `Connections.Connection.AskAgain` | src/array.c:1025-1053 | the refused request is queued again unless it names an xhost that is not there |
| `Connections.Connection.SocketFailed` | src/array.c:633-675 | only the state changes: current message and queue survive |
| `Connections.Connection.SetGoing` | src/array.c:843-847 | only a monitoring connection is set going |
| `Queues.PushIsSetLike` | src/queue.c:82-97 | for words without spaces a push appends if and only if the very message is not queued yet |
| `Queues.PushHolds` | src/queue.c:66-117 | after a push exactly the texts waiting before and the pushed text wait |
| `Queues.PushKeepsDistinct` | src/queue.c:82-97 | no push makes two equal texts wait |
| `Queues.DistinctBound` | src/queue.c:82-117 | a queue of different texts is no longer than the number of messages it draws from |
| `Queues.Queue.constructor` | src/queue.c:23-33 | a new queue is empty |
| `Queues.Queue.PushMessage` | src/queue.c:66-117 | the message is appended unless a waiting message composes to the same text; one without words can be pushed on an empty queue, which then takes no more |
| `Queues.Queue.Pop` | src/queue.c:126-173 | the front is removed and returned, the rest moves up unchanged; an empty queue gives nothing |
| `Queues.Queue.SizeOf` | src/queue.c:182-185 | the number of waiting messages |
| `Messages.ComposeInjective` | src/message.c:142-164 | for words without spaces two messages have the same text if and only if they have the same type and words |
| `Messages.ComposeEqual` | src/message.c:142-164 | in general two messages have the same text if and only if they have the same type and the same words once cut at spaces |
| `Messages.ComposeCollides` | src/message.c:142-164 | one word with a space and two words collide |
| `Messages.JoinOfFields` | src/message.c:142-164 | cutting a text at the separators and joining it again gives the text back |
| `Messages.Message.constructor` | src/message.c:26-36 | a new message has a type and no words |
| `Messages.Message.AddWord` | src/message.c:85-104 | the word is appended and the number of words returned |
| `Messages.Message.SeeWord` | src/message.c:114-120 | the word at an index, or nothing past the last |
| `Messages.Message.ComposeText` | src/message.c:142-164 | the buffer holds the type and the words with single spaces; the terminator falls at the sum of (word length + 1), right behind the text, and cuts nothing off; no text without words |
| `Messages.NewRequest` | src/message.c:26-104 | a request with exactly these words in this order |
| `Tokenise.TokensAreMaximalRuns` | src/tokenise.c:17-55 | the tokens are, in order, exactly the maximal runs without a delimiter of the text without its final newline: every token is one, and none is missed |
| `Tokenise.TokeniseJoin` | src/tokenise.c:6-61 | splitting the join of non-empty delimiter-free tokens gives them back if and only if the last does not end in a newline |
| `Tokenise.RunsKeepTheRest` | src/tokenise.c:17-55 | the tokens put together are the text without its delimiters |
| `Tokenise.RunsAreClean` | src/tokenise.c:17-55 | no token is empty or holds a delimiter |
| `Tokenise.TokeniseString` | src/tokenise.c:6-61 | the single pass over the duplicated buffer returns those tokens for every text that is not empty without its newline |
| `Tokenise.TakeWord` | src/tokenise.c:36-52 | cutting the buffer at a delimiter yields the run before it and changes nothing behind it |
| `SensorTree.UpdateRefinesMap` | src/host.c:362-398 | seen as a map from paths to readings, an update replaces the reading of a known path and no other; of an unknown path it changes nothing |
| `SensorTree.AddRefinesMap` | src/team.c:79-125 | adding a sensor inserts a fresh reading under a path that is new and whose host exists; a known path keeps its reading, although the lists then hold duplicates |
| `SensorTree.AddAllLookup` | src/array.c:715-840 | after adding many sensors every earlier reading stands, the new ones of existing hosts are fresh, and nothing else appeared |
| `SensorTree.AddAllTwice` | src/array.c:685-850 | adding the same sensors again changes no reading |
| `SensorTree.GetSet` | src/device.c:153-166 | first-match lookup after first-match update, at any depth: the new reading at that path, the old one at every other |
| `SensorTree.GetAppendLeaf` | src/device.c:88-99 | appending a sensor to the first match of its groups shows only if no sensor of that path was there |
| `SensorTree.GetAppendGroup` | src/engine.c:86-96 | appending an empty group, even of a name that is there, shows nowhere |
| `SensorTree.HostAddGet` | src/host.c:115-257 | the host operations that team_add performs for one sensor add one fresh path or nothing |
| `SensorTree.HostSetGet` | src/host.c:362-398 | an update of a host reaches the path given, through devices or through engines, and no other |
| `SensorObjects.Sensor.constructor` | src/sensor.c:25-36 | a new sensor reads unused and unknown |
| `SensorObjects.Sensor.Update` | src/sensor.c:104-121 | value and status are replaced |
| `SensorObjects.Device.constructor` | src/device.c:28-40 | a new device has no sensors |
| `SensorObjects.Device.AddSensor` | src/device.c:88-99 | a fresh sensor is appended, duplicate or not |
| `SensorObjects.Device.GetSensorValue` | src/device.c:108-121 | the value of the first sensor of the name, or NULL |
| `SensorObjects.Device.GetSensorStatus` | src/device.c:130-143 | the status of the first sensor of the name, or NULL |
| `SensorObjects.Device.UpdateSensor` | src/device.c:153-166 | the first sensor of the name is updated and no other; -1 if there is none |
| `SensorObjects.Engine.constructor` | src/engine.c:28-39 | a new engine has no devices |
| `SensorObjects.Engine.AddDevice` | src/engine.c:86-96 | an empty device is appended, duplicate or not |
| `SensorObjects.Engine.AddSensorToDevice` | src/engine.c:105-121 | the first device of the name gets the sensor; -1 if there is none |
| `SensorObjects.Engine.GetSensorValue` | src/engine.c:130-144 | the value found through the first device of the name, or NULL |
| `SensorObjects.Engine.GetSensorStatus` | src/engine.c:153-167 | the status found through the first device of the name, or NULL |
| `SensorObjects.Engine.UpdateSensor` | src/engine.c:177-188 | the sensor found through the first device of the name is updated and no other; -1 if there is none |
| `SensorObjects.Host.constructor` | src/host.c:44-61 | a new host has a placeholder serial and nothing in it |
| `SensorObjects.Host.SetSerial` | src/host.c:100-105 | only the serial changes |
| `SensorObjects.Host.AddDevice` | src/host.c:115-140 | the device is there afterwards, appended only if it was not, and its index is returned |
| `SensorObjects.Host.AddSensorToDevice` | src/host.c:149-161 | the first device of the name gets the sensor; -1 if there is none |
| `SensorObjects.Host.AddEngine` | src/host.c:170-194 | the engine is there afterwards, appended only if it was not; 1 is returned for one that was, whatever its place |
| `SensorObjects.Host.AddDeviceToEngine` | src/host.c:203-217 | the first engine of the name gets the device; -1 if there is none |
| `SensorObjects.Host.AddSensorToEngineDevice` | src/host.c:226-257 | the engine device gets the sensor, and a virtual device of that name exists afterwards, added at most once, if and only if it did |
| `SensorObjects.Host.GetSensorValue` | src/host.c:305-319 | the value found through the first device of the name, or NULL |
| `SensorObjects.Host.GetSensorStatus` | src/host.c:328-353 | a device answers for itself, a virtual device with the worst status of its engines, anything else with NULL |
| `SensorObjects.Host.UpdateSensor` | src/host.c:362-378 | the sensor found through the devices is updated and no other; -1 if there is none |
| `SensorObjects.Host.UpdateEngineSensor` | src/host.c:387-398 | the sensor found through the engines is updated and no other; -1 if there is none |
| `SensorObjects.VDevice.constructor` | src/vdevice.c:87-101 | a new virtual device looks at its host and is unknown |
| `SensorObjects.VDevice.StatusPass` | src/vdevice.c:35-77 | one loop over the engines overwrites the status exactly if some engine has the status it looks for |
| `SensorObjects.VDevice.GetStatus` | src/vdevice.c:141-146 | the status shown is the worst of the engines |
| `SensorObjects.Team.constructor` | src/team.c:28-43 | a team has one new host per antenna |
| `SensorObjects.Team.AddDeviceSensor` | src/team.c:79-98 | only the numbered host changes, by exactly the one sensor; a number out of range changes nothing |
| `SensorObjects.Team.AddEngineDeviceSensor` | src/team.c:108-125 | only the numbered host changes, by exactly the one engine sensor; a number out of range changes nothing |
| `SensorObjects.Team.SetHostSerial` | src/team.c:136-142 | only the numbered host changes, and only its serial |
| `SensorObjects.Team.UpdateSensor` | src/team.c:203-217 | only the numbered host is updated; -2 for a number out of range, -1 for an unknown sensor |
| `SensorObjects.Team.UpdateEngineSensor` | src/team.c:228-240 | only the numbered host is updated through its engines; -2 for a number out of range, -1 for an unknown sensor |
| `SensorObjects.Team.GetSensorValue` | src/team.c:250-260 | the value read on the numbered host, NULL for a number out of range |
| `ArraySensors.SensorLists.constructor` | src/array.c:153-159 | an array starts with an f team and an x team of fresh hosts and no top-level sensor |
| `ArraySensors.SensorLists.AddTopLevel` | src/array.c:318-328 | a fresh top-level sensor is appended, duplicate or not |
| `ArraySensors.SensorLists.UpdateTopLevel` | src/array.c:338-350 | the first top-level sensor of the name is updated; -1 if there is none |
| `ArraySensors.SensorLists.AddToHost` | src/array.c:246-310 | one sensor is added on one host of the first team of the type and nowhere else; -1 for a host that does not exist |
| `ArraySensors.SensorLists.UpdateOnTeam` | src/array.c:1165-1170 | an update by team place, host and names reaches that path and no other |
| `VirtualStatus.PassesFindWorst` | src/vdevice.c:35-77 | the three overwriting passes give the maximum under unknown < nominal < warn < error, any other status counting as unknown |
| `VirtualStatus.WorstIgnoresOrder` | src/vdevice.c:35-77 | only which statuses occur matters, not their order or number |
| `VirtualStatus.WorstIsMonotone` | src/vdevice.c:35-77 | one engine getting worse never makes the virtual device look better |
| `VirtualDevices.ReadableIffComplete` | src/array.c:773-800 | after the first activation every virtual device of a team can be read on every engine of its host if and only if every engine base name of the team is listed with every device any of them is listed with |
| `StatusRuns.ReadableThroughout` | src/host.c:226-257 | in every run, after any number of activations and informs, all virtual devices of a team can be read on every engine of their hosts if and only if the array was not activated yet or the engine lines of the team are complete |
| `StatusRuns.NamesInRun` | src/host.c:170-257 | in every run a host has exactly the engines and virtual devices the sensor list asks for once the array was activated, each engine once, and none before |
| `VirtualDevices.SingleBaseIsComplete` | conf/sensor_list.conf:18-20 | one engine base name per team, as in the shipped list, is enough |
| `VirtualDevices.ReadableIffFullyAsked` | src/host.c:226-257 | on one host: readable if and only if every engine was asked for with every device |
| `VirtualDevices.AskedIsHeld` | src/host.c:226-257 | a host holds exactly the engines, virtual devices and engine statuses it was asked for, each engine once |
| `Activation.NameRoundTrip` | src/array.c:1121-1175 | the receive path takes a printed name apart into exactly the path it was printed from if and only if the host number is below 100; a larger one leads to the same sensor of one of the hosts 10 to 99 |
| `Activation.HostNameRead` | src/array.c:1134 | the host number read is what the first two printed digits make |
| `Activation.NamesAreDistinct` | src/array.c:754-828 | different paths have different printed names, for any host numbers |
| `Activation.NameTokens` | src/array.c:754-828 | a printed name falls apart at the dots into exactly the words it was printed from |
| `Activation.InformReachesItsSensor` | src/array.c:1121-1175 | an inform for a subscribed name writes the sensor the name is read back as, if that exists, and no other; it changes the reading of the sensor it was subscribed for if and only if the host number is below 100; that sensor exists after an activation |
| `Activation.OtherNamesIgnored` | src/array.c:1160-1178 | a name of two words, or of more than four, leads nowhere |
| `Activation.ReactivationKeepsReadings` | src/array.c:685-850 | activating again changes no reading |
| `Activation.EntryPathsAre` | src/array.c:735-830 | a line of the sensor list creates exactly the sensors it declares: 1, n, 4n or n*n of them |
| `Activation.ConfigPathsAre` | src/array.c:715-840 | an activation creates a sensor if and only if some line declares it |
| `Activation.ConfigPathsCount` | src/array.c:715-840 | the number of sensors is the sum of 1, n, 4n or n*n over the lines |
| `ListedNames.ConfigAsks` | src/array.c:685-840 | a sensor-sampling request for a name is made if and only if the name is hostname-functional-mapping, device-status, or asked for by some line |
| `ListedNames.TopLine` | src/array.c:738-747 | a line of one word, with or without a newline, asks for exactly that name |
| `ListedNames.DeviceLine` | src/array.c:748-769 | a line t.d asks for exactly the names <first letter of t>host<two digits>.d.device-status of the n hosts |
| `ListedNames.EngineLine` | src/array.c:771-805 | a line t.b.d with eng in b asks for exactly the names <first letter of t>host<two digits>.<b><0 to 3>.d.device-status of the n hosts |
| `ListedNames.PacketLine` | src/array.c:806-837 | a line t.b.d without eng in b and with %02d in d asks for exactly the names <first letter of t>host<two digits>.b.<d with each number below n> |
| `ListedNames.PlainLine` | src/array.c:806-837 | such a line without a conversion asks for exactly that sensor of the device on the n hosts |
| `Activation.PlanIsNameable` | src/array.c:707-840 | for a proper sensor list every created sensor has names the tokeniser can take apart and a host that exists |
| `Subscriptions.SubscribedIs` | src/array.c:685-830 | a sensor name is subscribed to if and only if it is the printed name of a sensor of the list, and a name is asked for if and only if it is one of these or the mapping |
| `Subscriptions.CreatedIffSubscribed` | src/array.c:715-840 | for any number of antennas, a sensor that was not there exists after an activation if and only if its name was subscribed to |
| `Subscriptions.SubscriptionsAre` | src/array.c:750-828 | one subscription per created sensor, in the same order |
| `Subscriptions.VocabularySize` | src/array.c:685-830 | there are at most four more monitor requests than sensors listed |
| `Text.TwoCharacterRead` | src/array.c:1134-1136 | two characters of a %02lu number read by atoi give the number back if and only if it is below 100; of a larger one they give a number from 10 to 99 |
| `Text.Decimal2RoundTrip` | src/array.c:754-756 | a printed number is read back by atoi, whatever its length, and has two digits if and only if it is below 100 |
| `Text.NumberRead` | src/web.c:122-130 | atoi reads a printed number back whatever follows it |
| `Text.SignedNumberRead` | src/array.c:991 | atoi skips white space and obeys a sign |
| `Text.DecimalPlace` | src/web.c:122-130 | a printed number has at each place the digit of that power of ten |
| `Text.LessTrichotomy` | src/cmc_server.c:417-433 | strcmp order is total and strict: different strings differ in order, in one direction |
| `Text.LessTransitive` | src/cmc_server.c:417-433 | strcmp order is transitive |
| `Text.LessAtFirstDifference` | src/cmc_server.c:417-433 | strcmp order is decided at the first difference, by the smaller character or the end of the string |
| `Text.BackAndForth` | src/cmc_server.c:544 | stepping a size_t back from any value, zero included, and forward again gives it back |
| `CorrelatorArray.ActivationsAreEdges` | src/array.c:926-948 | over any sequence of instrument-state reports the number of activations is the number of places where the pair (state, configuration) differs from the one before and the new one is nominal with a configuration |
| `CorrelatorArray.CorrArray.constructor` | src/array.c:106-164 | a new array is fine, knows no instrument, has log-local in hand on both connections and asks for the instrument state |
| `CorrelatorArray.NewArrayAsks` | src/array.c:124-151 | a new array first turns local logging off on both connections, then asks for the instrument state on the control one |
| `CorrelatorArray.CorrArray.MarkSuspect` | src/array.c:361-364 | only the active flag changes |
| `CorrelatorArray.CorrArray.CheckSuspect` | src/array.c:373-379 | suspect means not active |
| `CorrelatorArray.CorrArray.MarkFine` | src/array.c:389-404 | active again; sensor-value is pending if something was heard recently, and nothing else changes if not |
| `CorrelatorArray.CorrArray.Functional` | src/array.c:448-454 | -1 if either connection is lost, 1 otherwise |
| `CorrelatorArray.CorrArray.SetupWrites` | src/array.c:544-621 | each connection sends its own current message, whole, when due |
| `CorrelatorArray.DueCarries` | src/array.c:582-617 | a connection hands over a line exactly when it is to send a message with words, and that line is the whole message |
| `CorrelatorArray.CorrArray.SocketFailed` | src/array.c:633-675 | a failure changes the state of its own connection only |
| `CorrelatorArray.CorrArray.Activate` | src/array.c:685-850 | all sensors of the plan are created, all their requests queued in order behind the mapping, and both connections moved on |
| `CorrelatorArray.CorrArray.ReadConfigLine` | src/array.c:715-840 | a line creates its sensors and asks for each under its printed name, in the order of the loops |
| `CorrelatorArray.CorrArray.CreateDevices` | src/array.c:748-769 | one device status per host, created and asked for |
| `CorrelatorArray.CorrArray.CreateEngines` | src/array.c:773-805 | four engine statuses per host, created and asked for |
| `CorrelatorArray.CorrArray.CreatePackets` | src/array.c:811-837 | one sensor per host and sender, created and asked for |
| `CorrelatorArray.CorrArray.ReportInstrument` | src/array.c:926-948 | the array is activated exactly on a changed report that is nominal with a configuration, and remembers every report |
| `CorrelatorArray.CorrArray.HandleControlLine` | src/array.c:860-998 | a control line is a reply, an instrument report, the number of xhosts, or ignored |
| `CorrelatorArray.InstrumentLine` | src/array.c:926-948 | argument 4 of an instrument-state inform becomes the known state and argument 5 the configuration; the array is activated exactly if either changed, the state is nominal and the configuration is not none |
| `CorrelatorArray.XhostsLine` | src/array.c:988-998 | argument 5 of the answer to n-xeng-hosts, as a decimal number, becomes the number of xhosts; other informs leave it, and all but instrument reports leave everything |
| `CorrelatorArray.ActivationAsksControl` | src/array.c:702-712 | after an activation the input labelling and the number of xhosts are pending on the control connection |
| `CorrelatorArray.CorrArray.RouteInform` | src/array.c:1121-1190 | the tokenised name selects the sensor that is updated, if any |
| `CorrelatorArray.CorrArray.HandleMonitorLine` | src/array.c:1000-1200 | a monitor line is a reply, a mapping, a sensor reading with none for what is missing, or ignored |
| `CorrelatorArray.SensorLine` | src/array.c:1121-1175 | a sensor inform under a name that leads to a known sensor sets its value to argument 5 and its status to argument 4, each none if missing, and no other reading |
| `CorrelatorArray.OtherMonitorLine` | src/array.c:1076-1118 | the mapping is taken from argument 5 of its inform; an inform of another kind changes nothing |
| `CorrelatorArray.RefusedXhost` | src/array.c:1025-1053 | a refused subscription to a sensor of an xhost stays pending while the number read for it is below the array's number of xhosts |
| `CorrelatorArray.CorrArray.HandleReceived` | src/array.c:860-1200 | all buffered control lines are handled in order, and then all monitor lines |
| `Mapping.LastRecordWins` | src/array.c:1083-1110 | each host ends up with the serial of the last record that names it, and every other host keeps its own |
| `Mapping.RecordSpelt` | src/array.c:1087-1094 | at every multiple of 30 a record is read as it is spelt: 8 characters, a serial of 6, 7 more, the type, 4 more, a host number in two digits |
| `Mapping.SerialIsLastSpelt` | src/array.c:1083-1110 | by team letter and host number: a host has the serial of the last record that spells them |
| `Mapping.SerialStays` | src/array.c:1083-1110 | a host that no record spells keeps its serial |
| `Mapping.AssignedKeepsReadings` | src/array.c:1083-1110 | a mapping changes no reading |
| `Mapping.ReadsStayInText` | src/array.c:1083-1090 | the loop reads inside the text if and only if the text does not break off in the five characters before a host number |
| `Mapping.AssignRecordHost` | src/array.c:1087-1107 | one record touches the serial of the host it names and nothing else |
| `Mapping.AssignSerials` | src/array.c:1083-1110 | the loop with its break handles exactly the records that begin in the text, at most two per antenna, in order |
| `Mapping.ReadRecord` | src/array.c:1087-1107 | a record is read at its fixed offsets; a type other than f and x changes nothing |
| `CmcAggregators.CmcAggregator.constructor` | src/cmc_aggregator.c:39-61 | the list holds every array of every server as often as it occurs there, largest first if no two sizes are 2^31 or more apart |
| `CmcAggregators.ComparatorRange` | src/cmc_aggregator.c:21-29 | the truncated size_t difference has the sign of the true one for all sizes up to a bound if and only if the bound is below 2^31 |
| `CmcAggregators.SortedIsLargestFirst` | src/cmc_aggregator.c:21-29 | whatever qsort returns under that comparator is largest first |
| `CmcAggregators.CmpBySizeIsConsistent` | src/cmc_aggregator.c:21-29 | for sizes less than 2^31 apart the comparator is a total preorder, as qsort demands |
| `CmcAggregators.DifferenceSurvives` | src/cmc_aggregator.c:21-29 | the comparator returns the true difference if and only if that is an int |
| `CmcAggregators.CmcAggregator.GetArray` | src/cmc_aggregator.c:87-93 | the array at a place, NULL past the end |
| `CmcAggregators.CmcAggregator.GetNumbered` | src/web.c:418 | pages count from 1, and number 0, which wraps around, finds nothing |
| `Sorting.QSort` | src/cmc_aggregator.c:58 | a sorted permutation, for any comparator that is a total preorder on the list |
| `WebClients.DrainSendsResponse` | src/web.c:114-165 | however short the writes are, as long as each body write takes something, the bytes sent are what the first write takes of the header and then the rest of the buffer, in at most as many rounds as there are bytes |
| `WebClients.DrainSendsBody` | src/web.c:143-164 | once some body has gone out, the rest of it follows and nothing else |
| `WebClients.WholeResponse` | src/web.c:114-165 | one header whose Content-Length is the size of the page (section 3.3.2 of RFC 7230), and then the page, is what goes out if and only if the first write takes the whole header |
| `WebClients.ResponseReads` | src/web.c:114-165 | what goes out then is the status line, Content-Length with digits that atoi reads as the size of the page, Connection: close, a blank line, and the page |
| `WebClients.HeaderReads` | src/web.c:122-130 | the header is the literal text around digits that atoi reads as the number of bytes announced, from where they stand too |
| `WebClients.RoundOffers` | src/web.c:117-141 | a round offers 1024 bytes at most, or all that is left, less the header in the first round when both would exceed 1024 |
| `WebClients.RoundSendsFront` | src/web.c:114-165 | a round sends the next piece of the body, at least one byte, and reports whether anything remains |
| `WebClients.AddingMidDrain` | src/web.c:90-105 | text added while a response is under way is sent too, so the body has the announced length if and only if nothing was added |
| `WebClients.EmptyFirstWriteRepeatsHeader` | src/web.c:120-149 | the header is sent again in the next round if and only if the first body write takes nothing |
| `WebClients.BodySize` | src/web.c:117-141 | header and body of a round fit 1024 bytes, the subtraction for the header never underflows, and a round with something to send offers something |
| `WebClients.WebClient.constructor` | src/web.c:42-55 | a new client has an empty buffer |
| `WebClients.WebClient.BufferAdd` | src/web.c:90-105 | the text is appended and counted; a NULL text changes nothing and gives -1 |
| `WebClients.WebClient.BufferWrite` | src/web.c:114-165 | one round sends at most 1024 bytes: the header only if no body has gone out, then the next part of the body; -1 with nothing changed exactly if a write fails, 0 with an emptied buffer when all has gone out, 1 otherwise |
| `ClientLoop.ServeAll` | src/main.c:369-395 | removing clients while stepping through the list with a size_t index that is stepped back serves each client once, in order, and keeps exactly those that did not fail |
| `ClientLoop.SurvivingAre` | src/main.c:402-425 | a client is kept if and only if it was there and did not fail |
| `ClientLoop.SurvivingSplits` | src/main.c:369-395 | the clients kept keep their order |
| `ClientLoop.Remove` | src/main.c:376-389 | removing a client closes the gap and leaves the index so that the next round takes the client that moved up |

## Left out

- CmcServers.CmcServer.HandleReceived: its contract gives the registry and the requests afterwards; what becomes of each array is in `HandleArrayLines` and, line by line, in `HandleLine`.
- Queues.Queue.PushMessage: the queue stores the value of the message; ownership and freeing of the C objects are not modelled, nor is a push on a queue whose only message has no words, where the original compares with a NULL text.
- Messages.Message.ComposeText: text is built as a character sequence; the sizes handed to realloc on the way (one is a byte short, `src/message.c:157`) are not modelled.
- Sorting.QSort: a stable insertion stands for the C library's qsort; every use relies only on getting a sorted permutation.
- WebClients.WebClient.BufferWrite: the results of the two writes are parameters; a failing snprintf or realloc is not modelled.
- CorrelatorArray.CorrArray.Activate: the sensor list is a sequence of lines; opening the file and the splitting of lines longer than the buffer are not modelled. A printf format in the list has one `%02d` or no conversion, as in the shipped list.
- CorrelatorArray.CorrArray.MarkFine: whether something was heard in the last minute is a parameter; so is the minute between polls in the select loop.
- CorrelatorArray.CorrArray.HandleMonitorLine: the time of the last update and the flag that a mapping was received are not modelled; lines that the original reads through a NULL or beyond a string's end are excluded by its precondition.
- CorrelatorArray.CorrArray.constructor: the time of the last update and the flag that a mapping was received are not modelled.
- SensorObjects.Host.constructor: the host's type, number and input stream, which only the pages show, are not modelled.
- SensorObjects.Team.SetHostSerial: a host number at or above the number of antennas, which the original uses as an index without a check (`src/team.c:136-142`), is excluded by its precondition.
- Mapping.AssignSerials: so are mapping texts with such a host number (`Mapping.Legible`), whose effect in the original is undefined.
- Mapping.ReadRecord: likewise for one record.
- Mapping.LastRecordWins: likewise.
- ArraySensors.SensorLists.AddToHost: teams of types other than f and x, which the original would create, are excluded.
- CmcAggregators.CmcAggregator.constructor: sizes for which the comparator is no total preorder, for which qsort promises nothing, are excluded.
- CorrelatorArray.CorrArray.HandleControlLine: input-labelling (strtok into the hosts' input streams) is ignored.
- The file descriptors, select sets, katcl buffers and connecting itself.
- Teams of types other than f and x, and the wrappers that only pass a lookup on (`team_get_sensor_status`, `array_get_sensor_value`, `array_get_sensor_status`).
- Names that contain a NUL, and numbers that overflow atoi.
- HTML pages and summaries, parsing of web requests, `src/html.c`, `src/utils.c`, logging, signals, command line, configuration of servers, and the commented-out search for stagnant sensors.
- Failure of malloc and realloc, and what is freed when.
