/** All runs of a CMC server connection (src/cmc_server.c, stepped by the select loop of src/main.c)
    against a peer that answers each request it has received once, in order, with informs in between. */
module CmcRuns {
  import opened Text
  import opened Messages
  import opened Queues
  import opened Connections
  import opened Cmc

  /** What the peer has sent and the server has not handled: an answer, with the request it is for, or an inform. */
  datatype Item = Answered(request: Msg, code: string) | Informed(line: Line)

  /** wire holds the requests sent and not answered. The rest is history: the requests that entered the
      queue, the requests the peer granted as far as handled, the names announced since the last poll
      and since the last array-list request, and those of the latter that came before a poll. */
  datatype System = System(
    server: Server, wire: seq<Msg>, inbox: seq<Item>,
    accepted: seq<Msg>, granted: seq<Msg>,
    announced: set<string>, listed: set<string>, early: set<string>)

  datatype Step =
    | Poll
    | Reconnect
    | Connect(success: bool)
    | Drop
    | Write
    | PeerAnswers(code: string)
    | PeerInforms(line: Line)
    | Handle

  function Initial(): System {
    System(Created(), [], [], [LOG_OFF, CLIENT_CONFIG, ARRAY_LIST, RESOURCE_LIST], [], {}, {}, {})
  }

  function LineOf(item: Item): Line
    requires item.Answered? ==> item.request.words != []
  {
    match item
    case Answered(request, code) => Answer(request, code)
    case Informed(line) => line
  }

  /** The front item can be handled without looking behind a NULL pointer. */
  predicate Handleable(s: System) {
    s.inbox != [] && (s.inbox[0].Answered? ==> s.inbox[0].request.words != []) && Readable(s.server, LineOf(s.inbox[0]))
  }

  function Handled(s: System): System
    requires Handleable(s)
  {
    var item, line := s.inbox[0], LineOf(s.inbox[0]);
    var rest := s.(server := LineHandled(s.server, line), inbox := s.inbox[1..]);
    match item
    case Answered(request, code) => if code == "ok" then rest.(granted := s.granted + [request]) else rest
    case Informed(_) =>
      if ArrayInform(line) then rest.(announced := s.announced + {line[1]}, listed := s.listed + {line[1]}) else rest
  }

  function Apply(s: System, step: Step): System {
    match step
    case Poll =>
      if !Online(s.server) then s
      else
        var queue := Push(Push(s.server.queue, ARRAY_LIST), RESOURCE_LIST);
        s.(server := Polled(s.server), accepted := s.accepted + queue[|s.server.queue|..],
           announced := {}, early := s.listed)
    case Reconnect => s.(server := Reconnecting(s.server))
    case Connect(success) =>
      if s.server.state == WaitConnect && success then s.(server := Connected(s.server, true), wire := [], inbox := [])
      else s.(server := Connected(s.server, success))
    case Drop => s.(server := Dropped(s.server))
    case Write =>
      var after := Written(s.server);
      if after == s.server then s
      else if s.server.current.value == ARRAY_LIST then
        s.(server := after, wire := s.wire + [s.server.current.value], listed := {}, early := {})
      else s.(server := after, wire := s.wire + [s.server.current.value])
    case PeerAnswers(code) =>
      if s.wire == [] then s else s.(wire := s.wire[1..], inbox := s.inbox + [Answered(s.wire[0], code)])
    case PeerInforms(line) =>
      if line != [] && line[0] != "" && line[0][0] == '#' then s.(inbox := s.inbox + [Informed(line)]) else s
    case Handle =>
      if Online(s.server) && Handleable(s) then Handled(s) else s
  }

  function Run(s: System, steps: seq<Step>): System {
    if steps == [] then s else Apply(Run(s, steps[..|steps| - 1]), steps[|steps| - 1])
  }

  // ---- The invariant ----

  function Requests(items: seq<Item>): seq<Msg> {
    if items == [] then []
    else (if items[0].Answered? then [items[0].request] else []) + Requests(items[1..])
  }

  lemma {:induction false} RequestsAppend(items: seq<Item>, item: Item)
    ensures Requests(items + [item]) == Requests(items) + if item.Answered? then [item.request] else []
  {
    if items == [] {
      assert [item][1..] == [];
    } else {
      RequestsAppend(items[1..], item);
      assert (items + [item])[1..] == items[1..] + [item];
    }
  }

  function InFlight(s: System): seq<Msg> {
    Requests(s.inbox) + s.wire
  }

  function Current(c: Server): seq<Msg> {
    if c.current.Some? then [c.current.value] else []
  }

  /** What is still to be acknowledged, in order. */
  function Pending(c: Server): seq<Msg> {
    Current(c) + c.queue
  }

  /** While online there is one request in flight exactly while waiting: the current one. */
  ghost predicate OneInFlight(s: System) {
    Online(s.server) ==>
      if s.server.state == AwaitReply then s.server.current.Some? && InFlight(s) == Current(s.server)
      else InFlight(s) == []
  }

  const VOCABULARY := {CLIENT_CONFIG, ARRAY_LIST, RESOURCE_LIST}

  ghost predicate Tidy(c: Server) {
    && Sendable(c.queue) && Distinct(c.queue) && (forall m :: m in c.queue ==> m in VOCABULARY)
    && (c.current.Some? ==> c.current.value.words != [])
    && (c.current.None? ==> c.queue == [])
    && (c.state == Idle ==> c.current.None?)
    && (c.state == AwaitReply ==> c.current.Some?)
  }

  ghost predicate Registered(s: System) {
    SortedByName(s.server.arrays) && ActiveNames(s.server.arrays) == s.announced
  }

  ghost predicate Orderly(s: System) {
    && OneInFlight(s) && Tidy(s.server) && Registered(s)
    && s.accepted == s.granted + Pending(s.server)
    && s.early <= s.listed <= s.early + s.announced
  }

  lemma DistinctTexts()
    ensures Compose(CLIENT_CONFIG) != Compose(ARRAY_LIST) && Compose(CLIENT_CONFIG) != Compose(RESOURCE_LIST)
    ensures Compose(ARRAY_LIST) != Compose(RESOURCE_LIST)
    ensures Compose(LOG_OFF) != Compose(CLIENT_CONFIG) && Compose(LOG_OFF) != Compose(ARRAY_LIST)
    ensures Compose(LOG_OFF) != Compose(RESOURCE_LIST)
  {
    ComposeInjective(CLIENT_CONFIG, ARRAY_LIST);
    ComposeInjective(CLIENT_CONFIG, RESOURCE_LIST);
    ComposeInjective(ARRAY_LIST, RESOURCE_LIST);
    ComposeInjective(LOG_OFF, CLIENT_CONFIG);
    ComposeInjective(LOG_OFF, ARRAY_LIST);
    ComposeInjective(LOG_OFF, RESOURCE_LIST);
  }

  lemma CreatedIs()
    ensures Created() == Server(WaitConnect, Some(LOG_OFF), [CLIENT_CONFIG, ARRAY_LIST, RESOURCE_LIST], [], NO_SKARABS)
  {
    var ms := [LOG_OFF, CLIENT_CONFIG, ARRAY_LIST, RESOURCE_LIST];
    DistinctTexts();
    assert ms[..3] == [LOG_OFF, CLIENT_CONFIG, ARRAY_LIST] && ms[..3][..2] == [LOG_OFF, CLIENT_CONFIG];
    assert ms[..3][..2][..1] == [LOG_OFF] && [LOG_OFF][..0] == [];
    assert PushAll([], [LOG_OFF]) == [LOG_OFF];
    assert PushAll([], ms[..3][..2]) == [LOG_OFF, CLIENT_CONFIG];
    assert PushAll([], ms[..3]) == [LOG_OFF, CLIENT_CONFIG, ARRAY_LIST];
    assert PushAll([], ms) == ms;
  }

  lemma InitialIsOrderly()
    ensures Orderly(Initial())
  {
    CreatedIs();
    DistinctTexts();
    assert Initial().accepted == [] + Pending(Created());
  }

  // ---- Every step keeps it ----

  lemma PushedWithin(q: seq<Msg>, m: Msg)
    requires Sendable(q) && Distinct(q) && (forall x :: x in q ==> x in VOCABULARY) && m in VOCABULARY
    ensures var after := Push(q, m);
      Sendable(after) && Distinct(after) && (forall x :: x in after ==> x in VOCABULARY) && q <= after && after != []
  {
    PushKeepsDistinct(q, m);
  }

  /** A poll appends what was not waiting yet, and gives an idle server its next request. */
  lemma PolledServer(c: Server)
    requires Tidy(c) && Online(c)
    ensures var after, q := Polled(c), Push(Push(c.queue, ARRAY_LIST), RESOURCE_LIST);
      && Tidy(after) && c.queue <= q && Pending(after) == Pending(c) + q[|c.queue|..]
      && Online(after) && (after.state == AwaitReply <==> c.state == AwaitReply)
      && (c.current.Some? ==> after.current == c.current)
      && after.arrays == MarkedSuspect(c.arrays)
  {
    var q1 := Push(c.queue, ARRAY_LIST);
    var q2 := Push(q1, RESOURCE_LIST);
    PushedWithin(c.queue, ARRAY_LIST);
    PushedWithin(q1, RESOURCE_LIST);
    hide Push;
    assert q2 == c.queue + q2[|c.queue|..];
    if c.current.None? {
      assert q2 == [q2[0]] + q2[1..];
    }
  }

  lemma {:induction false} PollKeeps(s: System)
    requires Orderly(s)
    ensures Orderly(Apply(s, Poll))
  {
    hide Tidy, Polled, MarkedSuspect, Push, SortedByName, ActiveNames, Pending, Requests;
    if Online(s.server) {
      PolledServer(s.server);
      MarkedNames(s.server.arrays);
    }
  }

  lemma WriteKeeps(s: System)
    requires Orderly(s)
    ensures Orderly(Apply(s, Write))
  {
    hide SortedByName, ActiveNames, Sendable, Distinct;
  }

  lemma ConnectionKeeps(s: System, success: bool)
    requires Orderly(s)
    ensures Orderly(Apply(s, Reconnect)) && Orderly(Apply(s, Connect(success))) && Orderly(Apply(s, Drop))
  {
    hide SortedByName, ActiveNames, Sendable, Distinct;
    assert Requests([]) == [];
  }

  lemma PeerKeeps(s: System, code: string, line: Line)
    requires Orderly(s)
    ensures Orderly(Apply(s, PeerAnswers(code))) && Orderly(Apply(s, PeerInforms(line)))
  {
    hide Tidy, SortedByName, ActiveNames, Requests, Pending;
    if s.wire != [] {
      RequestsAppend(s.inbox, Answered(s.wire[0], code));
      assert s.wire == [s.wire[0]] + s.wire[1..];
      assert InFlight(Apply(s, PeerAnswers(code))) == InFlight(s);
    }
    RequestsAppend(s.inbox, Informed(line));
    assert InFlight(s) == InFlight(s.(inbox := s.inbox + [Informed(line)]));
  }

  lemma InformKeeps(s: System)
    requires Orderly(s) && Online(s.server) && Handleable(s) && s.inbox[0].Informed?
    requires !IsReply(s.inbox[0].line)
    ensures Orderly(Handled(s))
  {
    var line := s.inbox[0].line;
    assert InFlight(Handled(s)) == InFlight(s);
    if ArrayInform(line) {
      AnnouncedNames(s.server.arrays, EntryFrom(line));
    }
  }

  /** An answer meets the request it was given for. */
  lemma AnswerMeetsRequest(s: System)
    requires Orderly(s) && Online(s.server) && s.inbox != [] && s.inbox[0].Answered?
    ensures s.server.state == AwaitReply && s.server.current == Some(s.inbox[0].request)
    ensures Handleable(s) && Requests(s.inbox[1..]) == [] && s.wire == []
    ensures var line := LineOf(s.inbox[0]); IsReply(line) && line[0][1..] == s.server.current.value.words[0]
  {
    assert Requests(s.inbox) == [s.inbox[0].request] + Requests(s.inbox[1..]);
    assert InFlight(s)[0] == s.inbox[0].request;
    var line := LineOf(s.inbox[0]);
    assert line[0][1..] == s.server.current.value.words[0];
    assert line[0][0] == '!' && "#array-list"[0] == '#' && "#resource-list"[0] == '#';
  }

  /** "ok" settles the current request; anything else leaves it to be sent again. */
  lemma RepliedServer(c: Server, line: Line)
    requires Tidy(c) && c.state == AwaitReply
    requires IsReply(line) && |line| >= 2 && line[0][1..] == c.current.value.words[0]
    ensures var after := ReplyHandled(c, line);
      && Tidy(after) && Online(after) && after.state != AwaitReply
      && Pending(c) == [c.current.value] + c.queue
      && Pending(after) == (if line[1] == "ok" then c.queue else Pending(c))
      && (after.arrays == c.arrays || after.arrays == Swept(c.arrays))
      && (line[1] == "ok" && c.queue == [] ==> after.state == Idle)
      && (line[1] == "ok" && c.queue != [] ==> after.state == SendNext && after.current.Some?)
  {
    hide Swept, Compose;
  }

  lemma ReplySettled(s: System, next: Server, ok: bool)
    requires Orderly(s) && Online(s.server) && s.server.current.Some? && s.inbox != []
    requires Requests(s.inbox[1..]) == [] && s.wire == []
    requires Tidy(next) && Online(next) && next.state != AwaitReply
    requires SortedByName(next.arrays) && ActiveNames(next.arrays) == ActiveNames(s.server.arrays)
    requires Pending(s.server) == [s.server.current.value] + s.server.queue
    requires Pending(next) == (if ok then s.server.queue else Pending(s.server))
    ensures Orderly(s.(server := next, inbox := s.inbox[1..],
                       granted := if ok then s.granted + [s.server.current.value] else s.granted))
  {
    hide Tidy, Pending, SortedByName, ActiveNames;
    var request := s.server.current.value;
    assert s.granted + ([request] + s.server.queue) == (s.granted + [request]) + s.server.queue;
  }

  lemma ReplyKeeps(s: System)
    requires Orderly(s) && Online(s.server) && s.inbox != [] && s.inbox[0].Answered?
    ensures Handleable(s) && Orderly(Handled(s))
  {
    hide Pending, ReplyHandled, Swept, SortedByName, ActiveNames;
    AnswerMeetsRequest(s);
    var line := LineOf(s.inbox[0]);
    var next := ReplyHandled(s.server, line);
    RepliedServer(s.server, line);
    SweptNames(s.server.arrays);
    ReplySettled(s, next, line[1] == "ok");
    hide Orderly;
    assert Handled(s) == s.(server := next, inbox := s.inbox[1..],
                            granted := if line[1] == "ok" then s.granted + [s.inbox[0].request] else s.granted);
  }

  /** Lines put on the wire by the peer as informs really are informs. */
  ghost predicate InformsOnly(s: System) {
    forall i :: 0 <= i < |s.inbox| && s.inbox[i].Informed? ==> s.inbox[i].line != [] && !IsReply(s.inbox[i].line)
  }

  lemma StepKeepsInforms(s: System, step: Step)
    requires InformsOnly(s)
    ensures InformsOnly(Apply(s, step))
  {
  }

  lemma StepKeeps(s: System, step: Step)
    requires Orderly(s) && InformsOnly(s)
    ensures Orderly(Apply(s, step)) && InformsOnly(Apply(s, step))
  {
    StepKeepsInforms(s, step);
    hide Orderly, InformsOnly, Apply;
    match step {
      case Poll => PollKeeps(s);
      case Reconnect => ConnectionKeeps(s, true);
      case Connect(success) => ConnectionKeeps(s, success);
      case Drop => ConnectionKeeps(s, true);
      case Write => WriteKeeps(s);
      case PeerAnswers(code) => PeerKeeps(s, code, []);
      case PeerInforms(line) => PeerKeeps(s, "", line);
      case Handle => HandleKeeps(s);
    }
  }

  lemma HandleKeeps(s: System)
    requires Orderly(s) && InformsOnly(s)
    ensures Orderly(Apply(s, Handle))
  {
    if Online(s.server) && Handleable(s) {
      if s.inbox[0].Informed? {
        InformKeeps(s);
      } else {
        ReplyKeeps(s);
      }
    }
  }

  lemma {:induction false} RunKeeps(s: System, steps: seq<Step>)
    requires Orderly(s) && InformsOnly(s)
    ensures Orderly(Run(s, steps)) && InformsOnly(Run(s, steps))
  {
    if steps == [] {
    } else {
      RunKeeps(s, steps[..|steps| - 1]);
      StepKeeps(Run(s, steps[..|steps| - 1]), steps[|steps| - 1]);
    }
  }

  // ---- Main results ----

  /** Exactly once and in order: in every run the requests accepted are those granted, then the current
      one, then the queue. */
  lemma {:induction false} ExactlyOnceInOrder(steps: seq<Step>)
    ensures var s := Run(Initial(), steps); s.accepted == s.granted + Pending(s.server)
  {
    InitialIsOrderly();
    RunKeeps(Initial(), steps);
  }

  /** In every run, while online, at most one request is in flight, and it is the current one. */
  lemma {:induction false} OneOutstandingRequest(steps: seq<Step>)
    ensures var s := Run(Initial(), steps);
      && OneInFlight(s)
      && (s.server.state == Idle ==> s.server.current.None?) && (s.server.current.None? ==> s.server.queue == [])
  {
    InitialIsOrderly();
    RunKeeps(Initial(), steps);
  }

  /** In every run, while online, an answer about to be handled is the answer to the current request. */
  lemma {:induction false} AnswersMeetTheirRequest(steps: seq<Step>)
    ensures var s := Run(Initial(), steps);
      Online(s.server) && s.inbox != [] && s.inbox[0].Answered? ==>
        s.server.state == AwaitReply && s.server.current == Some(s.inbox[0].request) && Handleable(s)
  {
    InitialIsOrderly();
    RunKeeps(Initial(), steps);
    var s := Run(Initial(), steps);
    if Online(s.server) && s.inbox != [] && s.inbox[0].Answered? {
      AnswerMeetsRequest(s);
    }
  }

  /** However often the server is polled, at most three requests wait behind the current one. */
  lemma QueueIsShort(steps: seq<Step>)
    ensures |Run(Initial(), steps).server.queue| <= 3
  {
    InitialIsOrderly();
    RunKeeps(Initial(), steps);
    DistinctBound(Run(Initial(), steps).server.queue, VOCABULARY);
  }

  /** In every run the arrays that are not suspect are those announced since the last poll, and the list
      is strictly sorted by name, so no name occurs twice. */
  lemma RegistryFollowsAnnouncements(steps: seq<Step>)
    ensures var s := Run(Initial(), steps); Registered(s)
  {
    InitialIsOrderly();
    RunKeeps(Initial(), steps);
  }

  ghost predicate AboutToSweep(s: System) {
    Online(s.server) && s.inbox != [] && s.inbox[0].Answered? && s.inbox[0].request == ARRAY_LIST
  }

  /** In every run, handling an answer to array-list, granted or not, leaves exactly the sorted listing of
      the names announced since the last poll. */
  lemma SweepLeavesAnnounced(steps: seq<Step>, listing: seq<Entry>)
    requires AboutToSweep(Run(Initial(), steps))
    requires SortedByName(listing) && AllNames(listing) == Run(Initial(), steps).announced
    ensures var s := Run(Initial(), steps);
      && Handleable(s)
      && |Handled(s).server.arrays| == |listing|
      && (forall k :: 0 <= k < |listing| ==>
          Handled(s).server.arrays[k].name == listing[k].name && Handled(s).server.arrays[k].active)
  {
    InitialIsOrderly();
    RunKeeps(Initial(), steps);
    var s := Run(Initial(), steps);
    SweptArrays(s);
    SweptIsFilter(s.server.arrays);
    var after := Handled(s).server.arrays;
    SortedListingUnique(after, listing);
    forall k | 0 <= k < |after|
      ensures after[k].active
    {
      assert after[k] in after;
    }
  }

  lemma SweptArrays(s: System)
    requires Orderly(s) && AboutToSweep(s)
    ensures Handleable(s) && Handled(s).server.arrays == Swept(s.server.arrays)
    ensures SortedByName(Handled(s).server.arrays) && AllNames(Handled(s).server.arrays) == s.announced
  {
    AnswerMeetsRequest(s);
    SweptNames(s.server.arrays);
    assert ARRAY_LIST.words[0] == "array-list";
    hide Orderly, SortedByName, AllNames, ActiveNames;
  }

  /** In every run, an answer to array-list keeps every array that the peer has listed for it exactly
      when all those listed before the last poll were listed again after it. */
  lemma ListingSurvives(steps: seq<Step>)
    requires AboutToSweep(Run(Initial(), steps))
    ensures var s := Run(Initial(), steps);
      Handleable(s) && (s.listed <= AllNames(Handled(s).server.arrays) <==> s.early <= s.announced)
  {
    InitialIsOrderly();
    RunKeeps(Initial(), steps);
    SweptArrays(Run(Initial(), steps));
  }

  lemma RunSnoc(s: System, steps: seq<Step>, step: Step)
    ensures Run(s, steps + [step]) == Apply(Run(s, steps), step)
  {
    assert (steps + [step])[..|steps|] == steps;
  }

  lemma RunThree(s: System, steps: seq<Step>, a: Step, b: Step, c: Step)
    ensures Run(s, steps + [a, b, c]) == Apply(Apply(Apply(Run(s, steps), a), b), c)
  {
    hide Run, Apply;
    RunSnoc(s, steps, a);
    RunSnoc(s, steps + [a], b);
    RunSnoc(s, steps + [a] + [b], c);
    assert steps + [a] + [b] + [c] == steps + [a, b, c];
  }

  const EXCHANGE := [Write, PeerAnswers("ok"), Handle]

  /** The start of every run that goes well, up to the first array-list request. */
  const UP_TO_LISTING := [] + [Connect(true)] + EXCHANGE + EXCHANGE + [Write]

  lemma ConnectedIsReady()
    ensures var s := Apply(Initial(), Connect(true));
      Ready(s) && s.server.queue == [CLIENT_CONFIG, ARRAY_LIST, RESOURCE_LIST]
  {
    CreatedIs();
    InitialIsOrderly();
    StepKeeps(Initial(), Connect(true));
    hide Orderly, InformsOnly;
  }

  lemma SecondExchange()
    ensures var s := Exchange(Exchange(Apply(Initial(), Connect(true))));
      Ready(s) && s.server.current == Some(ARRAY_LIST)
  {
    ConnectedIsReady();
    hide Ready, Exchange, Apply, Orderly;
    var s0 := Apply(Initial(), Connect(true));
    ExchangeSettlesOne(s0);
    var s1 := Exchange(s0);
    ExchangeSettlesOne(s1);
    var s2 := Exchange(s1);
    assert s1.server.current.Some? && s2.server.current.Some? by {
      SettledCurrent(s1);
      SettledCurrent(s2);
    }
    assert Pending(s1.server)[1..] == s1.server.queue && Pending(s2.server)[0] == s2.server.current.value;
  }

  lemma SettledCurrent(s: System)
    requires Ready(s)
    ensures s.server.current.Some?
  {
  }

  lemma ListingReached() returns (s: System)
    ensures s == Run(Initial(), UP_TO_LISTING)
    ensures Orderly(s) && InformsOnly(s) && s.server.state == AwaitReply && s.server.current == Some(ARRAY_LIST)
    ensures s.wire == [ARRAY_LIST] && s.inbox == []
  {
    SecondExchange();
    var s2 := Exchange(Exchange(Apply(Initial(), Connect(true))));
    assert Exchange(Exchange(Apply(Initial(), Connect(true))))
        == Run(Initial(), [] + [Connect(true)] + EXCHANGE + EXCHANGE) by {
      hide Apply, Orderly, Ready, Initial;
      RunSnoc(Initial(), [], Connect(true));
      RunThree(Initial(), [] + [Connect(true)], Write, PeerAnswers("ok"), Handle);
      RunThree(Initial(), [] + [Connect(true)] + EXCHANGE, Write, PeerAnswers("ok"), Handle);
    }
    RunSnoc(Initial(), [] + [Connect(true)] + EXCHANGE + EXCHANGE, Write);
    s := Apply(s2, Write);
    StepKeeps(s2, Write);
    CurrentSent(s2);
    hide *;
  }

  lemma CurrentSent(s: System)
    requires Ready(s)
    ensures var after := Apply(s, Write);
      && after.server == s.server.(state := AwaitReply) && after.accepted == s.accepted
      && after.wire == [s.server.current.value] && after.inbox == []
  {
  }

  /** A run in which a poll falls between an array's announcement and the reply: the reply, granted or not,
      removes the array, although the peer has just listed it. */
  lemma PollDuringListingDropsArray(line: Line, code: string)
    requires ArrayInform(line)
    ensures var steps := UP_TO_LISTING + [PeerInforms(line), Handle, Poll] + [PeerAnswers(code)] + [Handle];
      var after := Run(Initial(), steps);
      line[1] in after.listed && AllNames(after.server.arrays) == {}
  {
    var s := ListingReached();
    RunThree(Initial(), UP_TO_LISTING, PeerInforms(line), Handle, Poll);
    RunSnoc(Initial(), UP_TO_LISTING + [PeerInforms(line), Handle, Poll], PeerAnswers(code));
    RunSnoc(Initial(), UP_TO_LISTING + [PeerInforms(line), Handle, Poll] + [PeerAnswers(code)], Handle);
    PollAfterAnnouncement(s, line, code);
    hide Apply, Orderly, InformsOnly, Run;
  }

  lemma {:induction false} PollAfterAnnouncement(s: System, line: Line, code: string)
    requires Orderly(s) && InformsOnly(s) && s.server.state == AwaitReply && s.server.current == Some(ARRAY_LIST)
    requires s.wire == [ARRAY_LIST] && s.inbox == [] && ArrayInform(line)
    ensures var polled := Apply(Apply(Apply(s, PeerInforms(line)), Handle), Poll);
      var after := Apply(Apply(polled, PeerAnswers(code)), Handle);
      line[1] in after.listed && AllNames(after.server.arrays) == {}
  {
    hide Orderly, InformsOnly, Polled, LineHandled;
    assert line[0][0] == '#';
    var s1 := Apply(s, PeerInforms(line));
    assert s1.inbox == [Informed(line)] && s1.server == s.server && s1.wire == s.wire;
    StepKeeps(s, PeerInforms(line));
    ListedThenPolled(s1, line);
    var s3 := Apply(Apply(s1, Handle), Poll);
    var s4 := Apply(s3, PeerAnswers(code));
    assert s4.inbox == [Answered(ARRAY_LIST, code)] && s4.server == s3.server && s4.announced == {};
    StepKeeps(s3, PeerAnswers(code));
    EmptySweep(s4);
  }

  lemma {:induction false} ListedThenPolled(s: System, line: Line)
    requires Orderly(s) && InformsOnly(s) && s.server.state == AwaitReply && s.server.current == Some(ARRAY_LIST)
    requires s.wire == [ARRAY_LIST] && s.inbox == [Informed(line)] && ArrayInform(line)
    ensures var after := Apply(Apply(s, Handle), Poll);
      && Orderly(after) && InformsOnly(after) && after.announced == {} && line[1] in after.listed
      && after.wire == [ARRAY_LIST] && after.inbox == [] && Online(after.server)
  {
    assert Handleable(s);
    var s1 := Apply(s, Handle);
    assert s1.inbox == [] && s1.wire == s.wire && s1.server.state == AwaitReply && line[1] in s1.listed;
    StepKeeps(s, Handle);
    StepKeeps(s1, Poll);
    PolledServer(s1.server);
  }

  lemma EmptySweep(s: System)
    requires Orderly(s) && AboutToSweep(s) && s.announced == {}
    ensures AllNames(Apply(s, Handle).server.arrays) == {} && Apply(s, Handle).listed == s.listed
  {
    SweptArrays(s);
  }

  /** One exchange: the current request is sent, granted and acknowledged. */
  function Exchange(s: System): System {
    Apply(Apply(Apply(s, Write), PeerAnswers("ok")), Handle)
  }

  function Exchanges(s: System, n: nat): System
    decreases n
  {
    if n == 0 then s else Exchanges(Exchange(s), n - 1)
  }

  ghost predicate Ready(s: System) {
    Orderly(s) && InformsOnly(s) && s.server.state == SendNext && s.server.current.Some? && s.inbox == []
  }

  lemma SentAndAnswered(s: System)
    requires Ready(s)
    ensures var after := Apply(Apply(s, Write), PeerAnswers("ok"));
      && Orderly(after) && InformsOnly(after)
      && after.server == s.server.(state := AwaitReply)
      && after.inbox == [Answered(s.server.current.value, "ok")] && after.accepted == s.accepted
  {
    var s1 := Apply(s, Write);
    CurrentSent(s);
    StepKeeps(s, Write);
    hide Ready, Orderly, InformsOnly, Tidy;
    StepKeeps(s1, PeerAnswers("ok"));
    assert s1.inbox + [Answered(s1.wire[0], "ok")] == [Answered(s.server.current.value, "ok")];
  }

  lemma {:induction false} GrantedAndHandled(s: System)
    requires Orderly(s) && InformsOnly(s) && s.server.state == AwaitReply && s.server.current.Some?
    requires s.inbox == [Answered(s.server.current.value, "ok")]
    ensures var after := Apply(s, Handle);
      && Orderly(after) && InformsOnly(after) && after.inbox == [] && after.accepted == s.accepted
      && Pending(after.server) == s.server.queue && |Pending(s.server)| == 1 + |s.server.queue|
      && (if s.server.queue == [] then after.server.state == Idle
          else after.server.state == SendNext && after.server.current.Some?)
  {
    StepKeeps(s, Handle);
    AnswerMeetsRequest(s);
    AnswerHandled(s);
    assert Tidy(s.server);
    hide Orderly, InformsOnly, Tidy, Pending, ReplyHandled, Readable, Apply, OneInFlight, Registered;
    RepliedServer(s.server, LineOf(s.inbox[0]));
  }

  lemma AnswerHandled(s: System)
    requires Handleable(s) && Online(s.server) && s.inbox[0].Answered?
    ensures var after, line := Apply(s, Handle), LineOf(s.inbox[0]);
      IsReply(line) && |line| >= 2 && s.server.current.Some? && s.server.current.value.words != []
      && after.server == ReplyHandled(s.server, line) && after.inbox == s.inbox[1..] && after.accepted == s.accepted
  {
    assert LineOf(s.inbox[0])[0][0] == '!';
    hide ReplyHandled;
  }

  lemma ExchangeSettlesOne(s: System)
    requires Ready(s)
    ensures var after := Exchange(s);
      && Orderly(after) && after.accepted == s.accepted
      && Pending(after.server) == s.server.queue && |Pending(s.server)| == 1 + |s.server.queue|
      && (if s.server.queue == [] then after.server.state == Idle else Ready(after))
  {
    hide Orderly, InformsOnly, Apply;
    SentAndAnswered(s);
    GrantedAndHandled(Apply(Apply(s, Write), PeerAnswers("ok")));
  }

  /** From any state of any run that is ready to send, a peer that grants brings the server to
      monitoring in as many exchanges as there are requests, with everything accepted also granted. */
  lemma {:induction false} ExchangesReachIdle(s: System)
    requires Ready(s)
    ensures var after := Exchanges(s, |Pending(s.server)|);
      after.server.state == Idle && after.accepted == after.granted == s.accepted
    decreases |Pending(s.server)|
  {
    ExchangeSettlesOne(s);
    var after := Exchange(s);
    if s.server.queue != [] {
      hide Ready, Exchange, Orderly;
      ExchangesReachIdle(after);
    } else {
      assert after.accepted == after.granted + Pending(after.server);
      hide Exchange, Orderly;
      assert Exchanges(s, 1) == Exchanges(after, 0) == after;
    }
  }
}
