/** src/web.c: the buffer of a web client and how it is written out in pieces. */
module WebClients {
  import opened Text

  const BUF_SIZE: nat := 1024
  const SSIZE_LIMIT: nat := 0x8000_0000_0000_0000

  const HEADER_FRONT := "HTTP/1.1 200 OK\nContent-Length: "
  const HEADER_BACK := "\nConnection: close\n\n"

  lemma {:induction false} DecimalLength(n: nat, digits: nat)
    requires digits > 0 && n < Power10(digits)
    ensures |Decimal(n)| <= digits
  {
    if n < 10 {
    } else {
      assert digits > 1;
      DecimalLength(n / 10, digits - 1);
    }
  }

  lemma LengthDigits(n: nat)
    requires n < SSIZE_LIMIT
    ensures |Decimal(n)| <= 19
  {
    assert Power10(6) == 1_000_000;
    assert Power10(12) == 1_000_000_000_000;
    assert Power10(19) == 10_000_000_000_000_000_000;
    DecimalLength(n, 19);
  }

  /** Section 3.3.2 of RFC 7230: Content-Length is the size of the body in bytes. */
  function Header(length: nat): (h: string)
    requires length < SSIZE_LIMIT
    ensures 50 < |h| <= 71
  {
    LengthDigits(length);
    HEADER_FRONT + Decimal(length) + HEADER_BACK
  }

  /** The header reads as it should: the length that a client finds behind the literal text is the number
      of bytes announced, and a blank line ends it. */
  lemma HeaderReads(length: nat) returns (digits: string)
    requires length < SSIZE_LIMIT
    ensures Header(length) == "HTTP/1.1 200 OK\nContent-Length: " + digits + "\nConnection: close\n\n"
    ensures (forall c :: c in digits ==> '0' <= c <= '9') && Atoi(digits) == length
    ensures Atoi(digits + "\nConnection: close\n\n") == length
  {
    digits := Decimal(length);
    NumberRead(length, "\nConnection: close\n\n");
    NumberRead(length, "");
    assert forall c :: c in digits ==> IsDigit(c);
    hide Decimal, Atoi;
  }

  datatype Client = Client(buffer: string, available: nat, written: nat)

  predicate Consistent(c: Client) {
    |c.buffer| == c.available < SSIZE_LIMIT && c.written <= c.available
  }

  predicate HaveBuffer(c: Client) {
    c.available > c.written
  }

  function Added(c: Client, text: string): Client {
    c.(buffer := c.buffer + text, available := c.available + |text|)
  }

  /** What write returns for n bytes on a socket with room for some more, or -1 on an error. */
  function WriteResult(room: int, n: nat): int {
    if room < 0 then -1 else if room < n then room else n
  }

  /** One round: the code returned, and the bytes of header and body that went out. */
  datatype Round = Round(client: Client, code: int, header: string, body: string)

  /** How much of the body a round offers after so many bytes of header. */
  function BodySize(c: Client, headerBytes: nat): (n: nat)
    requires Consistent(c) && headerBytes <= 71
    ensures n <= c.available - c.written && (c.written == 0 ==> n + headerBytes <= BUF_SIZE) && n <= BUF_SIZE
    ensures HaveBuffer(c) ==> n > 0
  {
    var ready := c.available - c.written;
    var size := if ready > BUF_SIZE then BUF_SIZE else ready;
    if c.written == 0 && size + headerBytes > BUF_SIZE then size - headerBytes else size
  }

  /** A round offers 1024 bytes at most, and all that is left if it is no more; the first round takes the
      bytes of header off when both together would exceed it. */
  lemma RoundOffers(c: Client, headerBytes: nat)
    requires Consistent(c) && headerBytes <= 71
    ensures var left := c.available - c.written;
      var most := if left > 1024 then 1024 else left;
      BodySize(c, headerBytes) == most - if c.written == 0 && most + headerBytes > 1024 then headerBytes else 0
  {
  }

  class WebClient {
    var buffer: string
    var available: nat
    var written: nat

    function Value(): Client
      reads this
    {
      Client(buffer, available, written)
    }

    constructor ()
      ensures Value() == Client("", 0, 0)
    {
      buffer, available, written := "", 0, 0;
    }

    /** text is None for a NULL pointer. */
    method BufferAdd(text: Option<string>) returns (r: int)
      modifies this
      ensures Value() == if text.Some? then Added(old(Value()), text.value) else old(Value())
      ensures r == if text.Some? then 0 else -1
    {
      if text.None? {
        return -1;
      }
      buffer := buffer + text.value;
      available := available + |text.value|;
      r := 0;
    }

    /** One round on a writable socket. room1 and room2 say how the two writes come out. No round hands
        more than BUF_SIZE bytes to the socket, and the room left for the body never goes below zero. */
    method BufferWrite(room1: int, room2: int) returns (code: int, header: string, body: string)
      requires Consistent(Value())
      modifies this
      ensures Consistent(Value()) && Round(Value(), code, header, body) == Written(old(Value()), room1, room2)
      ensures |header| + |body| <= 1024
      ensures code == -1 <==> (old(written) == 0 && room1 < 0) || room2 < 0
      ensures code == -1 ==> Value() == old(Value()) && body == ""
      ensures code == 0 ==> Value() == Client("", 0, 0)
      ensures code == 1 ==> written == old(written) + |body| < available
    {
      header, body := "", "";
      var bytesReady := available - written;
      var bytesToWrite := if bytesReady > BUF_SIZE then BUF_SIZE else bytesReady;
      if written == 0 {
        hide Header;
        var message := Header(available);
        var r := WriteResult(room1, |message|);
        if r < 0 {
          return -1, header, body;
        }
        header := message[..r];
        if bytesToWrite + r > BUF_SIZE {
          assert bytesToWrite >= r;
          bytesToWrite := bytesToWrite - r;
        }
      }
      var r := WriteResult(room2, bytesToWrite);
      if r < 0 {
        return -1, header, body;
      }
      body := buffer[written..written + r];
      written := written + r;
      if written == available {
        buffer, available, written := "", 0, 0;
        return 0, header, body;
      }
      code := 1;
    }
  }

  function Written(c: Client, room1: int, room2: int): (round: Round)
    requires Consistent(c)
    ensures Consistent(round.client)
  {
    var headerBytes := if c.written == 0 then WriteResult(room1, |Header(c.available)|) else 0;
    if headerBytes < 0 then Round(c, -1, "", "")
    else
      var header := if c.written == 0 then Header(c.available)[..headerBytes] else "";
      var r := WriteResult(room2, BodySize(c, headerBytes));
      if r < 0 then Round(c, -1, header, "")
      else
        var body := c.buffer[c.written..c.written + r];
        if c.written + r == c.available then Round(Client("", 0, 0), 0, header, body)
        else Round(c.(written := c.written + r), 1, header, body)
  }

  // ---- Draining a response over many rounds ----

  /** The room that one round finds for its two writes. */
  datatype Room = Room(header: int, body: int)

  /** Neither write fails, and the body write takes something. */
  predicate Takes(room: Room) {
    room.header >= 0 && room.body > 0
  }

  /** Rounds go on while there is something in the buffer: what the client holds in the end, and all
      that went out. */
  function Drain(c: Client, rooms: seq<Room>): (r: (Client, string))
    requires Consistent(c)
    decreases |rooms|
  {
    if rooms == [] || !HaveBuffer(c) then (c, "")
    else
      var round := Written(c, rooms[0].header, rooms[0].body);
      var rest := Drain(round.client, rooms[1..]);
      (rest.0, round.header + round.body + rest.1)
  }

  /** What is left of the body. */
  function Rest(c: Client): string
    requires Consistent(c)
  {
    c.buffer[c.written..]
  }

  /** What a round sends of the header: nothing once some body has gone out, and what the first write
      does not take is never sent. */
  function HeaderSent(c: Client, room: Room): string
    requires Consistent(c)
  {
    if c.written > 0 || room.header < 0 then ""
    else Header(c.available)[..WriteResult(room.header, |Header(c.available)|)]
  }

  /** A round sends the next piece of the body, and not nothing. */
  lemma RoundSendsFront(c: Client, room: Room)
    requires Consistent(c) && HaveBuffer(c) && Takes(room)
    ensures var round := Written(c, room.header, room.body);
      && round.header == HeaderSent(c, room)
      && Rest(c) == round.body + Rest(round.client) && |round.body| > 0
      && round.client.available - round.client.written == c.available - c.written - |round.body|
      && round.code == (if HaveBuffer(round.client) then 1 else 0)
      && (HaveBuffer(round.client) ==> round.client.written > 0)
  {
    hide Header, BodySize;
    var message := Header(c.available);
    var headerBytes := if c.written == 0 then WriteResult(room.header, |message|) else 0;
    var r := WriteResult(room.body, BodySize(c, headerBytes));
    assert 0 < r <= c.available - c.written;
    hide WriteResult;
    var round := Written(c, room.header, room.body);
    assert round.body == c.buffer[c.written..c.written + r];
    assert round.client == if c.written + r == c.available then Client("", 0, 0) else c.(written := c.written + r);
    hide Written;
    Cut(c.buffer, c.written, c.written + r);
  }

  lemma Cut(buffer: string, from: nat, to: nat)
    requires from <= to <= |buffer|
    ensures buffer[from..] == buffer[from..to] + buffer[to..]
    ensures to == |buffer| ==> buffer[from..] == buffer[from..to] + ""
  {
  }

  /** Once some body has gone out, however short the writes are, what goes out is the rest of the body,
      and no more rounds are needed than there are bytes. */
  lemma {:induction false} DrainSendsBody(c: Client, rooms: seq<Room>)
    requires Consistent(c) && (HaveBuffer(c) ==> c.written > 0) && forall k :: 0 <= k < |rooms| ==> Takes(rooms[k])
    ensures Consistent(Drain(c, rooms).0)
    ensures Rest(c) == Drain(c, rooms).1 + Rest(Drain(c, rooms).0)
    ensures |rooms| >= c.available - c.written ==> !HaveBuffer(Drain(c, rooms).0) && Drain(c, rooms).1 == Rest(c)
    decreases |rooms|
  {
    if rooms == [] || !HaveBuffer(c) {
      assert Drain(c, rooms) == (c, "");
    } else {
      assert Takes(rooms[0]);
      RoundSendsFront(c, rooms[0]);
      var round := Written(c, rooms[0].header, rooms[0].body);
      assert round.header == "" && "" + round.body == round.body;
      hide Written, Rest, Takes, HeaderSent, HaveBuffer;
      DrainSendsBody(round.client, rooms[1..]);
      var rest := Drain(round.client, rooms[1..]);
      assert Drain(c, rooms) == (rest.0, round.body + rest.1);
      assert round.body + (rest.1 + Rest(rest.0)) == (round.body + rest.1) + Rest(rest.0);
    }
  }

  /** A response from its first round on: as much of the header as the first write takes, and then the
      body. */
  lemma {:induction false} DrainSendsResponse(c: Client, rooms: seq<Room>)
    requires Consistent(c) && HaveBuffer(c) && rooms != [] && forall k :: 0 <= k < |rooms| ==> Takes(rooms[k])
    ensures Consistent(Drain(c, rooms).0)
    ensures HeaderSent(c, rooms[0]) + Rest(c) == Drain(c, rooms).1 + Rest(Drain(c, rooms).0)
    ensures |rooms| >= c.available - c.written ==>
      !HaveBuffer(Drain(c, rooms).0) && Drain(c, rooms).1 == HeaderSent(c, rooms[0]) + Rest(c)
  {
    assert Takes(rooms[0]);
    RoundSendsFront(c, rooms[0]);
    var round := Written(c, rooms[0].header, rooms[0].body);
    var rest := Drain(round.client, rooms[1..]);
    assert Drain(c, rooms) == (rest.0, round.header + round.body + rest.1);
    assert |rooms[1..]| == |rooms| - 1;
    DrainSendsBody(round.client, rooms[1..]);
    hide *;
    Regroup(round.header, round.body, rest.1, Rest(rest.0));
  }

  lemma Regroup(a: string, b: string, c: string, d: string)
    ensures a + (b + (c + d)) == (a + b + c) + d && a + (b + c) == a + b + c
  {
  }

  /** What goes out when the first write takes the whole header: the literal header text around the size of
      the page in digits, a blank line, and the page. */
  lemma ResponseReads(page: string, rooms: seq<Room>) returns (digits: string)
    requires 0 < |page| < SSIZE_LIMIT && |rooms| >= |page| && forall k :: 0 <= k < |rooms| ==> Takes(rooms[k])
    requires rooms[0].header >= |Header(|page|)|
    ensures Drain(Client(page, |page|, 0), rooms).1
         == "HTTP/1.1 200 OK\nContent-Length: " + digits + "\nConnection: close\n\n" + page
    ensures (forall c :: c in digits ==> '0' <= c <= '9') && Atoi(digits) == |page|
  {
    WholeResponse(page, rooms);
    digits := HeaderReads(|page|);
    hide Drain, Header, Atoi;
  }

  /** A whole response, exactly the header announcing the length of the page and the page, goes out
      exactly when the first write takes the whole header: what it leaves is lost. */
  lemma {:induction false} WholeResponse(page: string, rooms: seq<Room>)
    requires 0 < |page| < SSIZE_LIMIT && |rooms| >= |page| && forall k :: 0 <= k < |rooms| ==> Takes(rooms[k])
    ensures Drain(Client(page, |page|, 0), rooms).1 == Header(|page|) + page <==> rooms[0].header >= |Header(|page|)|
  {
    var c, header := Client(page, |page|, 0), Header(|page|);
    assert Takes(rooms[0]);
    DrainSendsResponse(c, rooms);
    assert Rest(c) == page;
    var sent := HeaderSent(c, rooms[0]);
    assert |sent| == |header| <==> rooms[0].header >= |header|;
    assert |sent| == |header| ==> sent == header;
    assert |sent + page| == |header + page| <==> |sent| == |header|;
    hide Header, Drain, HeaderSent, Rest;
  }

  /** Text added while a response is under way is sent too, but was not announced: the body that goes out
      has the announced length exactly when nothing was added. */
  lemma AddingMidDrain(c: Client, text: string, rooms: seq<Room>)
    requires Consistent(c) && 0 < c.written < c.available && Consistent(Added(c, text))
    requires |rooms| >= c.available + |text| && forall k :: 0 <= k < |rooms| ==> Takes(rooms[k])
    ensures var sentBefore, sentAfter := c.buffer[..c.written], Drain(Added(c, text), rooms).1;
      && sentBefore + sentAfter == c.buffer + text
      && (|sentBefore + sentAfter| == c.available <==> text == "")
  {
    hide Drain, Header;
    DrainSendsBody(Added(c, text), rooms);
    assert c.buffer[..c.written] + (c.buffer + text)[c.written..] == c.buffer + text;
  }

  /** A first body write that takes nothing leaves the client as it was, so the header goes out again. */
  lemma EmptyFirstWriteRepeatsHeader(c: Client, room: Room)
    requires Consistent(c) && HaveBuffer(c) && c.written == 0 && room.header >= 0 && room.body >= 0
    ensures Written(c, room.header, room.body).header == HeaderSent(c, room)
    ensures Written(c, room.header, room.body).client == c <==> room.body == 0
  {
    var message := Header(c.available);
    hide Header;
    assert message[..|message|] == message;
  }
}
