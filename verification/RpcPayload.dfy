/** The event payloads of clWaitForEvents: the server's concatenation and the client's split (clrpcd.c, libclrpc.c). */
module RpcPayload {

  import opened Basics

  // ---- who registers how much

  /** The enqueue calls that leave an event: only reads and maps move bytes to the client. */
  datatype Call =
    | ReadBuffer(blocking: bool, cb: nat)
    | MapBuffer(blocking: bool, cb: nat, mapped: bool)
    | NoTransfer

  /** The server registers a read's buffer even when the call is blocking; a failed map has no pointer to copy from. */
  function ServerSize(c: Call): nat {
    match c
    case ReadBuffer(_, cb) => cb
    case MapBuffer(blocking, cb, mapped) => if !blocking && mapped then cb else 0
    case NoTransfer => 0
  }

  /** The client registers a destination only for calls that do not block. */
  function ClientSize(c: Call): nat {
    match c
    case ReadBuffer(blocking, cb) => if blocking then 0 else cb
    case MapBuffer(blocking, cb, _) => if blocking then 0 else cb
    case NoTransfer => 0
  }

  function Map(calls: seq<Call>, f: Call -> nat): (s: seq<nat>)
    ensures |s| == |calls|
    ensures forall i :: 0 <= i < |s| ==> s[i] == f(calls[i])
  {
    seq(|calls|, i requires 0 <= i < |calls| => f(calls[i]))
  }

  // ---- concatenation and split, by sizes

  function Sum(sizes: seq<nat>, n: nat): nat
    requires n <= |sizes|
  {
    if n == 0 then 0 else Sum(sizes, n - 1) + sizes[n - 1]
  }

  lemma {:induction false} SumMonotone(sizes: seq<nat>, i: nat, j: nat)
    requires i < j <= |sizes|
    ensures Sum(sizes, i) + sizes[i] <= Sum(sizes, j)
  {
    if i + 1 < j {
      SumMonotone(sizes, i, j - 1);
    }
  }

  /** What the server has copied after n events. */
  function Concat(data: seq<seq<byte>>, n: nat): seq<byte>
    requires n <= |data|
  {
    if n == 0 then [] else Concat(data, n - 1) + data[n - 1]
  }

  ghost predicate Sized(data: seq<seq<byte>>, sizes: seq<nat>) {
    |data| == |sizes| && forall i :: 0 <= i < |data| ==> |data[i]| == sizes[i]
  }

  lemma {:induction false} ConcatAt(data: seq<seq<byte>>, sizes: seq<nat>, n: nat, i: nat)
    requires Sized(data, sizes) && i < n <= |data|
    ensures |Concat(data, n)| == Sum(sizes, n) && |Concat(data, n - 1)| == Sum(sizes, n - 1)
    ensures Sum(sizes, i) + sizes[i] <= Sum(sizes, n)
    ensures Concat(data, n)[Sum(sizes, i)..Sum(sizes, i) + sizes[i]] == data[i]
  {
    SumMonotone(sizes, i, n);
    ConcatLength(data, sizes, n);
    ConcatLength(data, sizes, n - 1);
    if i < n - 1 {
      ConcatAt(data, sizes, n - 1, i);
    }
  }

  lemma {:induction false} ConcatLength(data: seq<seq<byte>>, sizes: seq<nat>, n: nat)
    requires Sized(data, sizes) && n <= |data|
    ensures |Concat(data, n)| == Sum(sizes, n)
  {
    if n > 0 {
      ConcatLength(data, sizes, n - 1);
    }
  }

  /** What the client takes for event i from a reply. */
  function Cut(reply: seq<byte>, client: seq<nat>, i: nat): Option<seq<byte>>
    requires i < |client|
  {
    if Sum(client, i) + client[i] <= |reply| then Some(reply[Sum(client, i)..Sum(client, i) + client[i]]) else None
  }

  /** Every event the client expects bytes for gets its own. */
  ghost predicate Delivers(server: seq<nat>, client: seq<nat>, data: seq<seq<byte>>)
    requires |client| == |server| && Sized(data, server)
  {
    forall i :: 0 <= i < |client| && client[i] > 0 ==> Cut(Concat(data, |data|), client, i) == Some(data[i])
  }

  ghost predicate Aligned(server: seq<nat>, client: seq<nat>)
    requires |client| == |server|
  {
    forall i :: 0 <= i < |client| && client[i] > 0 ==> client[i] == server[i] && Sum(client, i) == Sum(server, i)
  }

  lemma {:induction false} AlignedDelivers(server: seq<nat>, client: seq<nat>, data: seq<seq<byte>>)
    requires |client| == |server| && Sized(data, server) && Aligned(server, client)
    ensures Delivers(server, client, data)
  {
    hide Concat, Sum;
    forall i | 0 <= i < |client| && client[i] > 0 ensures Cut(Concat(data, |data|), client, i) == Some(data[i]) {
      ConcatAt(data, server, |data|, i);
    }
  }

  /** All zero bytes but the first of event i. */
  function Marked(sizes: seq<nat>, i: nat): (d: seq<seq<byte>>)
    ensures |d| == |sizes|
  {
    seq(|sizes|, k requires 0 <= k < |sizes| => seq(sizes[k], j => if k == i && j == 0 then 1 else 0))
  }

  lemma {:induction false} MarkedAt(sizes: seq<nat>, i: nat, n: nat, p: nat)
    requires n <= |sizes| && i < |sizes| && p < Sum(sizes, n) && p != Sum(sizes, i)
    ensures Sized(Marked(sizes, i), sizes)
    ensures p < |Concat(Marked(sizes, i), n)| && Concat(Marked(sizes, i), n)[p] == 0
  {
    var d := Marked(sizes, i);
    ConcatLength(d, sizes, n);
    ConcatLength(d, sizes, n - 1);
    if p < Sum(sizes, n - 1) {
      MarkedAt(sizes, i, n - 1, p);
    } else {
      assert Concat(d, n)[p] == d[n - 1][p - Sum(sizes, n - 1)];
    }
  }

  /** Misaligned sizes deliver something else for some contents. */
  lemma {:induction false} MisalignedFails(server: seq<nat>, client: seq<nat>)
    requires |client| == |server| && !Aligned(server, client)
    ensures exists data :: Sized(data, server) && !Delivers(server, client, data)
  {
    var i :| 0 <= i < |client| && client[i] > 0 && !(client[i] == server[i] && Sum(client, i) == Sum(server, i));
    var data := Marked(server, i);
    assert Sized(data, server);
    var reply := Concat(data, |data|);
    ConcatAt(data, server, |data|, i);
    if Cut(reply, client, i) == Some(data[i]) {
      assert client[i] == server[i];
      assert reply[Sum(client, i)] == data[i][0] == 1;
      MarkedAt(server, i, |server|, Sum(client, i));
    }
    assert !Delivers(server, client, data);
  }

  /** Each event gets its own bytes, whatever they are, exactly when offsets and sizes agree. */
  lemma {:induction false} DeliversIff(server: seq<nat>, client: seq<nat>)
    requires |client| == |server|
    ensures Aligned(server, client) <==> forall data :: Sized(data, server) ==> Delivers(server, client, data)
  {
    if Aligned(server, client) {
      forall data | Sized(data, server) ensures Delivers(server, client, data) {
        AlignedDelivers(server, client, data);
      }
    } else {
      MisalignedFails(server, client);
    }
  }

  // ---- which lists of calls are safe

  /** A blocking read shifts everything that comes after it. */
  ghost predicate ReadBefore(calls: seq<Call>, i: nat)
    requires i <= |calls|
  {
    exists k :: 0 <= k < i && calls[k].ReadBuffer? && calls[k].blocking && calls[k].cb > 0
  }

  /** A map that fails on the server leaves its client waiting for bytes that are never sent. */
  predicate MapFails(c: Call) { c.MapBuffer? && ClientSize(c) > 0 && !c.mapped }

  lemma {:induction false} OffsetsDiffer(calls: seq<Call>, i: nat)
    requires i <= |calls| && forall k :: 0 <= k < i ==> !MapFails(calls[k])
    ensures Sum(Map(calls, ClientSize), i) <= Sum(Map(calls, ServerSize), i)
    ensures Sum(Map(calls, ClientSize), i) == Sum(Map(calls, ServerSize), i) <==> !ReadBefore(calls, i)
  {
    if i > 0 {
      OffsetsDiffer(calls, i - 1);
      assert ReadBefore(calls, i) <==>
        ReadBefore(calls, i - 1) || (calls[i - 1].ReadBuffer? && calls[i - 1].blocking && calls[i - 1].cb > 0);
    }
  }

  /** A wait is safe, whatever the contents, exactly when every transfer in its list is neither a
      failed map nor preceded by a blocking read. */
  lemma {:induction false} SafeListIff(calls: seq<Call>)
    ensures (forall data :: Sized(data, Map(calls, ServerSize)) ==>
               Delivers(Map(calls, ServerSize), Map(calls, ClientSize), data))
       <==> (forall i :: 0 <= i < |calls| && ClientSize(calls[i]) > 0 ==>
               (calls[i].MapBuffer? ==> calls[i].mapped) && !ReadBefore(calls, i))
  {
    hide Delivers, Sum, Sized;
    var server, client := Map(calls, ServerSize), Map(calls, ClientSize);
    DeliversIff(server, client);
    forall i | 0 <= i < |calls| && ClientSize(calls[i]) > 0
      ensures !MapFails(calls[i]) <==> ClientSize(calls[i]) == ServerSize(calls[i])
      ensures (forall k :: 0 <= k < i ==> !MapFails(calls[k]))
              ==> (Sum(client, i) == Sum(server, i) <==> !ReadBefore(calls, i))
    {
      if forall k :: 0 <= k < i ==> !MapFails(calls[k]) { OffsetsDiffer(calls, i); }
    }
    if Aligned(server, client) {
      assert forall k :: 0 <= k < |calls| ==> !MapFails(calls[k]);
    }
  }

  // ---- the two loops

  /** xevent_struct: a buffer, or none, and its size. */
  datatype ServerEvent = ServerEvent(buf: Option<seq<byte>>, size: nat) {
    predicate Valid() { buf.Some? ==> size <= |buf.value| }

    /** The bytes that the loop copies. */
    function Bytes(): seq<byte>
      requires Valid()
    {
      if size > 0 && buf.Some? then buf.value[..size] else []
    }
  }

  predicate ValidEvents(events: seq<ServerEvent>) {
    forall i :: 0 <= i < |events| ==> events[i].Valid()
  }

  function AllBytes(events: seq<ServerEvent>): (d: seq<seq<byte>>)
    requires ValidEvents(events)
    ensures |d| == |events|
  {
    seq(|events|, i requires 0 <= i < |events| => events[i].Bytes())
  }

  function Registered(events: seq<ServerEvent>): (s: seq<nat>)
    ensures |s| == |events|
  {
    seq(|events|, i requires 0 <= i < |events| => events[i].size)
  }

  lemma {:induction false} BytesFit(events: seq<ServerEvent>, n: nat)
    requires ValidEvents(events) && n <= |events|
    ensures |Concat(AllBytes(events), n)| <= Sum(Registered(events), n)
  {
    if n > 0 {
      BytesFit(events, n - 1);
    }
  }

  method Total(events: seq<ServerEvent>) returns (sz: nat)
    ensures sz == Sum(Registered(events), |events|)
  {
    sz := 0;
    for i := 0 to |events|
      invariant sz == Sum(Registered(events), i)
    {
      sz := sz + events[i].size;
    }
  }

  /** The reply's contents: what was copied, then whatever the allocated block held. */
  ghost predicate IsReply(reply: seq<byte>, copied: seq<byte>, junk: seq<byte>) {
    |copied| <= |junk| && reply == copied + junk[|copied|..]
  }

  lemma {:induction false} ReplyGrows(reply: seq<byte>, copied: seq<byte>, junk: seq<byte>, more: seq<byte>)
    requires IsReply(reply, copied, junk) && |copied| + |more| <= |junk|
    ensures IsReply(reply[..|copied|] + more + reply[|copied| + |more|..], copied + more, junk)
  {
    assert reply[|copied| + |more|..] == junk[|copied| + |more|..];
  }

  /** How many bytes the server copies for each event. */
  function Counts(events: seq<ServerEvent>): (s: seq<nat>)
    requires ValidEvents(events)
    ensures |s| == |events|
  {
    seq(|events|, i requires 0 <= i < |events| => |events[i].Bytes()|)
  }

  /** Behind what is copied for the events before it, each event's buffer stands in its own order. */
  ghost predicate InPlace(reply: seq<byte>, events: seq<ServerEvent>)
    requires ValidEvents(events)
  {
    forall i :: 0 <= i < |events| && events[i].size > 0 && events[i].buf.Some? ==>
      var at := Sum(Counts(events), i);
      at + events[i].size <= |reply| && reply[at..at + events[i].size] == events[i].buf.value[..events[i].size]
  }

  lemma {:induction false} ReplyInPlace(events: seq<ServerEvent>, junk: seq<byte>, reply: seq<byte>)
    requires ValidEvents(events) && IsReply(reply, Concat(AllBytes(events), |events|), junk)
    ensures InPlace(reply, events)
  {
    hide Sum, Concat, IsReply;
    forall i | 0 <= i < |events| && events[i].size > 0 && events[i].buf.Some?
      ensures var at := Sum(Counts(events), i);
        at + events[i].size <= |reply| && reply[at..at + events[i].size] == events[i].buf.value[..events[i].size]
    {
      var at := Sum(Counts(events), i);
      ConcatAt(AllBytes(events), Counts(events), |events|, i);
      InReply(reply, Concat(AllBytes(events), |events|), junk, at, at + events[i].size);
    }
  }

  lemma {:induction false} InReply(reply: seq<byte>, copied: seq<byte>, junk: seq<byte>, lo: nat, hi: nat)
    requires IsReply(reply, copied, junk) && lo <= hi <= |copied|
    ensures hi <= |reply| && reply[lo..hi] == copied[lo..hi]
  {
  }

  /** The server's reply; junk is what the allocated block happens to hold. */
  method Gather(events: seq<ServerEvent>, junk: seq<byte>) returns (reply: Option<array<byte>>)
    requires ValidEvents(events) && |junk| == Sum(Registered(events), |events|)
    ensures reply.None? <==> |junk| == 0
    ensures reply.Some? ==> fresh(reply.value) && IsReply(reply.value[..], Concat(AllBytes(events), |events|), junk)
    ensures reply.Some? ==> InPlace(reply.value[..], events)
  {
    var sz := Total(events);
    if sz == 0 {
      return None;
    }
    var tmp := new byte[sz](i requires 0 <= i < sz => junk[i]);
    assert tmp[..] == junk;
    CopyAll(tmp, events, junk);
    return Some(tmp);
  }

  /** The copying loop, with its advancing pointer. */
  method CopyAll(tmp: array<byte>, events: seq<ServerEvent>, ghost junk: seq<byte>)
    requires ValidEvents(events) && |junk| == Sum(Registered(events), |events|) && tmp[..] == junk
    modifies tmp
    ensures IsReply(tmp[..], Concat(AllBytes(events), |events|), junk) && InPlace(tmp[..], events)
  {
    hide IsReply, Sum, InPlace;
    ghost var all := AllBytes(events);
    var at := 0;
    StartOfReply(junk);
    for i := 0 to |events|
      invariant at == |Concat(all, i)|
      invariant IsReply(tmp[..], Concat(all, i), junk)
    {
      RoomFor(events, i);
      if events[i].size > 0 && events[i].buf.Some? {
        ReplyGrows(tmp[..], Concat(all, i), junk, all[i]);
        Memcpy(tmp, at, events[i].buf.value[..events[i].size]);
        at := at + events[i].size;
      } else {
        assert Concat(all, i + 1) == Concat(all, i);
      }
    }
    ReplyInPlace(events, junk, tmp[..]);
  }

  lemma {:induction false} StartOfReply(junk: seq<byte>)
    ensures IsReply(junk, [], junk)
  {
  }

  lemma {:induction false} RoomFor(events: seq<ServerEvent>, i: nat)
    requires ValidEvents(events) && i < |events|
    ensures |Concat(AllBytes(events), i)| + |events[i].Bytes()| <= Sum(Registered(events), |events|)
  {
    BytesFit(events, i);
    SumMonotone(Registered(events), i, |events|);
  }

  /** _xevent: the destination the caller gave, or null. */
  datatype ClientEvent = ClientEvent(buf: array?<byte>, size: nat) {
    predicate Valid() { buf != null ==> size <= buf.Length }

    function Expects(): nat { if buf != null then size else 0 }
  }

  function Expected(events: seq<ClientEvent>): (s: seq<nat>)
    ensures |s| == |events|
  {
    seq(|events|, i requires 0 <= i < |events| => events[i].Expects())
  }

  ghost function Destinations(events: seq<ClientEvent>): set<object> {
    set i | 0 <= i < |events| && events[i].Expects() > 0 :: events[i].buf
  }

  ghost predicate Disjoint(events: seq<ClientEvent>) {
    && (forall i :: 0 <= i < |events| ==> events[i].Valid())
    && forall i, j :: 0 <= i < j < |events| && events[i].Expects() > 0 && events[j].Expects() > 0
         ==> events[i].buf != events[j].buf
  }

  /** The destinations' contents, by event; nothing for an event that expects no bytes. */
  function Contents(events: seq<ClientEvent>): (s: seq<seq<byte>>)
    requires forall i :: 0 <= i < |events| ==> events[i].Valid()
    reads Destinations(events)
    ensures |s| == |events|
    ensures forall i :: 0 <= i < |events| && events[i].Expects() > 0 ==> s[i] == events[i].buf[..]
  {
    seq(|events|, i requires 0 <= i < |events| reads Destinations(events) =>
      if events[i].Expects() > 0 then (assert events[i].buf in Destinations(events); events[i].buf[..]) else [])
  }

  /** An event's destination afterwards: its cut of the reply, then its old bytes. */
  function After(before: seq<seq<byte>>, reply: seq<byte>, sizes: seq<nat>, i: nat): seq<byte>
    requires i < |sizes| == |before| && sizes[i] <= |before[i]|
  {
    var cut := Cut(reply, sizes, i);
    if cut.Some? then cut.value + before[i][sizes[i]..] else before[i]
  }

  /** The client's loop: each destination gets its cut of the reply, and only its first bytes change. */
  method Scatter(reply: seq<byte>, events: seq<ClientEvent>)
    requires Disjoint(events) && Sum(Expected(events), |events|) <= |reply|
    modifies Destinations(events)
    ensures forall i :: 0 <= i < |events| && events[i].Expects() > 0 ==>
      events[i].buf[..] == After(old(Contents(events)), reply, Expected(events), i)
  {
    hide Sum, Cut, After, Contents;
    ghost var before := Contents(events);
    ghost var sizes := Expected(events);
    ContentsAre(events);
    var at := 0;
    NothingYet(sizes);
    for n := 0 to |events|
      invariant at == Sum(sizes, n)
      invariant forall i :: 0 <= i < n && events[i].Expects() > 0 ==>
        events[i].buf[..] == After(before, reply, sizes, i)
      invariant forall i :: n <= i < |events| && events[i].Expects() > 0 ==> events[i].buf[..] == before[i]
    {
      CutAt(reply, sizes, n);
      if events[n].buf != null && events[n].size > 0 {
        assert events[n].buf in Destinations(events);
        AfterIs(before, reply, sizes, n);
        Deliver(events[n].buf, reply[at..at + events[n].size]);
        at := at + events[n].size;
      }
    }
  }

  method Deliver(dst: array<byte>, bytes: seq<byte>)
    requires |bytes| <= dst.Length
    modifies dst
    ensures dst[..] == bytes + old(dst[..])[|bytes|..]
  {
    ghost var before := dst[..];
    Memcpy(dst, 0, bytes);
    assert before[..0] + bytes + before[|bytes|..] == bytes + before[|bytes|..];
  }

  lemma {:induction false} ContentsAre(events: seq<ClientEvent>)
    requires forall i :: 0 <= i < |events| ==> events[i].Valid()
    ensures forall i :: 0 <= i < |events| && events[i].Expects() > 0 ==> Contents(events)[i] == events[i].buf[..]
  {
  }

  lemma {:induction false} AfterIs(before: seq<seq<byte>>, reply: seq<byte>, sizes: seq<nat>, n: nat)
    requires |before| == |sizes| && n < |sizes| && sizes[n] <= |before[n]|
    requires Sum(sizes, n) + sizes[n] <= |reply|
    ensures After(before, reply, sizes, n) == reply[Sum(sizes, n)..Sum(sizes, n) + sizes[n]] + before[n][sizes[n]..]
  {
  }

  lemma {:induction false} NothingYet(sizes: seq<nat>)
    ensures Sum(sizes, 0) == 0
  {
  }

  lemma {:induction false} CutAt(reply: seq<byte>, sizes: seq<nat>, n: nat)
    requires n < |sizes| && Sum(sizes, |sizes|) <= |reply|
    ensures Sum(sizes, n + 1) == Sum(sizes, n) + sizes[n] <= |reply|
    ensures Cut(reply, sizes, n) == Some(reply[Sum(sizes, n)..Sum(sizes, n) + sizes[n]])
  {
    SumMonotone(sizes, n, |sizes|);
  }

  /** One wait over both sides: with offsets and sizes that agree, every destination receives exactly
      its own event's bytes. */
  method WaitForEvents(server: seq<ServerEvent>, client: seq<ClientEvent>, junk: seq<byte>)
    requires ValidEvents(server) && Disjoint(client)
    requires |junk| == Sum(Registered(server), |server|)
    requires |server| == |client| && Aligned(Counts(server), Expected(client))
    modifies Destinations(client)
    ensures forall i :: 0 <= i < |client| && client[i].buf != null && client[i].size > 0 ==>
      && server[i].buf.Some? && server[i].size == client[i].size
      && client[i].buf[..client[i].size] == server[i].buf.value[..server[i].size]
      && client[i].buf[client[i].size..] == old(client[i].buf[client[i].size..])
  {
    hide Aligned;
    ghost var before := Contents(client);
    var reply := Gather(server, junk);
    RepliesFit(server, client, junk);
    if reply.Some? {
      var bytes := reply.value[..];
      Scatter(bytes, client);
      forall i | 0 <= i < |client| && client[i].Expects() > 0
        ensures client[i].buf[..] == server[i].Bytes() + before[i][client[i].size..]
      {
        OwnCut(server, client, junk, bytes, i);
      }
    } else {
      forall i | 0 <= i < |client| ensures client[i].Expects() == 0 {
        SumMonotone(Expected(client), i, |client|);
      }
    }
  }

  /** Where offsets and sizes agree the client expects no more than is sent. */
  lemma {:induction false} AlignedFits(server: seq<nat>, client: seq<nat>, n: nat)
    requires |client| == |server| && Aligned(server, client) && n <= |client|
    ensures Sum(client, n) <= Sum(server, n)
  {
    if n > 0 {
      AlignedFits(server, client, n - 1);
    }
  }

  lemma {:induction false} RepliesFit(server: seq<ServerEvent>, client: seq<ClientEvent>, junk: seq<byte>)
    requires ValidEvents(server) && |server| == |client| && Aligned(Counts(server), Expected(client))
    requires |junk| == Sum(Registered(server), |server|)
    ensures Sized(AllBytes(server), Counts(server))
    ensures Sum(Expected(client), |client|) <= |Concat(AllBytes(server), |server|)| <= |junk|
  {
    ConcatLength(AllBytes(server), Counts(server), |server|);
    AlignedFits(Counts(server), Expected(client), |client|);
    BytesFit(server, |server|);
  }

  lemma {:induction false} OwnCut(server: seq<ServerEvent>, client: seq<ClientEvent>, junk: seq<byte>,
            reply: seq<byte>, i: nat)
    requires ValidEvents(server) && |server| == |client| && Aligned(Counts(server), Expected(client))
    requires |junk| == Sum(Registered(server), |server|)
    requires IsReply(reply, Concat(AllBytes(server), |server|), junk) && i < |client| && client[i].Expects() > 0
    ensures Cut(reply, Expected(client), i) == Some(server[i].Bytes())
  {
    hide Sum, Concat, IsReply, Disjoint;
    RepliesFit(server, client, junk);
    ConcatAt(AllBytes(server), Counts(server), |server|, i);
    var at := Sum(Expected(client), i);
    InReply(reply, Concat(AllBytes(server), |server|), junk, at, at + client[i].size);
  }
}
