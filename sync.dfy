/**
  The pause synchronisation service (ws.go): clients post `key=wait` or
  `key=ready`; a ticker broadcasts "wait" while any key is waiting and
  "proceed" otherwise to every subscribed connection's message queue.

  Goroutines, the mutex, timers and the websocket library are left out: a
  tick is one call of `Tick`, a connection is an event script, and a request
  body is the string of its bytes.
*/
module Sync {
  import opened Wrappers

  // ---------------------------------------------------------------------
  // Splitting on a separator
  // ---------------------------------------------------------------------

  /** Occurrences of `c` in `s`. */
  function Count(s: string, c: char): (n: nat)
    ensures n <= |s|
    ensures n == 0 <==> c !in s
  {
    if s == [] then 0 else (if s[0] == c then 1 else 0) + Count(s[1..], c)
  }

  /** The pieces of `s` between occurrences of `sep`; an empty `s` gives one empty piece. */
  function Split(s: string, sep: char): (parts: seq<string>)
    ensures |parts| == Count(s, sep) + 1
    ensures forall i :: 0 <= i < |parts| ==> sep !in parts[i]
  {
    if s == [] then [[]]
    else
      var rest := Split(s[1..], sep);
      if s[0] == sep then [[]] + rest else [[s[0]] + rest[0]] + rest[1..]
  }

  /** The pieces put back together with `sep` between them. */
  function JoinWith(parts: seq<string>, sep: char): string
    requires parts != []
  {
    if |parts| == 1 then parts[0] else parts[0] + [sep] + JoinWith(parts[1..], sep)
  }

  /** Splitting loses nothing: joining the pieces gives back the string. */
  lemma {:induction false} SplitJoin(s: string, sep: char)
    ensures JoinWith(Split(s, sep), sep) == s
  {
    if s != [] {
      var rest := Split(s[1..], sep);
      SplitJoin(s[1..], sep);
      if s[0] == sep {
        assert ([[]] + rest)[1..] == rest;
      } else {
        var parts := [[s[0]] + rest[0]] + rest[1..];
        assert parts[1..] == rest[1..];
        if |rest| > 1 {
          assert JoinWith(rest, sep) == rest[0] + [sep] + JoinWith(rest[1..], sep);
        }
      }
    }
  }

  /** Joining pieces that hold no separator and splitting again gives back the pieces. */
  lemma {:induction false} JoinSplit(parts: seq<string>, sep: char)
    requires parts != []
    requires forall i :: 0 <= i < |parts| ==> sep !in parts[i]
    ensures Split(JoinWith(parts, sep), sep) == parts
    decreases |parts|, |parts[0]|
  {
    if |parts| == 1 {
      SplitPlain(parts[0], sep);
    } else if parts[0] == [] {
      var s := JoinWith(parts, sep);
      assert s == [sep] + JoinWith(parts[1..], sep);
      assert s[1..] == JoinWith(parts[1..], sep);
      JoinSplit(parts[1..], sep);
      assert [parts[0]] + parts[1..] == parts;
    } else {
      var s := JoinWith(parts, sep);
      var shorter := [parts[0][1..]] + parts[1..];
      assert shorter[1..] == parts[1..];
      assert s[0] == parts[0][0];
      assert s[1..] == JoinWith(shorter, sep) by {
        assert parts[0] == [parts[0][0]] + parts[0][1..];
      }
      assert parts[0][1..] == shorter[0];
      JoinSplit(shorter, sep);
      assert [parts[0][0]] + parts[0][1..] == parts[0];
      assert [parts[0]] + parts[1..] == parts;
    }
  }

  /** A string without the separator splits into itself alone. */
  lemma {:induction false} SplitPlain(s: string, sep: char)
    requires sep !in s
    ensures Split(s, sep) == [s]
  {
    if s != [] {
      SplitPlain(s[1..], sep);
      assert [s[0]] + s[1..] == s;
    }
  }

  /** A string splits into exactly the two pieces `key`, `value` iff it is `key`, the separator, `value`, with no other separator. */
  lemma SplitTwo(s: string, sep: char, key: string, value: string)
    ensures Split(s, sep) == [key, value] <==> (sep !in key && sep !in value && s == key + [sep] + value)
  {
    if Split(s, sep) == [key, value] {
      SplitJoin(s, sep);
      assert JoinWith([key, value], sep) == key + [sep] + value;
    }
    if sep !in key && sep !in value && s == key + [sep] + value {
      JoinSplit([key, value], sep);
      assert JoinWith([key, value], sep) == key + [sep] + value;
    }
  }

  // ---------------------------------------------------------------------
  // The pause request
  // ---------------------------------------------------------------------

  /** The largest body the pause endpoint reads. */
  const MaxBody := 512

  datatype Status = Accepted | BadRequest | TooLarge
  {
    function Code(): (c: int)
      ensures 200 <= c < 500
    {
      match this
      case Accepted => 202
      case BadRequest => 400
      case TooLarge => 413
    }
  }

  /** What a well-formed body asks for. */
  datatype PauseAction = Wait(key: string) | Ready(key: string) | Ignore

  /** Reads a pause request body: `key=wait`, `key=ready`, anything else with exactly one `=` is ignored. */
  function ClassifyPause(body: string): Result<PauseAction, Status>
  {
    if |body| > MaxBody then Failure(TooLarge) else PauseOf(Split(body, '='))
  }

  /** Reads the pieces of a body split on `=`. */
  function PauseOf(parts: seq<string>): (r: Result<PauseAction, Status>)
    ensures r.Failure? <==> |parts| != 2
    ensures r.Failure? ==> r.error == BadRequest
  {
    if |parts| != 2 then Failure(BadRequest)
    else if parts[1] == "wait" then Success(Wait(parts[0]))
    else if parts[1] == "ready" then Success(Ready(parts[0]))
    else Success(Ignore)
  }

  /** A body is rejected as malformed iff it fits and does not hold exactly one `=`. */
  lemma PauseBadRequest(body: string)
    ensures ClassifyPause(body) == Failure(BadRequest) <==> |body| <= MaxBody && Count(body, '=') != 1
    ensures ClassifyPause(body) == Failure(TooLarge) <==> |body| > MaxBody
  {
    if |body| <= MaxBody {
      var parts := Split(body, '=');
      assert |parts| == Count(body, '=') + 1;
      assert ClassifyPause(body) == PauseOf(parts);
    }
  }

  /** A body asks to wait for `key` iff it is `key=wait` with no other `=`; the key may be empty. */
  lemma PauseWait(body: string, key: string)
    ensures ClassifyPause(body) == Success(Wait(key)) <==>
      |body| <= MaxBody && '=' !in key && body == key + "=wait"
  {
    SplitTwo(body, '=', key, "wait");
  }

  /** A body releases `key` iff it is `key=ready` with no other `=`. */
  lemma PauseReady(body: string, key: string)
    ensures ClassifyPause(body) == Success(Ready(key)) <==>
      |body| <= MaxBody && '=' !in key && body == key + "=ready"
  {
    SplitTwo(body, '=', key, "ready");
  }

  /** The waiting set after a request that was classified as `c`. */
  function AfterPause(waiters: set<string>, c: Result<PauseAction, Status>): (w: set<string>)
    ensures c.Success? && c.value.Wait? ==> c.value.key in w && w - {c.value.key} == waiters - {c.value.key}
    ensures c.Success? && c.value.Ready? ==> c.value.key !in w && w + {c.value.key} == waiters + {c.value.key}
    ensures c.Failure? || c == Success(Ignore) ==> w == waiters
  {
    match c
    case Success(Wait(k)) => waiters + {k}
    case Success(Ready(k)) => waiters - {k}
    case _ => waiters
  }

  /** Waiting twice on the same key is the same as waiting once, and so is releasing twice. */
  lemma PauseIdempotent(waiters: set<string>, body: string)
    ensures AfterPause(AfterPause(waiters, ClassifyPause(body)), ClassifyPause(body)) == AfterPause(waiters, ClassifyPause(body))
  {
  }

  // ---------------------------------------------------------------------
  // Subscriber ids
  // ---------------------------------------------------------------------

  /** Subscriber ids are drawn from [0, IdRange). */
  const IdRange := 0x7_FFFF_FFFF

  function HexDigit(d: nat): (c: char)
    requires d < 16
  {
    "0123456789ABCDEF"[d]
  }

  function DigitValue(c: char): (d: nat)
    ensures d < 16
  {
    if '0' <= c <= '9' then (c - '0') as nat
    else if 'A' <= c <= 'F' then (c - 'A') as nat + 10
    else 0
  }

  predicate IsHexUpper(c: char)
  {
    '0' <= c <= '9' || 'A' <= c <= 'F'
  }

  /** The value of a hexadecimal digit string, most significant digit first. */
  function ParseHex(s: string): nat
  {
    if s == [] then 0 else ParseHex(s[..|s| - 1]) * 16 + DigitValue(s[|s| - 1])
  }

  /** Upper-case hexadecimal digits of `n`, without leading zeros. */
  function Hex(n: nat): (s: string)
    ensures |s| >= 1
    ensures forall i :: 0 <= i < |s| ==> IsHexUpper(s[i])
    ensures ParseHex(s) == n
  {
    if n < 16 then [HexDigit(n)] else
      var s := Hex(n / 16) + [HexDigit(n % 16)];
      assert s[..|s| - 1] == Hex(n / 16);
      assert DigitValue(s[|s| - 1]) == n % 16;
      s
  }

  function Pow16(k: nat): (p: nat)
    ensures p >= 1
  {
    if k == 0 then 1 else 16 * Pow16(k - 1)
  }

  /** A number below 16^k has at most k digits. */
  lemma {:induction false} HexLength(n: nat, k: nat)
    requires k >= 1 && n < Pow16(k)
    ensures |Hex(n)| <= k
  {
    if n >= 16 {
      HexLength(n / 16, k - 1);
    }
  }

  /** Leading zeros do not change the value. */
  lemma {:induction false} ParseHexLeadingZero(s: string)
    ensures ParseHex(['0'] + s) == ParseHex(s)
  {
    if s != [] {
      var t := ['0'] + s;
      assert t[..|t| - 1] == ['0'] + s[..|s| - 1];
      ParseHexLeadingZero(s[..|s| - 1]);
    }
  }

  /** `s` padded on the left with zeros to at least `width` characters. */
  function PadZero(s: string, width: nat): (r: string)
    ensures |r| == if |s| >= width then |s| else width
    ensures ParseHex(r) == ParseHex(s)
    ensures forall i :: 0 <= i < |r| ==> r[i] == '0' || r[i] in s
    decreases width - |s|
  {
    if |s| >= width then s else
      var r := PadZero(['0'] + s, width);
      ParseHexLeadingZero(s);
      r
  }

  /** The display id: `n` in upper-case hexadecimal, zero-padded to at least 8 digits. */
  function FormatId(n: nat): (s: string)
    ensures |s| >= 8
    ensures forall i :: 0 <= i < |s| ==> IsHexUpper(s[i])
    ensures ParseHex(s) == n
  {
    PadZero(Hex(n), 8)
  }

  /** Every id in range formats to 8 or 9 digits. */
  lemma FormatIdLength(n: nat)
    requires n < IdRange
    ensures 8 <= |FormatId(n)| <= 9
  {
    assert Pow16(9) == 0x10_0000_0000;
    HexLength(n, 9);
  }

  /** Distinct ids give distinct display ids. */
  lemma FormatIdInjective(m: nat, n: nat)
    requires FormatId(m) == FormatId(n)
    ensures m == n
  {
  }

  function SubMessage(id: nat): string
  {
    "{\"type\":\"sub\",\"id\":\"" + FormatId(id) + "\"}"
  }

  // ---------------------------------------------------------------------
  // The broadcaster
  // ---------------------------------------------------------------------

  const WaitMsg := "{\"type\":\"wait\"}"
  const ProceedMsg := "{\"type\":\"proceed\"}"

  /** The message of one tick. */
  function TickMessage(waiters: set<string>): (m: string)
    ensures m == WaitMsg <==> waiters != {}
    ensures m == ProceedMsg <==> waiters == {}
  {
    if |waiters| > 0 then WaitMsg else ProceedMsg
  }

  /** Each subscriber's queue holds at most this many messages. */
  const QueueCap := 16

  /** One subscribed connection: its queue of messages not yet written. */
  class Subscriber {
    var msgs: seq<string>

    constructor()
      ensures msgs == []
    {
      msgs := [];
    }
  }

  class Broadcaster {
    var waiters: set<string>
    var subs: set<Subscriber>

    ghost predicate Valid()
      reads this, subs
    {
      forall s :: s in subs ==> |s.msgs| <= QueueCap
    }

    constructor()
      ensures waiters == {} && subs == {}
      ensures Valid()
    {
      waiters := {};
      subs := {};
    }

    /** Handles a pause request: classify the body, update the waiting set, answer with a status. */
    method UpdateGigPause(body: string) returns (status: Status)
      requires Valid()
      modifies this
      ensures Valid()
      ensures var c := ClassifyPause(body);
        && status == (if c.Success? then Accepted else c.error)
        && waiters == AfterPause(old(waiters), c)
      ensures subs == old(subs)
    {
      if |body| > MaxBody {
        return TooLarge;
      }
      var parts := Split(body, '=');
      if |parts| != 2 {
        return BadRequest;
      }
      if parts[1] == "wait" {
        waiters := waiters + {parts[0]};
      } else if parts[1] == "ready" {
        waiters := waiters - {parts[0]};
      }
      status := Accepted;
    }

    method AddSub(s: Subscriber)
      requires Valid() && |s.msgs| <= QueueCap
      modifies this
      ensures Valid()
      ensures subs == old(subs) + {s}
      ensures waiters == old(waiters)
    {
      subs := subs + {s};
    }

    method DelSub(s: Subscriber)
      requires Valid()
      modifies this
      ensures Valid()
      ensures subs == old(subs) - {s}
      ensures waiters == old(waiters)
    {
      subs := subs - {s};
    }

    /** Appends `msg` to every subscriber's queue; each queue must have room, as a full one would block. */
    method SendMsgAll(msg: string)
      requires Valid()
      requires forall s :: s in subs ==> |s.msgs| < QueueCap
      modifies subs
      ensures forall s :: s in subs ==> s.msgs == old(s.msgs) + [msg]
      ensures Valid()
    {
      var todo := subs;
      while todo != {}
        invariant todo <= subs
        invariant forall s :: s in subs && s !in todo ==> s.msgs == old(s.msgs) + [msg]
        invariant forall s :: s in todo ==> s.msgs == old(s.msgs)
        decreases todo
      {
        var s :| s in todo;
        s.msgs := s.msgs + [msg];
        todo := todo - {s};
      }
    }

    /** One tick of the pause service. */
    method Tick()
      requires Valid()
      requires forall s :: s in subs ==> |s.msgs| < QueueCap
      modifies subs
      ensures forall s :: s in subs ==> s.msgs == old(s.msgs) + [TickMessage(waiters)]
      ensures Valid()
    {
      var wait := |waiters| > 0;
      if wait {
        SendMsgAll(WaitMsg);
      } else {
        SendMsgAll(ProceedMsg);
      }
    }
  }

  // ---------------------------------------------------------------------
  // One connection
  // ---------------------------------------------------------------------

  /**
    What happens on a connection after its greeting: the ticker queues a
    message, the handler takes the oldest queued message and its write
    succeeds or fails, or the peer closes.
  */
  datatype Event = Arrive(msg: string) | Write(ok: bool) | Closed

  predicate Stops(e: Event)
  {
    e.Closed? || (e.Write? && !e.ok)
  }

  /** The index of the first event that ends the connection, or the script's length. */
  function FirstStop(events: seq<Event>): (k: nat)
    ensures k <= |events|
    ensures forall j :: 0 <= j < k ==> !Stops(events[j])
    ensures k < |events| ==> Stops(events[k])
  {
    if events == [] then 0
    else if Stops(events[0]) then 0
    else 1 + FirstStop(events[1..])
  }

  /** The messages the ticker queued during `events`, in order. */
  function Arrived(events: seq<Event>): (ms: seq<string>)
    ensures |ms| <= |events|
  {
    if events == [] then []
    else Arrived(events[..|events| - 1]) + (if events[|events| - 1].Arrive? then [events[|events| - 1].msg] else [])
  }

  /** How many messages the handler took from the queue during `events`. */
  function Taken(events: seq<Event>): (n: nat)
    ensures n <= |events|
  {
    if events == [] then 0
    else Taken(events[..|events| - 1]) + (if events[|events| - 1].Write? then 1 else 0)
  }

  /** The queue's length after `events`. */
  function Queued(events: seq<Event>): int
  {
    |Arrived(events)| - Taken(events)
  }

  /**
    The script is a possible schedule of the channel: a message is queued
    only when the queue has room (the ticker's send waits otherwise), and
    taken only when the queue holds one (the handler's receive waits otherwise).
  */
  predicate Schedule(events: seq<Event>)
  {
    forall i :: 0 <= i < |events| ==> CanHappen(events, i)
  }

  /** Event `i` can happen after the events before it. */
  predicate CanHappen(events: seq<Event>, i: nat)
    requires i < |events|
  {
    && (events[i].Arrive? ==> Queued(events[..i]) < QueueCap)
    && (events[i].Write? ==> Queued(events[..i]) > 0)
  }

  /** One event more: how the queue counts grow. */
  lemma {:induction false} QueuedSnoc(events: seq<Event>, i: nat)
    requires i < |events|
    ensures var p := events[..i + 1];
      && Arrived(p) == Arrived(events[..i]) + (if events[i].Arrive? then [events[i].msg] else [])
      && Taken(p) == Taken(events[..i]) + (if events[i].Write? then 1 else 0)
  {
    assert events[..i + 1][..i] == events[..i];
  }

  /** Under a schedule, no prefix takes more messages than arrived. */
  lemma {:induction false} TakenWithin(events: seq<Event>, i: nat)
    requires Schedule(events) && i <= |events|
    ensures Taken(events[..i]) <= |Arrived(events[..i])|
  {
    if i > 0 {
      TakenWithin(events, i - 1);
      QueuedSnoc(events, i - 1);
      assert CanHappen(events, i - 1);
    }
  }

  /** The queue's contents after a prefix: what arrived and was not yet taken. */
  function InQueue(events: seq<Event>, i: nat): seq<string>
    requires Schedule(events) && i <= |events|
  {
    TakenWithin(events, i);
    Arrived(events[..i])[Taken(events[..i])..]
  }

  /** The messages taken during a prefix, oldest first. */
  function Delivered(events: seq<Event>, i: nat): seq<string>
    requires Schedule(events) && i <= |events|
  {
    TakenWithin(events, i);
    Arrived(events[..i])[..Taken(events[..i])]
  }

  /** An arrival joins the back of the queue, which had room for it. */
  lemma ArriveStep(events: seq<Event>, i: nat)
    requires Schedule(events) && i < |events| && events[i].Arrive?
    ensures |InQueue(events, i)| < QueueCap
    ensures InQueue(events, i + 1) == InQueue(events, i) + [events[i].msg]
    ensures Delivered(events, i + 1) == Delivered(events, i)
  {
    QueuedSnoc(events, i);
    TakenWithin(events, i);
    assert CanHappen(events, i);
  }

  /** A write takes the front of the queue, which was not empty. */
  lemma WriteStep(events: seq<Event>, i: nat)
    requires Schedule(events) && i < |events| && events[i].Write?
    ensures |InQueue(events, i)| > 0
    ensures InQueue(events, i + 1) == InQueue(events, i)[1..]
    ensures Delivered(events, i + 1) == Delivered(events, i) + [InQueue(events, i)[0]]
  {
    QueuedSnoc(events, i);
    TakenWithin(events, i);
    assert CanHappen(events, i);
    var a := Arrived(events[..i]);
    var t := Taken(events[..i]);
    assert a[..t + 1] == a[..t] + [a[t]];
  }

  /**
    All that is written to a connection: the greeting, then, first in first
    out, as many of the queued messages as writes succeeded before the first
    failure or close.
  */
  function Transcript(acceptOk: bool, id: Option<nat>, greetOk: bool, events: seq<Event>): (w: seq<string>)
    requires Schedule(events)
    ensures !acceptOk || id.None? || !greetOk ==> w == []
  {
    if !acceptOk || id.None? || !greetOk then []
    else
      [SubMessage(id.value)] + Delivered(events, FirstStop(events))
  }

  /**
    One connection, from its subscription to its end.  `id` is the random
    display id (None: the random source failed); the connection is taken to
    close when the script runs out.  The subscriber is registered first and
    removed on every way out.
  */
  method Subscribe(b: Broadcaster, acceptOk: bool, id: Option<nat>, greetOk: bool, events: seq<Event>)
      returns (written: seq<string>)
    requires b.Valid()
    requires id.Some? ==> id.value < IdRange
    requires Schedule(events)
    modifies b
    ensures b.Valid()
    ensures b.subs == old(b.subs) && b.waiters == old(b.waiters)
    ensures written == Transcript(acceptOk, id, greetOk, events)
  {
    var s := new Subscriber();
    b.AddSub(s);
    written := [];
    if !acceptOk || id.None? {
      b.DelSub(s);
      return;
    }
    var greeting := SubMessage(id.value);
    if !greetOk {
      b.DelSub(s);
      return;
    }
    written := [greeting];
    var i := 0;
    while i < |events|
      invariant 0 <= i <= FirstStop(events)
      invariant b.subs == old(b.subs) + {s} && b.waiters == old(b.waiters)
      invariant s.msgs == InQueue(events, i)
      invariant written == [greeting] + Delivered(events, i)
      invariant b.Valid()
    {
      if events[i].Closed? {
        break;
      }
      if events[i].Arrive? {
        ArriveStep(events, i);
        s.msgs := s.msgs + [events[i].msg];
      } else {
        WriteStep(events, i);
        var msg := s.msgs[0];
        s.msgs := s.msgs[1..];
        if !events[i].ok {
          break;
        }
        written := written + [msg];
      }
      i := i + 1;
    }
    assert i == FirstStop(events);
    b.DelSub(s);
  }

  // ---------------------------------------------------------------------
  // The ticker, one subscriber's queue and the registry lock
  // ---------------------------------------------------------------------

  /** The ticker is idle, or holds the registry lock while it pushes into the subscriber's queue. */
  datatype Ticker = Idle | Pushing

  /** The subscriber's connection: writing messages, returned and waiting to be removed, or removed. */
  datatype Conn = Serving | Leaving | Gone

  datatype Sys = Sys(ticker: Ticker, queued: nat, conn: Conn)

  const Start := Sys(Idle, 0, Serving)

  /**
    One move of either side.  With `blocking`, a push into a full queue
    waits for room while the lock is held; without it, a full queue drops
    the message.  The deferred removal of a returned connection needs the lock.
  */
  predicate Move(a: Sys, b: Sys, blocking: bool)
  {
    || (a.ticker == Idle && a.conn != Gone && b == a.(ticker := Pushing))
    || (a.ticker == Pushing && a.queued < QueueCap && b == a.(ticker := Idle, queued := a.queued + 1))
    || (!blocking && a.ticker == Pushing && a.queued >= QueueCap && b == a.(ticker := Idle))
    || (a.conn == Serving && a.queued > 0 && b == a.(queued := a.queued - 1))
    || (a.conn == Serving && b == a.(conn := Leaving))
    || (a.conn == Leaving && a.ticker == Idle && b == a.(conn := Gone))
  }

  /** Consecutive states are joined by moves. */
  predicate Run(tr: seq<Sys>, blocking: bool)
  {
    forall i :: 0 <= i < |tr| - 1 ==> Move(tr[i], tr[i + 1], blocking)
  }

  /** The subscriber is still registered and neither side can move. */
  ghost predicate Stuck(a: Sys, blocking: bool)
  {
    a.conn != Gone && forall b :: !Move(a, b, blocking)
  }

  /** `n` ticks pushed while the connection writes nothing; a run while `n` is within the queue's capacity. */
  function Fill(n: nat): (tr: seq<Sys>)
    ensures |tr| == 2 * n + 1
    ensures tr[0] == Start && tr[|tr| - 1] == Sys(Idle, n, Serving)
  {
    if n == 0 then [Start] else Fill(n - 1) + [Sys(Pushing, n - 1, Serving), Sys(Idle, n, Serving)]
  }

  lemma {:induction false} FillRun(n: nat, blocking: bool)
    requires n <= QueueCap
    ensures Run(Fill(n), blocking)
  {
    if n > 0 {
      FillRun(n - 1, blocking);
      var p := Fill(n - 1);
      var tr := Fill(n);
      assert tr == p + [Sys(Pushing, n - 1, Serving), Sys(Idle, n, Serving)];
      forall i | 0 <= i < |tr| - 1
        ensures Move(tr[i], tr[i + 1], blocking)
      {
        if i < |p| - 1 {
          assert tr[i] == p[i] && tr[i + 1] == p[i + 1];
        } else if i == |p| - 1 {
          assert tr[i] == Sys(Idle, n - 1, Serving) && tr[i + 1] == Sys(Pushing, n - 1, Serving);
        } else {
          assert tr[i] == Sys(Pushing, n - 1, Serving) && tr[i + 1] == Sys(Idle, n, Serving);
        }
      }
    }
  }

  /**
    As written, the queue fills while the connection is slow, the ticker
    blocks on it holding the lock, and the connection then returns: its
    removal waits for the lock and nobody empties the queue.
  */
  lemma AsWrittenDeadlock()
    ensures var tr := Fill(QueueCap) + [Sys(Pushing, QueueCap, Serving), Sys(Pushing, QueueCap, Leaving)];
      && tr[0] == Start && Run(tr, true) && Stuck(tr[|tr| - 1], true)
  {
    var p := Fill(QueueCap);
    var tr := p + [Sys(Pushing, QueueCap, Serving), Sys(Pushing, QueueCap, Leaving)];
    FillRun(QueueCap, true);
    forall i | 0 <= i < |tr| - 1
      ensures Move(tr[i], tr[i + 1], true)
    {
      if i < |p| - 1 {
        assert tr[i] == p[i] && tr[i + 1] == p[i + 1];
      }
    }
  }

  /** The ticker lets go of the lock: the message is queued, or dropped when the queue is full. */
  function Release(a: Sys): (b: Sys)
    requires a.ticker == Pushing
    ensures Move(a, b, false) && b.ticker == Idle && b.conn == a.conn
  {
    if a.queued < QueueCap then a.(ticker := Idle, queued := a.queued + 1) else a.(ticker := Idle)
  }

  function Pending(a: Sys): nat
  {
    (if a.ticker == Pushing then 1 else 0) + (match a.conn case Serving => 2 case Leaving => 1 case Gone => 0)
  }

  /** A way from `a` to the subscriber's removal. */
  function Escape(a: Sys): (tr: seq<Sys>)
    ensures |tr| >= 1 && tr[0] == a && tr[|tr| - 1].conn == Gone
    decreases Pending(a)
  {
    if a.conn == Gone then [a]
    else if a.ticker == Pushing then [a] + Escape(Release(a))
    else if a.conn == Serving then [a] + Escape(a.(conn := Leaving))
    else [a] + Escape(a.(conn := Gone))
  }

  /** With a push that drops on a full queue, the subscriber can be removed from every state, so none is stuck. */
  lemma {:induction false} CorrectedCanLeave(a: Sys)
    ensures Run(Escape(a), false)
    ensures !Stuck(a, false)
    decreases Pending(a)
  {
    if a.conn != Gone {
      var next :=
        if a.ticker == Pushing then Release(a)
        else if a.conn == Serving then a.(conn := Leaving)
        else a.(conn := Gone);
      assert Move(a, next, false);
      CorrectedCanLeave(next);
      var rest := Escape(next);
      var tr := Escape(a);
      assert tr == [a] + rest;
      forall i | 0 <= i < |tr| - 1
        ensures Move(tr[i], tr[i + 1], false)
      {
        if i > 0 {
          assert tr[i] == rest[i - 1] && tr[i + 1] == rest[i];
        }
      }
    }
  }
}
