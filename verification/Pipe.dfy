/** Pipes (kernel/pipe.c): a ring of PIPESIZE bytes between two 32-bit counters that wrap.  A call
    gives up pi->lock only when it sleeps, so any interleaving of readers and writers is a sequence
    of the rounds below, each of which runs up to a sleep or to the end of its call. */
module Pipe {
  import opened Collections
  import opened Params

  const PIPESIZE: nat := 512
  const WRAP: nat := 0x1_0000_0000

  // What a round ended with: the call is over, with this result, or it went to sleep.
  datatype Outcome = Returned(r: int) | Slept

  // The bytes in the ring, between the total numbers of bytes read and written.
  ghost predicate RingOk(data: seq<byte>, nread: nat, nwrite: nat, sent: seq<byte>, got: seq<byte>) {
    && |data| == PIPESIZE && |got| <= |sent| <= |got| + PIPESIZE && got == sent[..|got|]
    && nread == |got| % WRAP && nwrite == |sent| % WRAP
    && forall k :: |got| <= k < |sent| ==> data[k % PIPESIZE] == sent[k]
  }

  // The counters wrap at a multiple of the ring's size.
  lemma WrapIndex(n: nat)
    ensures n % WRAP % PIPESIZE == n % PIPESIZE
  {
    assert n == WRAP * (n / WRAP) + n % WRAP;
    assert WRAP == PIPESIZE * 8388608;
    Multiple(8388608 * (n / WRAP), n % WRAP);
  }

  lemma Multiple(a: nat, b: nat)
    ensures (PIPESIZE * a + b) % PIPESIZE == b % PIPESIZE
  {
  }

  // Counters that are at most PIPESIZE apart are told apart after they wrap.
  lemma Difference(r: nat, w: nat)
    requires r <= w <= r + PIPESIZE
    ensures w % WRAP == (r % WRAP + PIPESIZE) % WRAP <==> w == r + PIPESIZE
    ensures w % WRAP == r % WRAP <==> w == r
    ensures (w % WRAP - r % WRAP + WRAP) % WRAP == w - r
  {
  }

  lemma Stored(data: seq<byte>, nread: nat, nwrite: nat, sent: seq<byte>, got: seq<byte>, ch: byte)
    requires RingOk(data, nread, nwrite, sent, got) && |sent| < |got| + PIPESIZE
    ensures RingOk(data[nwrite % PIPESIZE := ch], nread, (nwrite + 1) % WRAP, sent + [ch], got)
  {
    WrapIndex(|sent|);
    NextCount(|sent|);
    var sent' := sent + [ch];
    forall k | |got| <= k < |sent'| ensures data[nwrite % PIPESIZE := ch][k % PIPESIZE] == sent'[k] {
      if k < |sent| { Apart(k, |sent|); }
    }
  }

  lemma Apart(k: nat, n: nat)
    requires k < n < k + PIPESIZE
    ensures k % PIPESIZE != n % PIPESIZE
  {
  }

  lemma Fetched(data: seq<byte>, nread: nat, nwrite: nat, sent: seq<byte>, got: seq<byte>)
    requires RingOk(data, nread, nwrite, sent, got) && |got| < |sent|
    ensures data[nread % PIPESIZE] == sent[|got|] && RingOk(data, (nread + 1) % WRAP, nwrite, sent, got + [sent[|got|]])
  {
    WrapIndex(|got|);
    NextCount(|got|);
    assert got + [sent[|got|]] == sent[..|got| + 1];
  }

  lemma NextCount(n: nat)
    ensures (n % WRAP + 1) % WRAP == (n + 1) % WRAP
  {
  }

  // ---------------------------------------------------------------- a pipe as a queue

  // What a pipe is to its users: a queue of at most PIPESIZE bytes with two ends.
  datatype Queue = Queue(buf: seq<byte>, readopen: bool, writeopen: bool)

  // A round of pipewrite appends as many of the bytes from i on as there are, fit and can be read,
  // until it finds before byte dead that it has been killed.
  function Written(q: Queue, src: seq<byte>, i: nat, avail: nat, dead: nat): (r: (Queue, Outcome, nat))
    requires i <= |src| && |q.buf| <= PIPESIZE
    ensures i <= r.2 <= |src| && r.0 == q.(buf := q.buf + src[i..r.2]) && |r.0.buf| <= PIPESIZE
  {
    if i == |src| then (q.(buf := q.buf + src[i..i]), Returned(i), i)
    else if !q.readopen || i >= dead then (q.(buf := q.buf + src[i..i]), Returned(-1), i)
    else
      var room := PIPESIZE - |q.buf|;
      var m := Min(Min(|src|, dead) - i, Min(room, Max(avail - i, 0)));
      var o := if i + m == |src| then Returned(i + m)
               else if i + m == dead then Returned(-1)
               else if m == room then Slept
               else Returned(i + m);
      (q.(buf := q.buf + src[i..i + m]), o, i + m)
  }

  // A round of piperead takes from the front what is asked for and there; the byte that cannot be
  // copied out is taken all the same.
  function Fetch(q: Queue, n: int, room: nat, killed: bool): (r: (Queue, Outcome, seq<byte>, seq<byte>))
    ensures r.2 + r.3 + r.0.buf == q.buf && r.0 == q.(buf := r.0.buf) && |r.3| <= 1
    ensures r.3 != [] <==> (q.buf != [] || !q.writeopen) && room < Min(n, |q.buf|)
  {
    if q.buf == [] && q.writeopen then (q, if killed then Returned(-1) else Slept, [], [])
    else
      var want := Min(Max(n, 0), |q.buf|);
      var m := Min(room, want);
      var k := if m < want then m + 1 else m;
      assert q.buf[..m] + q.buf[m..k] + q.buf[k..] == q.buf;
      (q.(buf := q.buf[k..]), Returned(m), q.buf[..m], q.buf[m..k])
  }

  // Close one end.
  function Shutdown(q: Queue, writable: bool): Queue {
    if writable then q.(writeopen := false) else q.(readopen := false)
  }

  class Ring {
    const data: array<byte>
    var nread: nat
    var nwrite: nat
    var readopen: bool
    var writeopen: bool
    var freed: bool
    ghost var sent: seq<byte>   // every byte ever put into the ring
    ghost var got: seq<byte>    // every byte ever taken out

    ghost predicate Ok()
      reads this, data
    {
      RingOk(data[..], nread, nwrite, sent, got) && (freed <==> !readopen && !writeopen)
    }

    // The queue that the ring stands for.
    ghost function Q(): (q: Queue)
      requires Ok()
      reads this, data
      ensures |q.buf| <= PIPESIZE && got + q.buf == sent
    {
      Queue(sent[|got|..], readopen, writeopen)
    }

    // pipealloc; the ring is part of a fresh page.
    constructor ()
      ensures Ok() && Q() == Queue([], true, true) && sent == got == [] && fresh(data)
    {
      data, nread, nwrite, readopen, writeopen, freed := new byte[PIPESIZE], 0, 0, true, true, false;
      sent, got := [], [];
    }

    // pi->data[pi->nwrite++ % PIPESIZE] = ch
    method Put(ch: byte)
      requires Ok() && |sent| < |got| + PIPESIZE
      modifies data, this`nwrite, this`sent
      ensures Ok() && sent == old(sent) + [ch]
    {
      Stored(data[..], nread, nwrite, sent, got, ch);
      ghost var before := data[..];
      data[nwrite % PIPESIZE] := ch;
      assert data[..] == before[nwrite % PIPESIZE := ch];
      nwrite := (nwrite + 1) % WRAP;
      sent := sent + [ch];
    }

    // A round of pipewrite, from byte i of src; only the first avail bytes can be read, and from byte
    // dead on the caller finds that it has been killed.
    method WriteRound(src: seq<byte>, i: nat, avail: nat, dead: nat) returns (o: Outcome, i': nat)
      requires Ok() && writeopen && i <= |src|
      modifies data, this`nwrite, this`sent
      ensures Ok() && (Q(), o, i') == Written(old(Q()), src, i, avail, dead)
      ensures sent == old(sent) + src[i..i']
    {
      hide Written;
      i' := i;
      while i' < |src|
        invariant i <= i' <= |src| && Ok() && sent == old(sent) + src[i..i']
        invariant i' > i ==> readopen && i' <= dead && i' <= avail
      {
        if !readopen || i' >= dead {
          WroteSome(old(sent), got, old(Q()), src, i, avail, dead, Returned(-1), i');
          return Returned(-1), i';
        }
        Difference(|got|, |sent|);
        if nwrite == (nread + PIPESIZE) % WRAP {
          WroteSome(old(sent), got, old(Q()), src, i, avail, dead, Slept, i');
          return Slept, i';
        }
        if i' >= avail { break; }
        Put(src[i']);
        assert src[i..i' + 1] == src[i..i'] + [src[i']];
        i' := i' + 1;
      }
      WroteSome(old(sent), got, old(Q()), src, i, avail, dead, Returned(i'), i');
      o := Returned(i');
    }

    // A round of piperead for n bytes, of which room can be copied out.
    method ReadRound(n: int, room: nat, killed: bool) returns (o: Outcome, dst: seq<byte>)
      requires Ok() && readopen
      modifies this`nread, this`got
      ensures Ok() && var r := Fetch(old(Q()), n, room, killed);
              Q() == r.0 && o == r.1 && dst == r.2 && got == old(got) + dst + r.3
    {
      hide Fetch;
      dst := [];
      Difference(|got|, |sent|);
      if nread == nwrite && writeopen {
        NothingToRead(Q(), n, room, killed);
        return if killed then Returned(-1) else Slept, dst;
      }
      var i := 0;
      while i < n
        invariant 0 <= i <= Max(n, 0) && i == |dst| && i <= room && Ok() && got == old(got) + dst
      {
        Difference(|got|, |sent|);
        if nread == nwrite { break; }
        Fetched(data[..], nread, nwrite, sent, got);
        var ch := data[nread % PIPESIZE];
        nread := (nread + 1) % WRAP;
        got := got + [ch];
        if i >= room {
          TookSome(old(got), sent, got, old(Q()), n, room, killed, dst);
          return Returned(i), dst;
        }
        dst := dst + [ch];
        i := i + 1;
      }
      TookSome(old(got), sent, got, old(Q()), n, room, killed, dst);
      o := Returned(i);
    }

    // pipeclose
    method Close(writable: bool)
      requires Ok() && (if writable then writeopen else readopen)
      modifies this`readopen, this`writeopen, this`freed
      ensures Ok() && Q() == Shutdown(old(Q()), writable)
      ensures writable ==> !writeopen && readopen == old(readopen) && freed == !old(readopen)
      ensures !writable ==> !readopen && writeopen == old(writeopen) && freed == !old(writeopen)
    {
      if writable { writeopen := false; } else { readopen := false; }
      if !readopen && !writeopen { freed := true; }
    }
  }

  // Where the loop of pipewrite ends is determined by the queue it started with.
  lemma WroteSome(sent: seq<byte>, got: seq<byte>, q: Queue, src: seq<byte>, i: nat, avail: nat, dead: nat,
                  o: Outcome, i': nat)
    requires |got| <= |sent| <= |got| + PIPESIZE && q.buf == sent[|got|..]
    requires i <= i' <= |src| && |sent| + i' - i <= |got| + PIPESIZE
             && (i' > i ==> q.readopen && i' <= dead && i' <= avail)
    requires match o
             case Slept => i' < |src| && q.readopen && i' < dead && |sent| + i' - i == |got| + PIPESIZE
             case Returned(r) =>
               if r == -1 then i' < |src| && (!q.readopen || i' >= dead)
               else r == i' && (i' == |src| || (i' >= avail && q.readopen && i' < dead
                                                && |sent| + i' - i < |got| + PIPESIZE))
    ensures (q.(buf := (sent + src[i..i'])[|got|..]), o, i') == Written(q, src, i, avail, dead)
  {
    assert (sent + src[i..i'])[|got|..] == sent[|got|..] + src[i..i'];
  }

  lemma NothingToRead(q: Queue, n: int, room: nat, killed: bool)
    requires q.buf == [] && q.writeopen
    ensures Fetch(q, n, room, killed) == (q, if killed then Returned(-1) else Slept, [], [])
  {
  }

  // Where the loop of piperead ends is determined by the queue it started with.
  lemma TookSome(got0: seq<byte>, sent: seq<byte>, got: seq<byte>, q: Queue, n: int, room: nat, killed: bool,
                 dst: seq<byte>)
    requires |got0| <= |got| <= |sent| && got0 == sent[..|got0|] && got == sent[..|got|] && q.buf == sent[|got0|..]
    requires (q.buf != [] || !q.writeopen) && |dst| <= room && |dst| <= Max(n, 0)
    requires (got == got0 + dst && (|dst| >= n || |got| == |sent|))
             || (|got| == |got0| + |dst| + 1 && got[..|got| - 1] == got0 + dst && |dst| == room && |dst| < n)
    ensures var r := Fetch(q, n, room, killed);
            q.(buf := sent[|got|..]) == r.0 && Returned(|dst|) == r.1 && dst == r.2 && got == got0 + dst + r.3
  {
    hide Fetch;
    var m, k := |dst|, |got| - |got0|;
    TookBytes(got0, sent, got, dst, m, k);
    FetchIs(q, n, room, killed, m, k);
  }

  lemma TookBytes(got0: seq<byte>, sent: seq<byte>, got: seq<byte>, dst: seq<byte>, m: nat, k: nat)
    requires |got0| + k == |got| <= |sent| && got0 == sent[..|got0|] && got == sent[..|got|] && m == |dst| <= k
    requires got[..|got0| + m] == got0 + dst
    ensures var buf := sent[|got0|..]; buf[..m] == dst && sent[|got|..] == buf[k..] && got == got0 + dst + buf[m..k]
  {
    var buf := sent[|got0|..];
    assert buf[..m] == dst by { assert (got0 + dst)[|got0|..] == dst; assert got[..|got0| + m][|got0|..] == buf[..m]; }
    assert got == got[..|got0| + m] + got[|got0| + m..];
  }

  lemma FetchIs(q: Queue, n: int, room: nat, killed: bool, m: nat, k: nat)
    requires (q.buf != [] || !q.writeopen) && m <= room && m <= Max(n, 0) && m <= k <= |q.buf|
    requires (k == m && (m >= n || k == |q.buf|)) || (k == m + 1 && m == room && m < n)
    ensures Fetch(q, n, room, killed) == (q.(buf := q.buf[k..]), Returned(m), q.buf[..m], q.buf[m..k])
  {
  }

  // ---------------------------------------------------------------- any interleaving

  datatype Event =
    | Write(src: seq<byte>, i: nat, avail: nat, dead: nat)
    | Read(n: int, room: nat, killed: bool)
    | Shut(writable: bool)

  // What an event's caller sees; Refused is a round of a call on an end that is not open.
  datatype Result = Refused | Wrote(o: Outcome, i': nat) | Took(o: Outcome, dst: seq<byte>) | Closed

  predicate Allowed(q: Queue, e: Event) {
    match e
    case Write(src, i, _, _) => q.writeopen && i <= |src|
    case Read(_, _, _) => q.readopen
    case Shut(writable) => if writable then q.writeopen else q.readopen
  }

  // One event on the queue: what is left, what the caller sees, what went in and what came out.
  datatype Effect = Effect(q: Queue, res: Result, added: seq<byte>, removed: seq<byte>)

  function Apply(q: Queue, e: Event): (r: Effect)
    requires |q.buf| <= PIPESIZE
    ensures |r.q.buf| <= PIPESIZE
  {
    if !Allowed(q, e) then Effect(q, Refused, [], [])
    else
      match e
      case Write(src, i, avail, dead) =>
        var w := Written(q, src, i, avail, dead);
        Effect(w.0, Wrote(w.1, w.2), src[i..w.2], [])
      case Read(n, room, killed) =>
        var f := Fetch(q, n, room, killed);
        Effect(f.0, Took(f.1, f.2), [], f.2 + f.3)
      case Shut(writable) => Effect(Shutdown(q, writable), Closed, [], [])
  }

  // A list of events: the results one by one, and everything that went in and came out, in order.
  datatype History = History(q: Queue, trace: seq<Result>, accepted: seq<byte>, taken: seq<byte>)

  function Replay(q: Queue, events: seq<Event>): (h: History)
    requires |q.buf| <= PIPESIZE
    ensures |h.q.buf| <= PIPESIZE && |h.trace| == |events|
  {
    if events == [] then History(q, [], [], [])
    else
      var n := |events| - 1;
      var h := Replay(q, events[..n]);
      var r := Apply(h.q, events[n]);
      History(r.q, h.trace + [r.res], h.accepted + r.added, h.taken + r.removed)
  }

  // The ring has done what the queue did in h.
  ghost predicate Follows(sent0: seq<byte>, got0: seq<byte>, h: History, q: Queue, trace: seq<Result>,
                          sent: seq<byte>, got: seq<byte>) {
    trace == h.trace && q == h.q && sent == sent0 + h.accepted && got == got0 + h.taken
  }

  lemma FollowsNone(sent0: seq<byte>, got0: seq<byte>, q: Queue, events: seq<Event>)
    requires |q.buf| <= PIPESIZE
    ensures Follows(sent0, got0, Replay(q, events[..0]), q, [], sent0, got0)
  {
  }

  lemma FollowsNext(sent0: seq<byte>, got0: seq<byte>, q0: Queue, events: seq<Event>, k: nat, q: Queue,
                    trace: seq<Result>, sent: seq<byte>, got: seq<byte>)
    requires |q0.buf| <= PIPESIZE && |q.buf| <= PIPESIZE && k < |events|
    requires Follows(sent0, got0, Replay(q0, events[..k]), q, trace, sent, got)
    ensures var r := Apply(q, events[k]);
            Follows(sent0, got0, Replay(q0, events[..k + 1]), r.q, trace + [r.res], sent + r.added, got + r.removed)
  {
    hide Apply, Replay;
    var h, r := Replay(q0, events[..k]), Apply(q, events[k]);
    ReplayNext(q0, events, k);
    assert sent0 + h.accepted + r.added == sent0 + (h.accepted + r.added);
    assert got0 + h.taken + r.removed == got0 + (h.taken + r.removed);
  }

  lemma ReplayNext(q: Queue, events: seq<Event>, k: nat)
    requires |q.buf| <= PIPESIZE && k < |events|
    ensures var h := Replay(q, events[..k]);
            var r := Apply(h.q, events[k]);
            Replay(q, events[..k + 1]) == History(r.q, h.trace + [r.res], h.accepted + r.added, h.taken + r.removed)
  {
    hide Apply;
    assert events[..k + 1][..k] == events[..k];
  }

  lemma Followed(sent0: seq<byte>, got0: seq<byte>, h: History, q: Queue, trace: seq<Result>, sent: seq<byte>,
                 got: seq<byte>)
    requires Follows(sent0, got0, h, q, trace, sent, got)
    ensures trace == h.trace && q == h.q && sent == sent0 + h.accepted && got == got0 + h.taken
  {
  }

  // First in, first out: what came out, followed by what is still there, is what was there followed
  // by what went in.
  lemma {:induction false} Fifo(q: Queue, events: seq<Event>)
    requires |q.buf| <= PIPESIZE
    ensures var h := Replay(q, events); h.taken + h.q.buf == q.buf + h.accepted
  {
    if events != [] {
      hide Apply;
      var n := |events| - 1;
      Fifo(q, events[..n]);
      var h := Replay(q, events[..n]);
      var r := Apply(h.q, events[n]);
      OneIn(h.q, events[n]);
      InOrder(h.taken, r.removed, r.q.buf, h.q.buf, r.added, q.buf, h.accepted);
    }
  }

  lemma OneIn(q: Queue, e: Event)
    requires |q.buf| <= PIPESIZE
    ensures var r := Apply(q, e); r.removed + r.q.buf == q.buf + r.added
  {
    hide Written, Fetch;
    assert [] + q.buf == q.buf + [] == q.buf;
  }

  lemma InOrder(t: seq<byte>, out: seq<byte>, rest: seq<byte>, buf: seq<byte>, add: seq<byte>, start: seq<byte>,
                acc: seq<byte>)
    requires out + rest == buf + add && t + buf == start + acc
    ensures t + out + rest == start + (acc + add)
  {
    assert t + out + rest == t + (out + rest);
    assert t + (buf + add) == t + buf + add;
    assert start + (acc + add) == start + acc + add;
  }

  // The bytes that the results say were put in, and those that they say were handed out.
  function Sent(events: seq<Event>, trace: seq<Result>): (r: seq<byte>)
    requires |trace| == |events|
  {
    if events == [] then []
    else
      var n := |events| - 1;
      var e, t := events[n], trace[n];
      Sent(events[..n], trace[..n]) + if e.Write? && t.Wrote? && e.i <= t.i' <= |e.src| then e.src[e.i..t.i'] else []
  }

  function Received(trace: seq<Result>): (r: seq<byte>) {
    if trace == [] then []
    else
      var n := |trace| - 1;
      Received(trace[..n]) + if trace[n].Took? then trace[n].dst else []
  }

  // What went in is what the writers were told went in.
  lemma {:induction false} SentIs(q: Queue, events: seq<Event>)
    requires |q.buf| <= PIPESIZE
    ensures Replay(q, events).accepted == Sent(events, Replay(q, events).trace)
  {
    if events != [] {
      var n := |events| - 1;
      SentIs(q, events[..n]);
      assert Replay(q, events).trace[..n] == Replay(q, events[..n]).trace;
    }
  }

  // A read whose destination accepts all it asked for.
  predicate RoomEnough(e: Event) { e.Read? ==> e.n <= e.room }

  // Without failing copies the readers get exactly what came out.
  lemma {:induction false} ReceivedIs(q: Queue, events: seq<Event>)
    requires |q.buf| <= PIPESIZE && forall k :: 0 <= k < |events| ==> RoomEnough(events[k])
    ensures Replay(q, events).taken == Received(Replay(q, events).trace)
  {
    if events != [] {
      var n := |events| - 1;
      ReceivedIs(q, events[..n]);
      assert RoomEnough(events[n]);
      assert Replay(q, events).trace[..n] == Replay(q, events[..n]).trace;
    }
  }

  // ---------------------------------------------------------------- what closing an end means

  // Event k closed the write end, or the read end.
  predicate Closes(events: seq<Event>, trace: seq<Result>, k: nat, writable: bool) {
    k < |events| && k < |trace| && events[k] == Shut(writable) && trace[k] == Closed
  }

  ghost predicate HasClosed(events: seq<Event>, trace: seq<Result>, n: nat, writable: bool) {
    exists k: nat :: k < n && Closes(events, trace, k, writable)
  }

  // The results of the first events do not depend on those that follow.
  lemma {:induction false} ResultOf(q: Queue, events: seq<Event>, n: nat)
    requires |q.buf| <= PIPESIZE && n < |events|
    ensures Replay(q, events).trace[n] == Apply(Replay(q, events[..n]).q, events[n]).res
  {
    hide Apply;
    var m := |events| - 1;
    if n < m {
      ResultOf(q, events[..m], n);
      assert events[..m][..n] == events[..n];
    }
  }

  // An end is open exactly when it was open at first and has not been closed.
  lemma {:induction false} OpenEnds(q: Queue, events: seq<Event>, n: nat)
    requires |q.buf| <= PIPESIZE && n <= |events|
    ensures var h, t := Replay(q, events[..n]), Replay(q, events).trace;
            && (h.q.writeopen <==> q.writeopen && !HasClosed(events, t, n, true))
            && (h.q.readopen <==> q.readopen && !HasClosed(events, t, n, false))
  {
    hide Apply, Replay, Closes;
    if n == 0 {
      assert Replay(q, events[..0]).q == q by { ReplayNone(q, events); }
    } else {
      OpenEnds(q, events, n - 1);
      ReplayNext(q, events, n - 1);
      ResultOf(q, events, n - 1);
      OneClosed(Replay(q, events[..n - 1]).q, events, Replay(q, events).trace, n - 1);
      var t := Replay(q, events).trace;
      assert HasClosed(events, t, n, true) <==> HasClosed(events, t, n - 1, true) || Closes(events, t, n - 1, true);
      assert HasClosed(events, t, n, false) <==> HasClosed(events, t, n - 1, false) || Closes(events, t, n - 1, false);
    }
  }

  lemma ReplayNone(q: Queue, events: seq<Event>)
    requires |q.buf| <= PIPESIZE
    ensures Replay(q, events[..0]).q == q
  {
  }

  lemma OneClosed(q: Queue, events: seq<Event>, trace: seq<Result>, n: nat)
    requires |q.buf| <= PIPESIZE && n < |events| && n < |trace| && trace[n] == Apply(q, events[n]).res
    ensures Apply(q, events[n]).q.writeopen <==> q.writeopen && !Closes(events, trace, n, true)
    ensures Apply(q, events[n]).q.readopen <==> q.readopen && !Closes(events, trace, n, false)
  {
    hide Written, Fetch;
  }

  // Reading an empty pipe gives 0 at once when the write end has been closed, and sleeps, unless the
  // reader was killed, when it has not.
  lemma ReaderSeesEnd(q: Queue, events: seq<Event>, n: nat)
    requires |q.buf| <= PIPESIZE && q.writeopen && n < |events| && events[n].Read?
    requires Replay(q, events).trace[n].Took? && Replay(q, events[..n]).q.buf == []
    ensures var t := Replay(q, events).trace;
            t[n] == Took(if HasClosed(events, t, n, true) then Returned(0) else if events[n].killed then Returned(-1)
                         else Slept, [])
  {
    hide Replay;
    OpenEnds(q, events, n);
    ResultOf(q, events, n);
  }

  // A reader never sleeps once the write end has been closed.
  lemma ReaderNeverWaits(q: Queue, events: seq<Event>, n: nat)
    requires |q.buf| <= PIPESIZE && n < |events| && events[n].Read? && Replay(q, events).trace[n].Took?
    requires HasClosed(events, Replay(q, events).trace, n, true)
    ensures Replay(q, events).trace[n].o != Slept
  {
    hide Replay;
    OpenEnds(q, events, n);
    ResultOf(q, events, n);
  }

  // Writing to a pipe whose read end has been closed fails and adds nothing; otherwise only a writer
  // that has been killed fails without having added anything.
  lemma WriterSeesClosed(q: Queue, events: seq<Event>, n: nat)
    requires |q.buf| <= PIPESIZE && q.readopen && n < |events| && events[n].Write? && events[n].i < |events[n].src|
    requires Replay(q, events).trace[n].Wrote?
    ensures var t := Replay(q, events).trace;
            && (t[n] == Wrote(Returned(-1), events[n].i) <==>
                  HasClosed(events, t, n, false) || events[n].i >= events[n].dead)
            && (HasClosed(events, t, n, false) ==>
                  Replay(q, events[..n + 1]).accepted == Replay(q, events[..n]).accepted)
  {
    hide Replay;
    OpenEnds(q, events, n);
    ResultOf(q, events, n);
    ReplayNext(q, events, n);
  }

  // A closed end takes no more calls: every later event on it is refused.
  lemma ClosedIsRefused(q: Queue, events: seq<Event>, n: nat, writable: bool)
    requires |q.buf| <= PIPESIZE && n < |events| && HasClosed(events, Replay(q, events).trace, n, writable)
    requires if writable then events[n].Write? || events[n] == Shut(true)
             else events[n].Read? || events[n] == Shut(false)
    ensures Replay(q, events).trace[n] == Refused
  {
    hide Replay;
    OpenEnds(q, events, n);
    ResultOf(q, events, n);
  }

  // One round, if its end is open.
  method Perform(ring: Ring, e: Event) returns (res: Result)
    requires ring.Ok()
    modifies ring, ring.data
    ensures ring.Ok() && var r := Apply(old(ring.Q()), e);
            ring.Q() == r.q && res == r.res && ring.sent == old(ring.sent) + r.added
                && ring.got == old(ring.got) + r.removed
  {
    hide Written, Fetch, RingOk;
    match e
    case Write(src, i, avail, dead) =>
      if !ring.writeopen || i > |src| { return Refused; }
      var o, i' := ring.WriteRound(src, i, avail, dead);
      res := Wrote(o, i');
    case Read(n, room, killed) =>
      if !ring.readopen { return Refused; }
      var o, dst := ring.ReadRound(n, room, killed);
      res := Took(o, dst);
    case Shut(writable) =>
      if !(if writable then ring.writeopen else ring.readopen) { return Refused; }
      ring.Close(writable);
      res := Closed;
  }

  // Perform rounds in any order.  The results, the queue that is left and all bytes put in and taken
  // out are those of the queue, however often the counters wrapped.
  method Interleave(ring: Ring, events: seq<Event>) returns (trace: seq<Result>)
    requires ring.Ok()
    modifies ring, ring.data
    ensures ring.Ok() && var h := Replay(old(ring.Q()), events);
            && trace == h.trace && ring.Q() == h.q
            && ring.sent == old(ring.sent) + h.accepted && ring.got == old(ring.got) + h.taken
            && h.taken + ring.Q().buf == old(ring.Q()).buf + Sent(events, trace)
            && ((forall k :: 0 <= k < |events| ==> RoomEnough(events[k])) ==> h.taken == Received(trace))
    ensures (ring.nwrite - ring.nread + WRAP) % WRAP == |ring.Q().buf| <= PIPESIZE
    ensures old(ring.readopen && ring.writeopen) ==>
              (ring.freed <==> HasClosed(events, trace, |events|, true) && HasClosed(events, trace, |events|, false))
  {
    hide Apply, RingOk, Replay, Sent, Received, Follows, HasClosed;
    trace := [];
    ghost var q0 := ring.Q();
    FollowsNone(ring.sent, ring.got, q0, events);
    for k := 0 to |events|
      invariant ring.Ok() && Follows(old(ring.sent), old(ring.got), Replay(q0, events[..k]), ring.Q(), trace,
                                     ring.sent, ring.got)
    {
      ghost var q, sent, got, before := ring.Q(), ring.sent, ring.got, trace;
      var res := Perform(ring, events[k]);
      trace := trace + [res];
      FollowsNext(old(ring.sent), old(ring.got), q0, events, k, q, before, sent, got);
    }
    assert events[..|events|] == events;
    Followed(old(ring.sent), old(ring.got), Replay(q0, events), ring.Q(), trace, ring.sent, ring.got);
    OpenEnds(q0, events, |events|);
    Fifo(q0, events);
    SentIs(q0, events);
    if forall k :: 0 <= k < |events| ==> RoomEnough(events[k]) { ReceivedIs(q0, events); }
    Counters(ring);
  }

  lemma Counters(ring: Ring)
    requires ring.Ok()
    ensures (ring.nwrite - ring.nread + WRAP) % WRAP == |ring.Q().buf| <= PIPESIZE
  {
    Difference(|ring.got|, |ring.sent|);
  }
}
