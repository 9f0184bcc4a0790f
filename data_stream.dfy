/**
 * The receiving half of frontend/utils/network_comm.py: `NetworkWorker`,
 * the background thread that reads the bridge's JSON data stream and
 * turns it into readings and connection-status signals.
 */
module DataStream {
  import opened Wrappers

  /**
   * Readings taken from one connection's lines. `decode(l)` is what
   * `json.loads(l.strip())` gives for line `l` (None when it raises); the
   * first line that does not decode ends the connection, and so does the
   * end of the stream.
   */
  function ReadPrefix<M>(lines: seq<string>, decode: string -> Option<M>): (ms: seq<M>)
    ensures |ms| <= |lines|
    decreases |lines|
  {
    if lines == [] then []
    else
      match decode(lines[0])
      case None => []
      case Some(m) => [m] + ReadPrefix(lines[1..], decode)
  }

  /**
   * The readings are the longest run of leading lines that decode: each of
   * them decodes to its reading, and the line after them (if any) does not.
   */
  lemma {:induction false} ReadPrefixLongest<M>(lines: seq<string>, decode: string -> Option<M>)
    ensures var ms := ReadPrefix(lines, decode);
      (forall k :: 0 <= k < |ms| ==> decode(lines[k]) == Some(ms[k])) &&
      (|ms| < |lines| ==> decode(lines[|ms|]).None?)
    decreases |lines|
  {
    if lines != [] && decode(lines[0]).Some? {
      ReadPrefixLongest(lines[1..], decode);
      var ms := ReadPrefix(lines, decode);
      var rest := ReadPrefix(lines[1..], decode);
      assert ms == [decode(lines[0]).value] + rest;
      forall k | 1 <= k < |ms|
        ensures decode(lines[k]) == Some(ms[k])
      {
        assert ms[k] == rest[k - 1] && lines[k] == lines[1..][k - 1];
      }
      if |ms| < |lines| {
        assert lines[|ms|] == lines[1..][|rest|];
      }
    }
  }

  /** A line that does not decode hides every later line, even decodable ones. */
  lemma {:induction false} ReadPrefixStopsAtError<M>(good: seq<string>, bad: string, rest: seq<string>, decode: string -> Option<M>)
    requires decode(bad).None?
    ensures ReadPrefix(good + [bad] + rest, decode) == ReadPrefix(good, decode)
    decreases |good|
  {
    var all := good + [bad] + rest;
    if good == [] {
      assert all[0] == bad;
    } else {
      assert all[0] == good[0];
      assert all[1..] == good[1..] + [bad] + rest;
      ReadPrefixStopsAtError(good[1..], bad, rest, decode);
    }
  }

  /** How one pass of the outer loop went: connect refused, or a stream of lines until it closed. */
  datatype Attempt = Refused | Accepted(lines: seq<string>)

  /** The worker's signals: connection status, and decoded readings. */
  datatype Event<M> = Status(connected: bool) | Received(data: M) | Slept(seconds: nat)

  /** One `data_received` signal per reading, in order. */
  function Deliveries<M>(ms: seq<M>): (es: seq<Event<M>>)
    decreases |ms|
  {
    if ms == [] then [] else Deliveries(ms[..|ms| - 1]) + [Received(ms[|ms| - 1])]
  }

  /** The signals of one attempt, which always end with a False status. */
  function AttemptEvents<M>(a: Attempt, decode: string -> Option<M>): (es: seq<Event<M>>)
    ensures es != [] && es[|es| - 1] == Status(false)
  {
    match a
    case Refused => [Status(false), Slept(2), Status(false)]
    case Accepted(lines) => [Status(true)] + Deliveries(ReadPrefix(lines, decode)) + [Status(false)]
  }

  function AllEvents<M>(attempts: seq<Attempt>, decode: string -> Option<M>): seq<Event<M>>
    decreases |attempts|
  {
    if attempts == [] then [] else AttemptEvents(attempts[0], decode) + AllEvents(attempts[1..], decode)
  }

  /** The signals still to come, from attempt i on, split off the first of them. */
  lemma AllEventsFrom<M>(attempts: seq<Attempt>, i: nat, decode: string -> Option<M>, before: seq<Event<M>>)
    requires i < |attempts|
    ensures before + AllEvents(attempts[i..], decode) ==
      (before + AttemptEvents(attempts[i], decode)) + AllEvents(attempts[i + 1..], decode)
  {
    assert attempts[i..][1..] == attempts[i + 1..];
  }

  /** The background receiver thread of the data stream. */
  class NetworkWorker<M> {
    var isRunning: bool
    /** The current socket, by number. */
    var sock: Option<nat>
    /** Sockets closed so far, in order. */
    var closed: seq<nat>
    var nextSocket: nat
    /** Everything emitted on `connection_status` and `data_received`, in order. */
    var events: seq<Event<M>>

    constructor ()
      ensures !isRunning && sock == None && closed == [] && nextSocket == 0 && events == []
    {
      isRunning := false;
      sock := None;
      closed := [];
      nextSocket := 0;
      events := [];
    }

    /** Close and forget the socket; nothing happens when there is none. */
    method Cleanup()
      modifies this
      ensures sock == None
      ensures closed == old(closed) + (if old(sock).Some? then [old(sock).value] else [])
      ensures isRunning == old(isRunning) && nextSocket == old(nextSocket) && events == old(events)
    {
      if sock.Some? {
        closed := closed + [sock.value];
        sock := None;
      }
    }

    method Stop()
      modifies this
      ensures !isRunning && sock == None
      ensures closed == old(closed) + (if old(sock).Some? then [old(sock).value] else [])
      ensures nextSocket == old(nextSocket) && events == old(events)
    {
      isRunning := false;
      Cleanup();
    }

    /** The inner loop: read lines and emit their readings until the stream ends or a line does not decode. */
    method ReadStream(lines: seq<string>, decode: string -> Option<M>) returns (got: seq<M>)
      modifies this
      ensures got == ReadPrefix(lines, decode)
      ensures events == old(events) + Deliveries(got)
      ensures sock == old(sock) && nextSocket == old(nextSocket) && closed == old(closed) && isRunning == old(isRunning)
    {
      ghost var start := events;
      got := [];
      var i := 0;
      while i < |lines|
        invariant 0 <= i <= |lines|
        invariant got + ReadPrefix(lines[i..], decode) == ReadPrefix(lines, decode)
        invariant events == start + Deliveries(got)
        invariant sock == old(sock) && nextSocket == old(nextSocket) && closed == old(closed) && isRunning == old(isRunning)
      {
        assert lines[i..][0] == lines[i];
        assert lines[i..][1..] == lines[i + 1..];
        var msg := decode(lines[i]);
        if msg.None? {
          break;
        }
        assert (got + [msg.value])[..|got|] == got;
        events := events + [Received(msg.value)];
        got := got + [msg.value];
        i := i + 1;
      }
    }

    /** One pass of the outer loop: a new socket, then its signals, then cleanup and a False status. */
    method RunAttempt(a: Attempt, decode: string -> Option<M>)
      modifies this
      ensures events == old(events) + AttemptEvents(a, decode)
      ensures sock == None && nextSocket == old(nextSocket) + 1 && isRunning == old(isRunning)
      ensures closed == old(closed) + [old(nextSocket)]
    {
      // a socket still held from before is replaced without being closed
      sock := Some(nextSocket);
      nextSocket := nextSocket + 1;
      ghost var start := events;
      match a {
        case Refused =>
          events := events + [Status(false), Slept(2)];
          Cleanup();
          events := events + [Status(false)];
          assert events == start + [Status(false), Slept(2), Status(false)];
        case Accepted(lines) =>
          events := events + [Status(true)];
          var got := ReadStream(lines, decode);
          Cleanup();
          events := events + [Status(false)];
          assert events == start + ([Status(true)] + Deliveries(got) + [Status(false)]);
      }
    }

    /**
     * `run`, for the attempts made while the worker keeps running: every
     * attempt's signals in turn, and no socket left open afterwards.
     */
    method Run(attempts: seq<Attempt>, decode: string -> Option<M>)
      modifies this
      ensures isRunning
      ensures attempts == [] ==> sock == old(sock)
      ensures attempts != [] ==> sock == None
      ensures events == old(events) + AllEvents(attempts, decode)
      ensures nextSocket == old(nextSocket) + |attempts|
    {
      isRunning := true;
      ghost var total := events + AllEvents(attempts, decode);
      var i := 0;
      assert attempts[0..] == attempts;
      while i < |attempts|
        invariant 0 <= i <= |attempts|
        invariant isRunning && nextSocket == old(nextSocket) + i
        invariant total == events + AllEvents(attempts[i..], decode)
        invariant i == 0 ==> sock == old(sock)
        invariant i > 0 ==> sock == None
      {
        AllEventsFrom(attempts, i, decode, events);
        RunAttempt(attempts[i], decode);
        i := i + 1;
      }
      assert attempts[i..] == [];
      assert events + [] == events;
    }
  }
}
