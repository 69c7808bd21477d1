/** The netconnectd protocol client: `_send_message`. A request is the
    one-key object `{command: args}`, sent as compact JSON followed by one
    NUL byte; the answer is read in chunks until a chunk ends in NUL,
    unframed, parsed and classified into the pair `(flag, content)`. Every
    exception between `connect` and the classification becomes
    `(False, "Error while talking to netconnectd: ...")`, and the socket is
    closed on every way out. */
module Protocol {
  import opened Values
  import opened Encoding
  import opened Transport

  datatype Request = Request(command: string, args: Json)

  /** The `(flag, content)` pair `_send_message` returns. */
  datatype Reply = Reply(flag: bool, content: Json)

  /** `json.loads` and `repr`, which the model takes as given: `loads` either
      decodes the bytes or raises (a `ValueError`). */
  datatype JsonLibrary = JsonLibrary(loads: seq<byte> -> Outcome<Json>, repr: Json -> string)

  const Nul: byte := 0
  const TalkFailure := "Error while talking to netconnectd: "
  const UnknownResponse := "Unknown response from netconnectd: "
  const WentWrong := "Request to netconnectd went wrong: "

  // ---------------------------------------------------------------- framing

  /** `{command: args}`. */
  function Envelope(req: Request): Json
  {
    JObj([Member(req.command, req.args)])
  }

  /** What `sendall` is given: the JSON text and exactly one NUL, at the end. */
  function Frame(req: Request): (f: seq<byte>)
    ensures Terminated(f)
  {
    FramedTerminated(Envelope(req));
    Ascii(Dumps(Envelope(req))) + [Nul]
  }

  /** The message ends in NUL and holds no other NUL. */
  predicate Terminated(m: seq<byte>)
  {
    EndsWithNul(m) && forall i | 0 <= i < |m| - 1 :: m[i] != Nul
  }

  /** The compact JSON text of any value, followed by NUL, is terminated
      exactly once. */
  lemma FramedTerminated(j: Json)
    ensures Terminated(Ascii(Dumps(j)) + [Nul])
  {
    var text := Ascii(Dumps(j));
    assert forall i | 0 <= i < |text| :: (text + [Nul])[i] == text[i];
  }

  /** The JSON text of a request is one object with one key, the command,
      whose value is the arguments, with no whitespace around `:`. */
  lemma EnvelopeText(req: Request)
    ensures Dumps(Envelope(req)) == "{" + Quote(req.command) + ":" + Dumps(req.args) + "}"
  {
  }

  // ---------------------------------------------------------------- receiving

  predicate EndsWithNul(data: seq<byte>)
  {
    data != [] && data[|data| - 1] == Nul
  }

  /** An event that ends the receive loop. */
  predicate Stops(e: RecvEvent)
  {
    e.RecvFault? || EndsWithNul(e.data)
  }

  function Data(e: RecvEvent): seq<byte>
  {
    if e.Chunk? then e.data else []
  }

  /** All bytes the events carry, in order; an empty chunk adds nothing. */
  function Joined(events: seq<RecvEvent>): seq<byte>
  {
    if events == [] then [] else Data(events[0]) + Joined(events[1..])
  }

  /** The index of the first event that ends the loop, or `|events|`. */
  function FirstStop(events: seq<RecvEvent>): (k: nat)
    ensures k <= |events|
    ensures forall i | 0 <= i < k :: !Stops(events[i])
    ensures k < |events| ==> Stops(events[k])
  {
    if events == [] || Stops(events[0]) then 0 else 1 + FirstStop(events[1..])
  }

  datatype Received =
    | Complete(buffer: seq<byte>, rest: seq<RecvEvent>)
    | Broken(exc: Exception, rest: seq<RecvEvent>)
    | Exhausted

  /** The receive loop, with `acc` the bytes buffered so far: it appends
      each chunk and stops after one that ends in NUL or at an exception.
      `Exhausted` is a script that ends before either. */
  function Collect(acc: seq<byte>, events: seq<RecvEvent>): Received
    decreases |events|
  {
    if events == [] then Exhausted
    else match events[0]
      case RecvFault(e) => Broken(e, events[1..])
      case Chunk(d) =>
        if EndsWithNul(d) then Complete(acc + d, events[1..]) else Collect(acc + d, events[1..])
  }

  /** The buffer is the in-order concatenation of the chunks received up to
      and including the first one that ends in NUL; an exception before that
      chunk ends the loop instead, and nothing else does. */
  lemma {:induction false} CollectStopsAtFirstTerminator(acc: seq<byte>, events: seq<RecvEvent>)
    ensures var k := FirstStop(events);
      Collect(acc, events) ==
        if k == |events| then Exhausted
        else if events[k].RecvFault? then Broken(events[k].exc, events[k + 1..])
        else Complete(acc + Joined(events[..k + 1]), events[k + 1..])
    decreases |events|
  {
    if events != [] {
      var k := FirstStop(events);
      if Stops(events[0]) {
        assert events[..1][1..] == [];
      } else {
        var d := Data(events[0]);
        CollectStopsAtFirstTerminator(acc + d, events[1..]);
        if k < |events| && events[k].Chunk? {
          assert events[..k + 1][1..] == events[1..][..k];
        }
      }
    }
  }

  /** A script with an event that stops the loop does not run out. */
  lemma {:induction false} StopEndsCollect(acc: seq<byte>, events: seq<RecvEvent>)
    requires FirstStop(events) < |events|
    ensures !Collect(acc, events).Exhausted?
    decreases |events|
  {
    if !Stops(events[0]) {
      StopEndsCollect(acc + Data(events[0]), events[1..]);
    }
  }

  /** The peer's script ends the receive loop: `connect` or `sendall`
      raises, or some `recv` raises or gives a chunk that ends in NUL. A
      peer that only ever closes makes the loop spin forever. */
  predicate Answers(peer: Peer)
  {
    peer.connectFault.Some? || peer.sendFault.Some? || FirstStop(peer.inbox) < |peer.inbox|
  }

  /** `_send_message` returns at all. */
  predicate Completes(address: Option<string>, peer: Peer)
  {
    address.None? || Answers(peer)
  }

  /** `''.join(buffer).strip()[:-1]`, then `.strip()` again before parsing. */
  function Unframe(buffer: seq<byte>): seq<byte>
  {
    var t := Strip(buffer);
    Strip(if t == [] then [] else t[..|t| - 1])
  }

  /** Dropping a last byte that is not whitespace commutes with `StripLeft`. */
  lemma {:induction false} StripLeftDropLast(b: seq<byte>)
    requires b != [] && !IsSpace(b[|b| - 1])
    ensures StripLeft(b) != [] && StripLeft(b[..|b| - 1]) == StripLeft(b)[..|StripLeft(b)| - 1]
  {
    var init := b[..|b| - 1];
    if IsSpace(b[0]) {
      assert init != [] && init[0] == b[0];
      assert init[1..] == b[1..][..|b[1..]| - 1];
      StripLeftDropLast(b[1..]);
    } else if init != [] {
      assert init[0] == b[0];
    }
  }

  /** The character dropped by `[:-1]` is exactly the terminator: NUL is
      not whitespace, so the first `strip` never removes it. */
  lemma UnframeDropsTerminator(buffer: seq<byte>)
    requires EndsWithNul(buffer)
    ensures Unframe(buffer) == Strip(buffer[..|buffer| - 1])
  {
    var l := StripLeft(buffer);
    StripLeftShape(buffer);
    StripLeftDropLast(buffer);
    assert l[|l| - 1] == buffer[|buffer| - 1];
    assert Strip(buffer) == l;
    var kept := l[..|l| - 1];
    assert StripLeft(kept) == kept by {
      if kept != [] {
        assert kept[0] == l[0];
      }
    }
  }

  /** Unframing the compact JSON text of any value followed by NUL gives
      back that text. */
  lemma UnframeFramed(j: Json)
    ensures Unframe(Ascii(Dumps(j)) + [Nul]) == Ascii(Dumps(j))
  {
    var text := Ascii(Dumps(j));
    var m := text + [Nul];
    UnframeDropsTerminator(m);
    assert m[..|m| - 1] == text;
    DumpsEdges(j);
    UnpaddedText(Dumps(j));
    StripUnpadded(text);
  }

  /** A printable text that neither begins nor ends with a space has bytes
      that neither begin nor end with whitespace. */
  lemma UnpaddedText(s: string)
    requires Printable(s) && s != [] && s[0] != ' ' && s[|s| - 1] != ' '
    ensures !IsSpace(Ascii(s)[0]) && !IsSpace(Ascii(s)[|s| - 1])
  {
    var b := Ascii(s);
    assert b[0] as int == s[0] as int;
    assert b[|s| - 1] as int == s[|s| - 1] as int;
  }

  /** Unframing a frame gives back the JSON text that was framed. */
  lemma FrameUnframes(req: Request)
    ensures Unframe(Frame(req)) == Ascii(Dumps(Envelope(req)))
  {
    UnframeFramed(Envelope(req));
  }

  /** A prefix of a message whose only NUL is its last byte ends in NUL
      only when it is the whole message. */
  lemma NulOnlyAtEnd(m: seq<byte>, p: seq<byte>, rest: seq<byte>)
    requires m == p + rest && Terminated(m)
    ensures EndsWithNul(p) ==> rest == []
  {
    if EndsWithNul(p) {
      assert m[|p| - 1] == Nul;
    }
  }

  /** However the peer splits a NUL-terminated message into chunks, empty
      ones included, the loop buffers exactly that message. */
  lemma {:induction false} CollectWholeMessage(acc: seq<byte>, events: seq<RecvEvent>, m: seq<byte>)
    requires Terminated(m)
    requires forall i | 0 <= i < |events| :: events[i].Chunk?
    requires acc + Joined(events) == m && |acc| < |m|
    ensures Collect(acc, events).Complete? && Collect(acc, events).buffer == m
    decreases |events|
  {
    if events != [] {
      var d, tail := events[0].data, events[1..];
      var p := acc + d;
      var rest := Joined(tail);
      assert Joined(events) == d + rest;
      assert m == p + rest by {
        assert acc + (d + rest) == (acc + d) + rest;
      }
      NulOnlyAtEnd(m, p, rest);
      if EndsWithNul(d) {
        assert p == m;
      } else {
        assert d != [] ==> p[|p| - 1] == d[|d| - 1];
        assert |p| < |m|;
        assert forall i | 0 <= i < |tail| :: tail[i] == events[i + 1];
        CollectWholeMessage(p, tail, m);
      }
    }
  }

  // ---------------------------------------------------------------- classification

  /** Lines 214-225: `result` first, then `error`, else an unknown response.
      `in` and `[]` behave as in Python, so a list or a string that holds
      `"result"` makes the indexing raise, and an `error` value that is not a
      string makes the warning's concatenation raise. */
  function Classify(lib: JsonLibrary, response: Json): Outcome<Reply>
  {
    var hasResult :- Contains(response, "result");
    if hasResult then
      var result :- Subscript(response, "result");
      Ok(Reply(true, result))
    else
      var hasError :- Contains(response, "error");
      if hasError then
        var error :- Subscript(response, "error");
        var warning :- Concat(WentWrong, error);
        Ok(Reply(false, error))
      else
        Ok(Reply(false, JStr(UnknownResponse + lib.repr(response))))
  }

  /** Lines 200-212: `connect`, `sendall`, the receive loop, unframing and
      `json.loads`, or the first exception one of them raises. */
  function Response(address: Option<string>, peer: Peer, lib: JsonLibrary): Outcome<Json>
    requires Completes(address, peer)
  {
    if address.None? then Raised(NoAddress)
    else if peer.connectFault.Some? then Raised(peer.connectFault.value)
    else if peer.sendFault.Some? then Raised(peer.sendFault.value)
    else
      StopEndsCollect([], peer.inbox);
      match Collect([], peer.inbox)
      case Broken(e, _) => Raised(e)
      case Complete(buffer, _) => lib.loads(Unframe(buffer))
  }

  /** Lines 199-225 without the handler: the response, classified. */
  function Conversation(address: Option<string>, peer: Peer, lib: JsonLibrary, req: Request): Outcome<Reply>
    requires Completes(address, peer)
  {
    var response :- Response(address, peer, lib);
    Classify(lib, response)
  }

  /** The handler of lines 227-230. */
  function Recover(o: Outcome<Reply>): Reply
  {
    match o
    case Ok(reply) => reply
    case Raised(e) => Reply(false, JStr(TalkFailure + Message(e)))
  }

  /** `_send_message(command, args)` as a value: it never raises. */
  function Exchange(address: Option<string>, peer: Peer, lib: JsonLibrary, req: Request): Reply
    requires Completes(address, peer)
  {
    Recover(Conversation(address, peer, lib, req))
  }

  /** The flag is true exactly when the response is an object with a
      `result` key, and then the content is that value, unchanged, whether or
      not an `error` key is present too. */
  lemma ResultWins(lib: JsonLibrary, response: Json)
    ensures (Classify(lib, response).Ok? && Classify(lib, response).value.flag)
            <==> response.JObj? && HasKey(response.members, "result")
    ensures response.JObj? && HasKey(response.members, "result") ==>
              Classify(lib, response) == Ok(Reply(true, Lookup(response.members, "result")))
  {
  }

  /** Without `result`, a string under `error` is returned as the failure
      content; any other value there makes line 219 raise. */
  lemma ErrorReported(lib: JsonLibrary, ms: seq<Member>)
    requires !HasKey(ms, "result") && HasKey(ms, "error")
    ensures Lookup(ms, "error").JStr? ==> Classify(lib, JObj(ms)) == Ok(Reply(false, Lookup(ms, "error")))
    ensures !Lookup(ms, "error").JStr? ==> Classify(lib, JObj(ms)).Raised?
  {
  }

  /** A response in which `in` finds neither key (an object without them,
      a list without them as items, a string without them as substrings) is
      an unknown response, reported with its `repr`. */
  lemma UnknownReported(lib: JsonLibrary, response: Json)
    requires Contains(response, "result") == Ok(false) && Contains(response, "error") == Ok(false)
    ensures Classify(lib, response) == Ok(Reply(false, JStr(UnknownResponse + lib.repr(response))))
  {
  }

  /** A failed exchange always carries a string, so the helpers' `prefix +
      content` never raises. */
  lemma FailureIsText(address: Option<string>, peer: Peer, lib: JsonLibrary, req: Request)
    requires Completes(address, peer)
    ensures !Exchange(address, peer, lib, req).flag ==> Exchange(address, peer, lib, req).content.JStr?
  {
    var response := Response(address, peer, lib);
    if response.Ok? {
      ClassifiedFailureIsText(lib, response.value);
    }
  }

  /** Classification fails only with a string: the `error` text, or the
      unknown-response report. */
  lemma ClassifiedFailureIsText(lib: JsonLibrary, response: Json)
    ensures Classify(lib, response).Ok? && !Classify(lib, response).value.flag ==>
              Classify(lib, response).value.content.JStr?
  {
  }

  /** Every exception between `connect` and classification is caught and
      reported with the talking-to-netconnectd prefix: a failed `connect` or
      `sendall`, a `recv` that raises before the terminator, a response
      `json.loads` rejects. */
  lemma {:induction false} FaultsAreCaught(address: string, peer: Peer, lib: JsonLibrary, req: Request)
    requires Answers(peer)
    ensures peer.connectFault.Some? ==>
              Exchange(Some(address), peer, lib, req) == Reply(false, JStr(TalkFailure + Message(peer.connectFault.value)))
    ensures peer.connectFault.None? && peer.sendFault.Some? ==>
              Exchange(Some(address), peer, lib, req) == Reply(false, JStr(TalkFailure + Message(peer.sendFault.value)))
    ensures var k := FirstStop(peer.inbox);
            peer.connectFault.None? && peer.sendFault.None? && k < |peer.inbox| && peer.inbox[k].RecvFault? ==>
              Exchange(Some(address), peer, lib, req) == Reply(false, JStr(TalkFailure + Message(peer.inbox[k].exc)))
    ensures var k := FirstStop(peer.inbox);
            peer.connectFault.None? && peer.sendFault.None? && k < |peer.inbox| && peer.inbox[k].Chunk? &&
            lib.loads(Unframe(Joined(peer.inbox[..k + 1]))).Raised? ==>
              Exchange(Some(address), peer, lib, req) ==
                Reply(false, JStr(TalkFailure + Message(lib.loads(Unframe(Joined(peer.inbox[..k + 1]))).exc)))
    ensures var k := FirstStop(peer.inbox);
            var parsed := if k < |peer.inbox| then lib.loads(Unframe(Joined(peer.inbox[..k + 1]))) else Raised(NoAddress);
            peer.connectFault.None? && peer.sendFault.None? && k < |peer.inbox| && peer.inbox[k].Chunk? &&
            parsed.Ok? && Classify(lib, parsed.value).Raised? ==>
              Exchange(Some(address), peer, lib, req) ==
                Reply(false, JStr(TalkFailure + Message(Classify(lib, parsed.value).exc)))
  {
    var a := Some(address);
    if peer.connectFault.None? && peer.sendFault.None? {
      CollectStopsAtFirstTerminator([], peer.inbox);
      var k := FirstStop(peer.inbox);
      if peer.inbox[k].RecvFault? {
        assert Collect([], peer.inbox) == Broken(peer.inbox[k].exc, peer.inbox[k + 1..]);
        assert Conversation(a, peer, lib, req) == Raised(peer.inbox[k].exc);
      } else {
        var buffer := Joined(peer.inbox[..k + 1]);
        assert Collect([], peer.inbox) == Complete(buffer, peer.inbox[k + 1..]);
        var parsed := lib.loads(Unframe(buffer));
        if parsed.Raised? {
          assert Conversation(a, peer, lib, req) == Raised(parsed.exc);
        } else {
          assert Conversation(a, peer, lib, req) == Classify(lib, parsed.value);
        }
      }
    }
  }

  /** A script of chunks that together make one terminated message ends
      the loop, with exactly that message buffered. */
  lemma HeardWhole(events: seq<RecvEvent>, m: seq<byte>)
    requires forall i | 0 <= i < |events| :: events[i].Chunk?
    requires Joined(events) == m && Terminated(m)
    ensures FirstStop(events) < |events|
    ensures Collect([], events) == Complete(m, events[FirstStop(events) + 1..])
  {
    assert [] + Joined(events) == m;
    CollectWholeMessage([], events, m);
    CollectStopsAtFirstTerminator([], events);
  }

  /** End to end: a daemon that answers with the compact JSON of `response`
      and a NUL, split into chunks in any way, is heard as that response, as
      long as `json.loads` reads back what `json.dumps` wrote. */
  lemma DaemonAnswerHeard(address: string, peer: Peer, lib: JsonLibrary, req: Request, response: Json)
    requires peer.connectFault.None? && peer.sendFault.None?
    requires forall i | 0 <= i < |peer.inbox| :: peer.inbox[i].Chunk?
    requires Joined(peer.inbox) == Ascii(Dumps(response)) + [Nul]
    requires lib.loads(Ascii(Dumps(response))) == Ok(response)
    ensures Answers(peer)
    ensures Exchange(Some(address), peer, lib, req) == Recover(Classify(lib, response))
  {
    var m := Ascii(Dumps(response)) + [Nul];
    FramedTerminated(response);
    HeardWhole(peer.inbox, m);
    UnframeFramed(response);
    assert Conversation(Some(address), peer, lib, req) == Classify(lib, response);
  }

  // ---------------------------------------------------------------- the code

  /** Lines 203-209: read until a chunk ends in NUL, keeping the non-empty
      chunks; a `recv` that raises ends the loop with its exception. */
  method Receive(sock: Socket) returns (r: Outcome<seq<byte>>)
    requires sock.connectedTo.Some? && !sock.closed
    requires !Collect([], sock.inbox).Exhausted?
    modifies sock`inbox
    ensures Collect([], old(sock.inbox)) == match r
      case Ok(buffer) => Complete(buffer, sock.inbox)
      case Raised(e) => Broken(e, sock.inbox)
  {
    var buffer: seq<byte> := [];
    while true
      invariant sock.connectedTo.Some? && !sock.closed
      invariant Collect([], old(sock.inbox)) == Collect(buffer, sock.inbox)
      invariant !Collect(buffer, sock.inbox).Exhausted?
      decreases |sock.inbox|
    {
      ghost var pending := sock.inbox;
      var e := sock.Recv();
      if e.RecvFault? {
        return Raised(e.exc);
      }
      var chunk := e.data;
      assert Collect(buffer, pending) ==
        if EndsWithNul(chunk) then Complete(buffer + chunk, sock.inbox) else Collect(buffer + chunk, sock.inbox);
      if chunk != [] {
        buffer := buffer + chunk;
        if chunk[|chunk| - 1] == Nul {
          break;
        }
      } else {
        assert buffer + chunk == buffer;
      }
    }
    r := Ok(buffer);
  }

  /** Lines 200-213: connect, send the framed request, receive, unframe and
      parse, stopping at the first exception. */
  method Fetch(sock: Socket, address: Option<string>, lib: JsonLibrary, req: Request) returns (response: Outcome<Json>)
    requires sock.inbox == sock.peer.inbox && sock.connectedTo.None? && sock.sent == [] && !sock.closed
    requires Completes(address, sock.peer)
    modifies sock
    ensures response == Response(address, sock.peer, lib)
    ensures sock.sent == if address.Some? && sock.peer.connectFault.None? && sock.peer.sendFault.None?
                         then Frame(req) else []
    ensures !sock.closed
  {
    var fault := sock.Connect(address);
    if fault.Some? {
      return Raised(fault.value);
    }
    fault := sock.SendAll(Frame(req));
    if fault.Some? {
      return Raised(fault.value);
    }
    StopEndsCollect([], sock.peer.inbox);
    var received := Receive(sock);
    if received.Raised? {
      return Raised(received.exc);
    }
    response := lib.loads(Unframe(received.value));
  }

  /** Lines 200-225: the body of the `try`. */
  method Converse(sock: Socket, address: Option<string>, lib: JsonLibrary, req: Request) returns (o: Outcome<Reply>)
    requires sock.inbox == sock.peer.inbox && sock.connectedTo.None? && sock.sent == [] && !sock.closed
    requires Completes(address, sock.peer)
    modifies sock
    ensures o == Conversation(address, sock.peer, lib, req)
    ensures sock.sent == if address.Some? && sock.peer.connectFault.None? && sock.peer.sendFault.None?
                         then Frame(req) else []
    ensures !sock.closed
  {
    var response := Fetch(sock, address, lib, req);
    if response.Raised? {
      return Raised(response.exc);
    }
    o := Classify(lib, response.value);
  }

  /** Lines 199-233: the `try` body, its handler, and `close` in `finally`. */
  method Talk(sock: Socket, address: Option<string>, lib: JsonLibrary, req: Request) returns (reply: Reply)
    requires sock.inbox == sock.peer.inbox && sock.connectedTo.None? && sock.sent == [] && !sock.closed
    requires Completes(address, sock.peer)
    modifies sock
    ensures reply == Exchange(address, sock.peer, lib, req)
    ensures sock.sent == if address.Some? && sock.peer.connectFault.None? && sock.peer.sendFault.None?
                         then Frame(req) else []
    ensures sock.closed
  {
    var o := Converse(sock, address, lib, req);
    match o {
      case Ok(r) =>
        reply := r;
      case Raised(e) =>
        reply := Reply(false, JStr(TalkFailure + Message(e)));
    }
    sock.Close();
  }
}
