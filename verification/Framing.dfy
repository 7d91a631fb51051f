/** Newline framing: messages cut out of a byte stream that arrives in arbitrary pieces. */
module Framing {
  import opened Basics

  const MAX_MESSAGE_SIZE := 65536

  newtype Byte = x: int | 0 <= x < 256

  const NEWLINE: Byte := 10

  type Bytes = seq<Byte>

  predicate Blank(b: Byte) {
    b == 32 || 9 <= b <= 13
  }

  function TrimmedLeft(s: Bytes): Bytes {
    if s != [] && Blank(s[0]) then TrimmedLeft(s[1..]) else s
  }

  function Trimmed(s: Bytes): Bytes {
    var t := TrimmedLeft(s);
    TrimmedRight(t)
  }

  function TrimmedRight(s: Bytes): Bytes {
    if s != [] && Blank(s[|s| - 1]) then TrimmedRight(s[..|s| - 1]) else s
  }

  // ----- The stream, byte by byte -----

  /** The finished lines of a stream, and what follows the last newline. */
  datatype Cut = Cut(lines: seq<Bytes>, tail: Bytes)

  function CutUp(stream: Bytes): Cut {
    if stream == [] then Cut([], [])
    else
      var c, b := CutUp(stream[..|stream| - 1]), stream[|stream| - 1];
      if b == NEWLINE then Cut(c.lines + [c.tail], []) else Cut(c.lines, c.tail + [b])
  }

  /** The messages among the lines: blank ones are skipped, the others trimmed. */
  function Messages(lines: seq<Bytes>): seq<Bytes> {
    if lines == [] then []
    else
      var line := Trimmed(lines[|lines| - 1]);
      Messages(lines[..|lines| - 1]) + if line == [] then [] else [line]
  }

  lemma {:induction false} MessagesAppend(a: seq<Bytes>, b: seq<Bytes>)
    ensures Messages(a + b) == Messages(a) + Messages(b)
  {
    if b == [] {
      assert a + b == a;
    } else {
      assert (a + b)[..|a + b| - 1] == a + b[..|b| - 1];
      MessagesAppend(a, b[..|b| - 1]);
    }
  }

  lemma {:induction false} TailHasNoNewline(stream: Bytes)
    ensures NEWLINE !in CutUp(stream).tail
    ensures forall k :: 0 <= k < |CutUp(stream).lines| ==> NEWLINE !in CutUp(stream).lines[k]
  {
    if stream != [] {
      TailHasNoNewline(stream[..|stream| - 1]);
    }
  }

  lemma {:induction false} NoNewlineNoLine(s: Bytes)
    requires NEWLINE !in s
    ensures CutUp(s) == Cut([], s)
  {
    if s != [] {
      var n := |s| - 1;
      NoNewlineNoLine(s[..n]);
      assert s[n] in s;
    }
  }

  /** Cutting can stop anywhere and go on from the tail: the split into reads does not matter. */
  lemma {:induction false} CutResumes(a: Bytes, b: Bytes)
    ensures CutUp(a + b) == Cut(CutUp(a).lines + CutUp(CutUp(a).tail + b).lines, CutUp(CutUp(a).tail + b).tail)
  {
    var t := CutUp(a).tail;
    if b == [] {
      assert a + b == a && t + b == t;
      TailHasNoNewline(a);
      NoNewlineNoLine(t);
    } else {
      var n := |b| - 1;
      assert (a + b)[..|a + b| - 1] == a + b[..n] && (t + b)[..|t + b| - 1] == t + b[..n];
      CutResumes(a, b[..n]);
    }
  }

  /** Taking the first line off a stream. */
  lemma CutFirst(line: Bytes, rest: Bytes)
    requires NEWLINE !in line
    ensures CutUp(line + [NEWLINE] + rest) == Cut([line] + CutUp(rest).lines, CutUp(rest).tail)
  {
    NoNewlineNoLine(line);
    assert (line + [NEWLINE])[..|line|] == line;
    assert CutUp(line + [NEWLINE]) == Cut([line], []);
    CutResumes(line + [NEWLINE], rest);
    assert [] + rest == rest;
  }

  /** The loop takes one line off: it joins the lines seen. */
  lemma CutNext(all: Bytes, seen: seq<Bytes>, buffer: Bytes, idx: nat)
    requires CutUp(all) == Cut(seen + CutUp(buffer).lines, CutUp(buffer).tail)
    requires idx < |buffer| && buffer[idx] == NEWLINE && NEWLINE !in buffer[..idx]
    ensures var raw, rest := buffer[..idx], buffer[idx + 1..];
            && CutUp(all) == Cut(seen + [raw] + CutUp(rest).lines, CutUp(rest).tail)
            && Messages(seen + [raw]) == Messages(seen) + if Trimmed(raw) == [] then [] else [Trimmed(raw)]
  {
    var raw, rest := buffer[..idx], buffer[idx + 1..];
    assert buffer == raw + [NEWLINE] + rest;
    CutFirst(raw, rest);
    assert (seen + [raw])[..|seen|] == seen;
    assert seen + ([raw] + CutUp(rest).lines) == seen + [raw] + CutUp(rest).lines;
  }

  lemma MessagesOfNone()
    ensures Messages([]) == []
  {
  }

  // ----- Whole conversations -----

  function Joined(chunks: seq<Bytes>): Bytes {
    if chunks == [] then [] else Joined(chunks[..|chunks| - 1]) + chunks[|chunks| - 1]
  }

  datatype Connection = Connection(residual: Bytes, handled: seq<Bytes>, dropped: bool) {
    /** One read: too much unfinished input ends the connection, otherwise every finished line is
        handled. */
    function Read(chunk: Bytes): Connection {
      var all := residual + chunk;
      if |all| > MAX_MESSAGE_SIZE then Connection(all, handled, true)
      else Connection(CutUp(all).tail, handled + Messages(CutUp(all).lines), dropped)
    }

    function ReadAll(chunks: seq<Bytes>): Connection {
      if chunks == [] then this else ReadAll(chunks[..|chunks| - 1]).Read(chunks[|chunks| - 1])
    }
  }

  const OPENED := Connection([], [], false)

  /** No read brings the unfinished input over the limit. */
  predicate Bounded(chunks: seq<Bytes>) {
    chunks == [] ||
    (Bounded(chunks[..|chunks| - 1])
     && |CutUp(Joined(chunks[..|chunks| - 1])).tail + chunks[|chunks| - 1]| <= 65536)
  }

  /** However the stream is split into reads, the messages handled are those of the stream and the
      residual is its unfinished line; the connection is dropped exactly when a read brings the
      unfinished input over the limit. */
  lemma {:induction false} ChunksDoNotMatter(chunks: seq<Bytes>)
    ensures Bounded(chunks) <==> !OPENED.ReadAll(chunks).dropped
    ensures Bounded(chunks) ==>
              OPENED.ReadAll(chunks) == Connection(CutUp(Joined(chunks)).tail, Messages(CutUp(Joined(chunks)).lines),
                false)
  {
    if chunks != [] {
      var n := |chunks| - 1;
      ChunksDoNotMatter(chunks[..n]);
      if Bounded(chunks[..n]) {
        var before := Joined(chunks[..n]);
        CutResumes(before, chunks[n]);
        MessagesAppend(CutUp(before).lines, CutUp(CutUp(before).tail + chunks[n]).lines);
      }
    }
  }

  /** A message over the limit is never handled: if the first bytes of a stream, one more than the
      limit, hold no newline, nothing is handled, in whatever pieces the stream arrives, and the
      connection is dropped as soon as the limit is passed. */
  lemma {:induction false} TooLongIsNotHandled(chunks: seq<Bytes>)
    requires forall k :: 0 <= k < |Joined(chunks)| && k <= 65536 ==> Joined(chunks)[k] != NEWLINE
    ensures OPENED.ReadAll(chunks) == Connection(Joined(chunks), [], |Joined(chunks)| > 65536)
  {
    if chunks != [] {
      var n := |chunks| - 1;
      var before, all := Joined(chunks[..n]), Joined(chunks);
      assert forall k :: 0 <= k < |before| ==> before[k] == all[k];
      TooLongIsNotHandled(chunks[..n]);
      if |all| <= MAX_MESSAGE_SIZE {
        NoNewlineNoLine(all);
      }
    }
  }

  function Framed(messages: seq<Bytes>): Bytes {
    if messages == [] then [] else Framed(messages[..|messages| - 1]) + (messages[|messages| - 1] + [NEWLINE])
  }

  /** Cutting loses nothing and cuts at every newline: the lines, each with its newline, and the tail make
      up the stream, and contain no other newline. */
  lemma {:induction false} CutIsExact(stream: Bytes)
    ensures stream == Framed(CutUp(stream).lines) + CutUp(stream).tail
    ensures NEWLINE !in CutUp(stream).tail
    ensures forall k :: 0 <= k < |CutUp(stream).lines| ==> NEWLINE !in CutUp(stream).lines[k]
  {
    TailHasNoNewline(stream);
    if stream != [] {
      var n := |stream| - 1;
      CutIsExact(stream[..n]);
      var c := CutUp(stream[..n]);
      assert stream == stream[..n] + [stream[n]];
      if stream[n] == NEWLINE {
        assert (c.lines + [c.tail])[..|c.lines|] == c.lines;
        assert Framed(c.lines + [c.tail]) == Framed(c.lines) + (c.tail + [NEWLINE]);
      }
    }
  }

  /** What sendJson writes: no raw newline, no blank at either end, not empty. */
  predicate Compact(m: Bytes) {
    m != [] && NEWLINE !in m && !Blank(m[0]) && !Blank(m[|m| - 1])
  }

  lemma {:induction false} FramedCut(messages: seq<Bytes>)
    requires forall k :: 0 <= k < |messages| ==> Compact(messages[k])
    ensures CutUp(Framed(messages)) == Cut(messages, []) && Messages(messages) == messages
  {
    hide CutUp, Messages, Compact, Trimmed;
    if messages == [] {
      NothingToCut();
    } else {
      var n := |messages| - 1;
      FramedCut(messages[..n]);
      OneMoreFramed(Framed(messages[..n]), messages[..n], messages[n]);
      assert messages == messages[..n] + [messages[n]];
    }
  }

  lemma NothingToCut()
    ensures CutUp([]) == Cut([], []) && Messages([]) == []
  {
  }

  lemma OneMoreFramed(stream: Bytes, messages: seq<Bytes>, m: Bytes)
    requires CutUp(stream) == Cut(messages, []) && Messages(messages) == messages && Compact(m)
    ensures CutUp(stream + (m + [NEWLINE])) == Cut(messages + [m], [])
    ensures Messages(messages + [m]) == messages + [m]
  {
    hide CutUp, Messages;
    NothingToCut();
    CutResumes(stream, m + [NEWLINE]);
    assert [] + (m + [NEWLINE]) == m + [NEWLINE];
    assert m + [NEWLINE] + [] == m + [NEWLINE];
    CutFirst(m, []);
    CompactIsMessage(m);
    MessagesAppend(messages, [m]);
  }

  lemma CompactIsMessage(m: Bytes)
    requires Compact(m)
    ensures Messages([m]) == [m]
  {
    assert Trimmed(m) == m;
    assert [m][..0] == [];
  }

  /** Messages written with one newline each arrive as they were written, in whatever pieces. */
  lemma MessagesArrive(messages: seq<Bytes>, chunks: seq<Bytes>)
    requires forall k :: 0 <= k < |messages| ==> Compact(messages[k])
    requires Joined(chunks) == Framed(messages) && Bounded(chunks)
    ensures OPENED.ReadAll(chunks) == Connection([], messages, false)
  {
    ChunksDoNotMatter(chunks);
    FramedCut(messages);
  }

  // ----- A residual that outlives its connection -----

  predicate AllBlank(s: Bytes) {
    forall k :: 0 <= k < |s| ==> Blank(s[k])
  }

  /** Trimming takes blanks off both ends, all of them and nothing else. */
  lemma TrimmedExact(s: Bytes)
    ensures exists l, r :: s == l + Trimmed(s) + r && AllBlank(l) && AllBlank(r)
    ensures Trimmed(s) != [] ==> !Blank(Trimmed(s)[0]) && !Blank(Trimmed(s)[|Trimmed(s)| - 1])
  {
    var l := LeftTrimmed(s);
    var r := RightTrimmed(TrimmedLeft(s));
    assert s == l + Trimmed(s) + r;
  }

  lemma {:induction false} LeftTrimmed(s: Bytes) returns (l: Bytes)
    ensures s == l + TrimmedLeft(s) && AllBlank(l)
    ensures TrimmedLeft(s) != [] ==> !Blank(TrimmedLeft(s)[0])
  {
    l := [];
    if s != [] && Blank(s[0]) {
      var rest := LeftTrimmed(s[1..]);
      l := [s[0]] + rest;
      assert s == [s[0]] + s[1..];
    }
  }

  lemma {:induction false} RightTrimmed(s: Bytes) returns (r: Bytes)
    ensures s == TrimmedRight(s) + r && AllBlank(r)
    ensures TrimmedRight(s) != [] ==> TrimmedRight(s)[0] == s[0] && !Blank(TrimmedRight(s)[|TrimmedRight(s)| - 1])
  {
    r := [];
    if s != [] && Blank(s[|s| - 1]) {
      var n := |s| - 1;
      var rest := RightTrimmed(s[..n]);
      r := rest + [s[n]];
      assert s == s[..n] + [s[n]];
    }
  }

  lemma {:induction false} TrimmedLeftPast(r: Bytes, s: Bytes)
    ensures AllBlank(r) ==> TrimmedLeft(r + s) == TrimmedLeft(s)
    ensures !AllBlank(r) ==> TrimmedLeft(r) != [] && TrimmedLeft(r + s) == TrimmedLeft(r) + s
  {
    if r == [] {
      assert r + s == s;
    } else if Blank(r[0]) {
      assert (r + s)[1..] == r[1..] + s;
      TrimmedLeftPast(r[1..], s);
    } else {
      assert (r + s)[0] == r[0];
    }
  }

  /** A blank residual does not show in a message; any other makes it longer. */
  lemma GluedMessage(r: Bytes, m: Bytes)
    ensures AllBlank(r) ==> Trimmed(r + m) == Trimmed(m)
    ensures !AllBlank(r) && Compact(m) ==> Trimmed(r + m) == TrimmedLeft(r) + m && |Trimmed(r + m)| > |m|
  {
    TrimmedLeftPast(r, m);
    if !AllBlank(r) && Compact(m) {
      var glued := TrimmedLeft(r) + m;
      assert glued[|glued| - 1] == m[|m| - 1];
    }
  }

  /** Only the first line of a new stream is glued to what was left over. */
  lemma {:induction false} GluedCut(r: Bytes, stream: Bytes)
    requires NEWLINE !in r
    ensures var c := CutUp(stream);
            CutUp(r + stream) ==
            if c.lines == [] then Cut([], r + c.tail) else Cut([r + c.lines[0]] + c.lines[1..], c.tail)
  {
    if stream == [] {
      NoNewlineNoLine(r);
      assert r + stream == r && r + [] == r;
    } else {
      var n := |stream| - 1;
      GluedCut(r, stream[..n]);
      assert (r + stream)[..|r + stream| - 1] == r + stream[..n] && (r + stream)[|r + stream| - 1] == stream[n];
    }
  }

  lemma MessagesOfFirst(first: Bytes, rest: seq<Bytes>)
    ensures Messages([first] + rest) == (if Trimmed(first) == [] then [] else [Trimmed(first)]) + Messages(rest)
  {
    MessagesAppend([first], rest);
    assert [first][..0] == [];
  }

  lemma BlankResidualIsHarmless(r: Bytes, stream: Bytes)
    requires NEWLINE !in r && AllBlank(r)
    ensures Messages(CutUp(r + stream).lines) == Messages(CutUp(stream).lines)
  {
    GluedCut(r, stream);
    var lines := CutUp(stream).lines;
    if lines != [] {
      GluedMessage(r, lines[0]);
      MessagesOfFirst(lines[0], lines[1..]);
      MessagesOfFirst(r + lines[0], lines[1..]);
      assert lines == [lines[0]] + lines[1..];
    }
  }

  /** Any other residual spoils the first message of the new connection, whatever message that is. */
  lemma ResidualSpoilsFirst(r: Bytes, m: Bytes)
    requires NEWLINE !in r && !AllBlank(r) && Compact(m)
    ensures Messages(CutUp(m + [NEWLINE]).lines) == [m]
    ensures Messages(CutUp(r + (m + [NEWLINE])).lines) == [TrimmedLeft(r) + m] != [m]
  {
    FramedCut([m]);
    assert [m][..0] == [] && Framed([]) == [] && [] + (m + [NEWLINE]) == m + [NEWLINE];
    assert Framed([m]) == m + [NEWLINE];
    GluedCut(r, m + [NEWLINE]);
    GluedMessage(r, m);
    MessagesOfFirst(r + m, []);
  }

  /** What was left over of a lost connection does no harm to the next one, whatever is sent on it,
      exactly when it is blank. */
  lemma ResidualHarmlessExactly(r: Bytes)
    requires NEWLINE !in r
    ensures AllBlank(r) <==> forall stream :: Messages(CutUp(r + stream).lines) == Messages(CutUp(stream).lines)
  {
    forall stream
      ensures AllBlank(r) ==> Messages(CutUp(r + stream).lines) == Messages(CutUp(stream).lines)
    {
      if AllBlank(r) {
        BlankResidualIsHarmless(r, stream);
      }
    }
    if !AllBlank(r) {
      var m: Bytes := [123, 125];
      assert Compact(m);
      ResidualSpoilsFirst(r, m);
      assert Messages(CutUp(r + (m + [NEWLINE])).lines) != Messages(CutUp(m + [NEWLINE]).lines);
    }
  }

  method IndexOf(s: Bytes) returns (k: int)
    ensures k == -1 ==> NEWLINE !in s
    ensures k != -1 ==> 0 <= k < |s| && s[k] == NEWLINE && NEWLINE !in s[..k]
  {
    for i := 0 to |s|
      invariant NEWLINE !in s[..i]
    {
      if s[i] == NEWLINE {
        return i;
      }
    }
    assert s[..|s|] == s;
    return -1;
  }

  // ----- The server -----

  class IpcServer {
    var buffers: map<Socket, Bytes>
    var dropped: set<Socket>  // told to disconnect

    constructor ()
      ensures buffers == map[] && dropped == {}
    {
      buffers, dropped := map[], {};
    }

    function Residual(socket: Socket): Bytes
      reads this
    {
      if socket in buffers then buffers[socket] else []
    }

    method OnNewConnection(socket: Socket)
      modifies this`buffers
      ensures buffers == old(buffers)[socket := []] && Residual(socket) == []
    {
      buffers := buffers[socket := []];
    }

    /** `lines` are the messages given to the handler, in order. A read on one socket touches no other
        socket's buffer. */
    method OnReadyRead(socket: Socket, chunk: Bytes) returns (lines: seq<Bytes>)
      modifies this
      ensures Connection(Residual(socket), lines, socket in dropped) ==
              Connection(old(Residual(socket)), [], socket in old(dropped)).Read(chunk)
      ensures buffers == old(buffers)[socket := Residual(socket)]
      ensures forall o :: o != socket ==> (o in dropped <==> o in old(dropped))
    {
      hide CutUp, Messages, Trimmed;
      lines := [];
      buffers := buffers[socket := Residual(socket) + chunk];
      if |buffers[socket]| > MAX_MESSAGE_SIZE {
        dropped := dropped + {socket};
        return;
      }
      ghost var all, seen: seq<Bytes> := buffers[socket], [];
      assert seen + CutUp(all).lines == CutUp(all).lines;
      MessagesOfNone();
      var idx := IndexOf(buffers[socket]);
      while idx != -1
        invariant dropped == old(dropped)
        invariant socket in buffers && buffers == old(buffers)[socket := buffers[socket]]
        invariant idx == -1 ==> NEWLINE !in buffers[socket]
        invariant idx != -1 ==> 0 <= idx < |buffers[socket]| && buffers[socket][idx] == NEWLINE
        invariant idx != -1 ==> NEWLINE !in buffers[socket][..idx]
        invariant CutUp(all) == Cut(seen + CutUp(buffers[socket]).lines, CutUp(buffers[socket]).tail)
        invariant lines == Messages(seen)
        decreases |buffers[socket]|
      {
        var buffer := buffers[socket];
        CutNext(all, seen, buffer, idx);
        seen := seen + [buffer[..idx]];
        var line := Trimmed(buffer[..idx]);
        buffers := buffers[socket := buffer[idx + 1..]];
        if line != [] {
          lines := lines + [line];
        }
        idx := IndexOf(buffers[socket]);
      }
      NoNewlineNoLine(buffers[socket]);
      assert seen + [] == seen && [] + lines == lines;
    }

    method OnDisconnected(socket: Socket)
      modifies this`buffers
      ensures buffers == old(buffers) - {socket} && Residual(socket) == []
    {
      buffers := buffers - {socket};
    }
  }
}
