/** The exfiltration generator: a session payload sent chunk by chunk in the first label of a qname. */
module Exfil {
  import opened Basics
  import opened Encoding

  const CHUNK: nat := 30
  const MAX_LABEL: nat := 63
  const MAX_SESSION: nat := 0x10_0000

  /** The configured payload size after `makePayload`'s default and cap. */
  function PayloadSize(n: int): (size: nat)
    ensures 1 <= size <= MAX_SESSION
  {
    if n <= 0 then 1024 else if n > MAX_SESSION then MAX_SESSION else n
  }

  function Draws(rng: nat -> byte, n: nat): seq<byte> {
    seq(n, i requires 0 <= i => rng(i))
  }

  /** The 4-byte big-endian sequence header. */
  function Header(n: nat): (hdr: seq<byte>)
    requires n < TWO32
    ensures |hdr| == 4
  {
    [n / 0x100_0000, n / 0x1_0000 % 0x100, n / 0x100 % 0x100, n % 0x100]
  }

  function HeaderValue(hdr: seq<byte>): nat {
    if |hdr| == 4 then 0x100_0000 * (hdr[0] as nat) + 0x1_0000 * (hdr[1] as nat) + 0x100 * (hdr[2] as nat) + hdr[3] else 0
  }

  function Cut(s: string): (text: string)
    ensures |text| <= MAX_LABEL
  {
    if |s| > MAX_LABEL then s[..MAX_LABEL] else s
  }

  /** The label for one chunk; `gz` is the gzip writer. */
  function Label(tool: string, seqNo: nat, chunk: seq<byte>, gz: seq<byte> -> seq<byte>): string
    requires seqNo < TWO32
  {
    if tool == "iodine" then Cut(B32(Header(seqNo) + gz(chunk)))
    else if tool == "raw-b32" then Cut(B32(chunk))
    else Cut(Hex(chunk))
  }

  // ------------------------------------------------------- the session machine

  datatype Session = Session(payload: seq<byte>, cursor: nat, seqNo: nat) {
    predicate Exhausted() {
      cursor >= |payload|
    }

    /** The state after the refresh at the top of `Next`. */
    function Ready(drawn: seq<byte>): Session {
      if Exhausted() then Session(drawn, 0, 0) else this
    }

    function End(): nat {
      if cursor + CHUNK > |payload| then |payload| else cursor + CHUNK
    }

    function Chunk(): seq<byte> {
      if Exhausted() then [] else payload[cursor..End()]
    }

    function Advance(): Session {
      Session(payload, End(), (seqNo + 1) % TWO32)
    }
  }

  const NO_SESSION := Session([], 0, 0)

  /** One call of `Next`: the knobs read under the lock and the payload a refresh would draw. */
  datatype Call = Call(tool: string, domain: string, drawn: seq<byte>)

  /** The name and acknowledgement that travel, and the tool behind them, which no query carries. */
  datatype Query = Query(tool: string, qname: string, ack: nat)

  function Step(m: Session, call: Call): Session {
    m.Ready(call.drawn).Advance()
  }

  function Emit(m: Session, call: Call, gz: seq<byte> -> seq<byte>): Query {
    var r := m.Ready(call.drawn);
    var n := (r.seqNo + 1) % TWO32;
    Query(call.tool, Label(call.tool, n, r.Chunk(), gz) + "." + call.domain, n)
  }

  class Generator {
    var session: seq<byte>
    var cursor: nat
    var seqNo: nat
    var encodeBuf: seq<byte>
    var b32Buf: array<char>      // backing array of the reused output buffer
    var b32Len: nat

    ghost predicate Valid()
      reads this
    {
      b32Len <= b32Buf.Length && seqNo < TWO32
    }

    ghost function View(): Session
      reads this
    {
      Session(session, cursor, seqNo)
    }

    constructor ()
      ensures Valid() && View() == NO_SESSION && fresh(b32Buf)
    {
      session, cursor, seqNo := [], 0, 0;
      encodeBuf := [];
      b32Buf := new char[0];
      b32Len := 0;
    }

    method MakePayload(n: int, rng: nat -> byte) returns (b: seq<byte>)
      ensures b == Draws(rng, PayloadSize(n))
      ensures |b| == (if n <= 0 then 1024 else if n <= 1048576 then n else 1048576)
      ensures forall i | 0 <= i < |b| :: b[i] == rng(i)
    {
      var size := n;
      if size <= 0 {
        size := 1024;
      }
      if size > 0x10_0000 {
        size := 0x10_0000;
      }
      b := [];
      for i := 0 to size
        invariant b == Draws(rng, i)
      {
        b := b + [rng(i)];
      }
    }

    /** Base32 into the reused buffer, then lower-cased in place. */
    method StrictB32(p: seq<byte>) returns (s: string)
      requires Valid()
      modifies this`b32Buf, this`b32Len, b32Buf
      ensures Valid() && s == B32(p)
      ensures b32Buf == old(b32Buf) || fresh(b32Buf)
    {
      var up := UpperB32(p);
      var n := |p| / 5 * 8 + (|p| % 5 * 8 + 4) / 5;
      assert n == |up|;
      if b32Buf.Length < n {
        b32Buf := new char[n];
      }
      b32Len := n;
      forall i | 0 <= i < n {
        b32Buf[i] := up[i];
      }
      var i := 0;
      while i < b32Len
        invariant 0 <= i <= n == b32Len <= b32Buf.Length
        invariant b32Buf == old(b32Buf) || fresh(b32Buf)
        invariant forall j | 0 <= j < i :: b32Buf[j] == B32(p)[j]
        invariant forall j | i <= j < n :: b32Buf[j] == up[j]
      {
        var x := b32Buf[i];
        if 'A' <= x <= 'Z' {
          x := x + (32 as char);
        }
        b32Buf[i] := x;
        i := i + 1;
      }
      s := b32Buf[..b32Len];
      assert s == B32(p);
    }

    method IodineLabel(chunk: seq<byte>, gz: seq<byte> -> seq<byte>) returns (s: string)
      requires Valid()
      modifies this`encodeBuf, this`b32Buf, this`b32Len, b32Buf
      ensures Valid() && s == B32(Header(seqNo) + gz(chunk))
      ensures b32Buf == old(b32Buf) || fresh(b32Buf)
    {
      var hdr := [seqNo / 0x100_0000, seqNo / 0x1_0000 % 0x100, seqNo / 0x100 % 0x100, seqNo % 0x100];
      encodeBuf := hdr;
      encodeBuf := encodeBuf + gz(chunk);
      s := StrictB32(encodeBuf);
    }

    /** The tool switch of `Next`, with the cut to one DNS label. */
    method ChunkLabel(tool: string, chunk: seq<byte>, gz: seq<byte> -> seq<byte>) returns (text: string)
      requires Valid()
      modifies this`encodeBuf, this`b32Buf, this`b32Len, b32Buf
      ensures Valid() && text == Label(tool, seqNo, chunk, gz)
      ensures b32Buf == old(b32Buf) || fresh(b32Buf)
    {
      if tool == "iodine" {
        text := IodineLabel(chunk, gz);
      } else if tool == "raw-b32" {
        text := StrictB32(chunk);
      } else {
        text := Hex(chunk);
      }
      if |text| > 63 {
        text := text[..63];
      }
    }

    method Next(tool: string, domain: string, payloadBytes: int, rng: nat -> byte, gz: seq<byte> -> seq<byte>)
      returns (q: Query)
      requires Valid()
      modifies this, b32Buf
      ensures Valid() && (b32Buf == old(b32Buf) || fresh(b32Buf))
      ensures View() == Step(old(View()), Call(tool, domain, Draws(rng, PayloadSize(payloadBytes))))
      ensures q == Emit(old(View()), Call(tool, domain, Draws(rng, PayloadSize(payloadBytes))), gz)
    {
      if cursor >= |session| {
        session := MakePayload(payloadBytes, rng);
        cursor := 0;
        seqNo := 0;
      }
      var end := cursor + 30;
      if end > |session| {
        end := |session|;
      }
      var chunk := session[cursor..end];
      ghost var ready := View();
      assert ready == old(View()).Ready(Draws(rng, PayloadSize(payloadBytes)));
      assert end == ready.End() && chunk == ready.Chunk();
      cursor := end;
      seqNo := (seqNo + 1) % TWO32;
      var text := ChunkLabel(tool, chunk, gz);
      q := Query(tool, text + "." + domain, seqNo);
    }
  }

  // ------------------------------------------------------------------ runs

  function Run(m: Session, calls: seq<Call>): Session
    decreases |calls|
  {
    if calls == [] then m else Run(Step(m, calls[0]), calls[1..])
  }

  function Emissions(m: Session, calls: seq<Call>, gz: seq<byte> -> seq<byte>): (qs: seq<Query>)
    ensures |qs| == |calls|
    decreases |calls|
  {
    if calls == [] then [] else [Emit(m, calls[0], gz)] + Emissions(Step(m, calls[0]), calls[1..], gz)
  }

  predicate Drawable(call: Call) {
    1 <= |call.drawn| <= MAX_SESSION
  }

  /** Chunks needed for `n` payload bytes. */
  function Chunks(n: nat): nat {
    (n + CHUNK - 1) / CHUNK
  }

  /** In every state of a run the sequence number is the number of chunks sent of this session. */
  predicate Good(m: Session) {
    && |m.payload| <= MAX_SESSION
    && m.cursor <= |m.payload|
    && m.seqNo == Chunks(m.cursor)
    && (m.cursor < |m.payload| ==> m.cursor % CHUNK == 0)
    && (m.cursor == 0 ==> m.payload == [])
  }

  lemma ChunkCountStep(cursor: nat, size: nat)
    requires cursor % CHUNK == 0 && cursor < size <= MAX_SESSION
    ensures var end := if cursor + CHUNK > size then size else cursor + CHUNK;
            && Chunks(end) == Chunks(cursor) + 1 <= Chunks(MAX_SESSION)
            && (end < size ==> end % CHUNK == 0)
  {
    assert cursor == CHUNK * (cursor / CHUNK);
  }

  lemma {:induction false} StepKeepsGood(m: Session, call: Call)
    requires Good(m) && Drawable(call)
    ensures Good(Step(m, call))
    ensures 1 <= |m.Ready(call.drawn).Chunk()| <= CHUNK
    ensures m.Exhausted() <==> Step(m, call).seqNo == 1
    ensures Step(m, call).seqNo <= Chunks(MAX_SESSION) == 34953
  {
    var r := m.Ready(call.drawn);
    ChunkCountStep(r.cursor, |r.payload|);
  }

  /** A chunk of at most 30 bytes fits a label in either plain encoding. */
  lemma PlainLabelsFit(tool: string, n: nat, chunk: seq<byte>, gz: seq<byte> -> seq<byte>)
    requires |chunk| <= CHUNK && tool != "iodine" && n < TWO32
    ensures Label(tool, n, chunk, gz) == if tool == "raw-b32" then B32(chunk) else Hex(chunk)
    ensures |Label(tool, n, chunk, gz)| <= 60
  {}

  /** The payload size a caller asks for is used from 1 to 1 MiB; below it is 1024, above 1 MiB. */
  lemma PayloadSizes(n: int)
    ensures n <= 0 ==> PayloadSize(n) == 1024
    ensures 1 <= n <= 1048576 ==> PayloadSize(n) == n
    ensures n > 1048576 ==> PayloadSize(n) == 1048576
  {}

  /** The header is the number's four bytes, high byte first. */
  lemma HeaderIsBigEndian(a: byte, b: byte, c: byte, d: byte)
    ensures 16777216 * a + 65536 * b + 256 * c + d < TWO32
    ensures Header(16777216 * a + 65536 * b + 256 * c + d) == [a, b, c, d]
  {
    var n: nat := 16777216 * a + 65536 * b + 256 * c + d;
    assert n / 0x100 == 65536 * a + 256 * b + c;
    assert n / 0x1_0000 == 256 * a + b;
    assert n / 0x100_0000 == a;
  }

  /** An iodine label is the first 63 characters, or all, of header and gzip bytes in base32. */
  lemma IodineLabelIsCut(n: nat, chunk: seq<byte>, gz: seq<byte> -> seq<byte>)
    requires n < TWO32
    ensures var whole := B32(Header(n) + gz(chunk));
            Label("iodine", n, chunk, gz) == if |whole| <= 63 then whole else whole[..63]
  {}

  // ---------------------------------------------------------------- receiver

  function FirstLabel(qname: string): string {
    if qname == [] || qname[0] == '.' then [] else [qname[0]] + FirstLabel(qname[1..])
  }

  lemma {:induction false} FirstLabelOfJoin(text: string, rest: string)
    requires NoDot(text)
    ensures FirstLabel(text + "." + rest) == text
  {
    if text == [] {
      assert ([] + "." + rest)[0] == '.';
    } else {
      assert (text + "." + rest)[1..] == text[1..] + "." + rest;
      FirstLabelOfJoin(text[1..], rest);
    }
  }

  lemma LabelHasNoDot(tool: string, n: nat, chunk: seq<byte>, gz: seq<byte> -> seq<byte>)
    requires n < TWO32
    ensures NoDot(Label(tool, n, chunk, gz))
  {
    B32HasNoDot(Header(n) + gz(chunk));
    B32HasNoDot(chunk);
    HexHasNoDot(chunk);
  }

  /** A name is one label of at most 63 characters, and the configured domain. */
  predicate NamesDomain(q: Query, call: Call) {
    && q.tool == call.tool
    && |FirstLabel(q.qname)| <= 63 && |FirstLabel(q.qname)| <= |q.qname|
    && q.qname[|FirstLabel(q.qname)|..] == "." + call.domain
  }

  lemma EmitNamesDomain(m: Session, call: Call, gz: seq<byte> -> seq<byte>)
    ensures NamesDomain(Emit(m, call, gz), call)
  {
    var n := (m.Ready(call.drawn).seqNo + 1) % TWO32;
    var text := Label(call.tool, n, m.Ready(call.drawn).Chunk(), gz);
    LabelHasNoDot(call.tool, n, m.Ready(call.drawn).Chunk(), gz);
    FirstLabelOfJoin(text, call.domain);
    assert (text + "." + call.domain)[|text|..] == "." + call.domain;
  }

  /** In every run, whatever the tools: what follows the first label of a query is its call's domain. */
  lemma {:induction false} QueriesNameTheirDomain(m: Session, calls: seq<Call>, gz: seq<byte> -> seq<byte>, i: nat)
    requires i < |calls|
    ensures NamesDomain(Emissions(m, calls, gz)[i], calls[i])
    decreases |calls|
  {
    if i == 0 {
      EmitNamesDomain(m, calls[0], gz);
    } else {
      QueriesNameTheirDomain(Step(m, calls[0]), calls[1..], gz, i - 1);
    }
  }

  function DecodeLabel(tool: string, text: string): seq<byte> {
    if tool == "raw-b32" then FromB32(text) else FromHex(text)
  }

  /** A receiver that has the names and acknowledgements and is told the tool: acknowledgement 1 opens a session, others extend it. */
  function Receive(sessions: seq<seq<byte>>, q: Query): seq<seq<byte>> {
    var data := DecodeLabel(q.tool, FirstLabel(q.qname));
    if q.ack == 1 || sessions == [] then sessions + [data]
    else sessions[..|sessions| - 1] + [sessions[|sessions| - 1] + data]
  }

  function ReceiveAll(sessions: seq<seq<byte>>, qs: seq<Query>): seq<seq<byte>>
    decreases |qs|
  {
    if qs == [] then sessions else ReceiveAll(Receive(sessions, qs[0]), qs[1..])
  }

  lemma PlainQueryDecodes(m: Session, call: Call, gz: seq<byte> -> seq<byte>)
    requires Good(m) && Drawable(call) && call.tool != "iodine"
    ensures var q := Emit(m, call, gz);
            DecodeLabel(q.tool, FirstLabel(q.qname)) == m.Ready(call.drawn).Chunk()
  {
    StepKeepsGood(m, call);
    var r := m.Ready(call.drawn);
    var chunk := r.Chunk();
    PlainLabelsFit(call.tool, (r.seqNo + 1) % TWO32, chunk, gz);
    B32HasNoDot(chunk);
    HexHasNoDot(chunk);
    FirstLabelOfJoin(Label(call.tool, (r.seqNo + 1) % TWO32, chunk, gz), call.domain);
    B32RoundTrip(chunk);
    HexRoundTrip(chunk);
  }

  /** The bytes of a payload that chunk `n` carries, counting from 1. */
  function ChunkBytes(payload: seq<byte>, n: nat): seq<byte> {
    var from := CHUNK * (n - 1);
    if n == 0 || from > |payload| then []
    else payload[from..if from + CHUNK > |payload| then |payload| else from + CHUNK]
  }

  /** The query decodes to the chunk of the payload that its acknowledgement names. */
  predicate CarriesItsChunk(q: Query, payload: seq<byte>) {
    && 1 <= q.ack <= Chunks(|payload|)
    && DecodeLabel(q.tool, FirstLabel(q.qname)) == ChunkBytes(payload, q.ack)
  }

  lemma ChunkIsItsBytes(r: Session)
    requires !r.Exhausted() && r.cursor == CHUNK * r.seqNo
    ensures r.Chunk() == ChunkBytes(r.payload, r.seqNo + 1)
    ensures r.seqNo + 1 <= Chunks(|r.payload|)
  {}

  lemma ReadyIsAtChunk(m: Session, call: Call)
    requires Good(m) && Drawable(call)
    ensures var r := m.Ready(call.drawn);
            && !r.Exhausted() && r.cursor == CHUNK * r.seqNo
            && Step(m, call).seqNo == r.seqNo + 1 && Step(m, call).payload == r.payload
  {}

  lemma PlainQueryIsItsChunk(m: Session, call: Call, gz: seq<byte> -> seq<byte>)
    requires Good(m) && Drawable(call) && call.tool != "iodine"
    ensures CarriesItsChunk(Emit(m, call, gz), Step(m, call).payload)
  {
    EmitAck(m, call, gz);
    PlainQueryDecodes(m, call, gz);
    ReadyIsAtChunk(m, call);
    ChunkIsItsBytes(m.Ready(call.drawn));
  }

  /**
    In a run of any tools, a plain query with acknowledgement `n` decodes to chunk `n` of the payload
    its session has then, whatever tools the calls before it used.
   */
  lemma {:induction false} PlainQueryCarriesItsChunk(m: Session, calls: seq<Call>, gz: seq<byte> -> seq<byte>, i: nat)
    requires Good(m) && i < |calls| && forall k | 0 <= k < |calls| :: Drawable(calls[k])
    requires calls[i].tool != "iodine"
    ensures CarriesItsChunk(Emissions(m, calls, gz)[i], Run(m, calls[..i + 1]).payload)
    decreases |calls|
  {
    var m' := Step(m, calls[0]);
    StepKeepsGood(m, calls[0]);
    assert calls[..i + 1][0] == calls[0];
    if i == 0 {
      PlainQueryIsItsChunk(m, calls[0], gz);
      assert calls[..1][1..] == [];
      assert Run(m', []) == m';
    } else {
      PlainQueryCarriesItsChunk(m', calls[1..], gz, i - 1);
      assert calls[..i + 1][1..] == calls[1..][..i];
      assert Emissions(m, calls, gz)[i] == Emissions(m', calls[1..], gz)[i - 1];
    }
  }

  /** Sessions finished so far, then the part of the current one that has been sent. */
  function Progress(finished: seq<seq<byte>>, m: Session): seq<seq<byte>>
    requires m.cursor <= |m.payload|
  {
    if m.payload == [] then finished else finished + [m.payload[..m.cursor]]
  }

  /** The payloads of the sessions that are over when a run ends. */
  function FinishedBy(finished: seq<seq<byte>>, m: Session, calls: seq<Call>): seq<seq<byte>>
    decreases |calls|
  {
    if calls == [] then finished
    else FinishedBy(if m.Exhausted() && m.payload != [] then finished + [m.payload] else finished,
                    Step(m, calls[0]), calls[1..])
  }

  lemma ReceiveFirst(finished: seq<seq<byte>>, m: Session, call: Call, gz: seq<byte> -> seq<byte>)
    requires Good(m) && Drawable(call) && call.tool != "iodine" && m.Exhausted()
    ensures Receive(Progress(finished, m), Emit(m, call, gz)) == Progress(Progress(finished, m), Step(m, call))
  {
    StepKeepsGood(m, call);
    EmitAck(m, call, gz);
    PlainQueryDecodes(m, call, gz);
    var r := m.Ready(call.drawn);
    assert r.Chunk() == r.payload[..r.End()];
  }

  lemma ReceiveNext(finished: seq<seq<byte>>, m: Session, call: Call, gz: seq<byte> -> seq<byte>)
    requires Good(m) && Drawable(call) && call.tool != "iodine" && !m.Exhausted()
    ensures Receive(Progress(finished, m), Emit(m, call, gz)) == Progress(finished, Step(m, call))
  {
    StepKeepsGood(m, call);
    EmitAck(m, call, gz);
    PlainQueryDecodes(m, call, gz);
    assert m.payload[..m.cursor] + m.Chunk() == m.payload[..m.End()];
    var before := Progress(finished, m);
    assert before[..|before| - 1] == finished;
  }

  lemma ReceiveOne(finished: seq<seq<byte>>, m: Session, call: Call, gz: seq<byte> -> seq<byte>)
    requires Good(m) && Drawable(call) && call.tool != "iodine"
    ensures Good(Step(m, call))
    ensures var finished' := if m.Exhausted() && m.payload != [] then finished + [m.payload] else finished;
            Receive(Progress(finished, m), Emit(m, call, gz)) == Progress(finished', Step(m, call))
  {
    StepKeepsGood(m, call);
    if m.Exhausted() {
      assert m.payload[..m.cursor] == m.payload;
      ReceiveFirst(finished, m, call, gz);
    } else {
      ReceiveNext(finished, m, call, gz);
    }
  }

  lemma {:induction false} ReceiverKeepsUp(finished: seq<seq<byte>>, m: Session, calls: seq<Call>, gz: seq<byte> -> seq<byte>)
    requires Good(m) && forall k | 0 <= k < |calls| :: Drawable(calls[k]) && calls[k].tool != "iodine"
    ensures Good(Run(m, calls))
    ensures ReceiveAll(Progress(finished, m), Emissions(m, calls, gz))
            == Progress(FinishedBy(finished, m, calls), Run(m, calls))
    decreases |calls|
  {
    if calls != [] {
      ReceiveOne(finished, m, calls[0], gz);
      var finished' := if m.Exhausted() && m.payload != [] then finished + [m.payload] else finished;
      ReceiverKeepsUp(finished', Step(m, calls[0]), calls[1..], gz);
      assert Emissions(m, calls, gz)[1..] == Emissions(Step(m, calls[0]), calls[1..], gz);
    }
  }

  /**
    Round trip over a whole run of a new generator, whatever plain tool and domain each call uses:
    the receiver, told the tool of each query, holds every finished payload in full and the sent part of
    the current one.
   */
  lemma {:induction false} ReceiverRebuildsSessions(calls: seq<Call>, gz: seq<byte> -> seq<byte>)
    requires forall k | 0 <= k < |calls| :: Drawable(calls[k]) && calls[k].tool != "iodine"
    ensures Good(Run(NO_SESSION, calls))
    ensures ReceiveAll([], Emissions(NO_SESSION, calls, gz))
            == Progress(FinishedBy([], NO_SESSION, calls), Run(NO_SESSION, calls))
  {
    ReceiverKeepsUp([], NO_SESSION, calls, gz);
  }

  lemma {:induction false} WithinSession(m: Session, finished: seq<seq<byte>>, calls: seq<Call>)
    requires Good(m) && m.payload != [] && m.seqNo + |calls| <= Chunks(|m.payload|)
    ensures var e := if |calls| == 0 || m.cursor + CHUNK * |calls| <= |m.payload| then m.cursor + CHUNK * |calls|
                     else |m.payload|;
            Run(m, calls) == Session(m.payload, e, Chunks(e))
    ensures FinishedBy(finished, m, calls) == finished
    decreases |calls|
  {
    if calls != [] {
      assert !m.Exhausted();
      assert Good(Step(m, calls[0]));
      WithinSession(Step(m, calls[0]), finished, calls[1..]);
    }
  }

  /** As many calls as the first payload has chunks deliver exactly that payload. */
  lemma {:induction false} WholeSessionRoundTrip(calls: seq<Call>, gz: seq<byte> -> seq<byte>)
    requires forall k | 0 <= k < |calls| :: Drawable(calls[k]) && calls[k].tool != "iodine"
    requires calls != [] && |calls| == Chunks(|calls[0].drawn|)
    ensures ReceiveAll([], Emissions(NO_SESSION, calls, gz)) == [calls[0].drawn]
    ensures Run(NO_SESSION, calls).Exhausted()
  {
    ReceiverRebuildsSessions(calls, gz);
    var payload := calls[0].drawn;
    var m := Step(NO_SESSION, calls[0]);
    StepKeepsGood(NO_SESSION, calls[0]);
    WithinSession(m, [], calls[1..]);
    assert Run(NO_SESSION, calls).payload == payload;
    assert Run(NO_SESSION, calls).cursor == |payload|;
    assert payload[..|payload|] == payload;
  }

  // ------------------------------------------------------------------ iodine

  lemma HeaderRoundTrip(n: nat)
    requires n < TWO32
    ensures HeaderValue(Header(n)) == n
  {
    var a, b, c := n / 0x100, n / 0x1_0000, n / 0x100_0000;
    assert n == 0x100 * a + n % 0x100;
    assert a == 0x100 * b + a % 0x100 && b == a / 0x100;
    assert b == 0x100 * c + b % 0x100 && c == b / 0x100;
  }

  function SeqOf(text: string): nat
    requires |text| >= 7
  {
    HeaderValue(FromB32(text[..7]))
  }

  /** The cut label still names its chunk: 7 symbols cover the 32-bit header, whatever gzip wrote. */
  lemma IodineLabelKeepsSeq(n: nat, chunk: seq<byte>, gz: seq<byte> -> seq<byte>)
    requires n < TWO32
    ensures |Label("iodine", n, chunk, gz)| >= 7
    ensures SeqOf(Label("iodine", n, chunk, gz)) == n
  {
    var whole := B32(Header(n) + gz(chunk));
    B32PrefixDecodes(Header(n), gz(chunk), 7);
    assert Cut(whole)[..7] == whole[..7];
    HeaderRoundTrip(n);
  }

  /** The acknowledgement number of call `j`. */
  function Ack(m: Session, calls: seq<Call>, j: nat): nat
    requires j < |calls|
    decreases j
  {
    if j == 0 then Step(m, calls[0]).seqNo else Ack(Step(m, calls[0]), calls[1..], j - 1)
  }

  lemma EmitAck(m: Session, call: Call, gz: seq<byte> -> seq<byte>)
    ensures Emit(m, call, gz).ack == Step(m, call).seqNo
  {}

  lemma {:induction false} AckIsEmitted(m: Session, calls: seq<Call>, gz: seq<byte> -> seq<byte>, j: nat)
    requires j < |calls|
    ensures Emissions(m, calls, gz)[j].ack == Ack(m, calls, j)
    decreases j
  {
    EmitAck(m, calls[0], gz);
    if j > 0 {
      AckIsEmitted(Step(m, calls[0]), calls[1..], gz, j - 1);
      assert Emissions(m, calls, gz)[j] == Emissions(Step(m, calls[0]), calls[1..], gz)[j - 1];
    }
  }

  lemma {:induction false} AckCountsUp(m: Session, calls: seq<Call>, j: nat)
    requires Good(m) && j < |calls| && forall k | 0 <= k < |calls| :: Drawable(calls[k])
    requires forall k: nat | k <= j :: Ack(m, calls, k) != 1
    ensures Ack(m, calls, j) == m.seqNo + j + 1
    decreases j
  {
    var m' := Step(m, calls[0]);
    StepKeepsGood(m, calls[0]);
    assert Ack(m, calls, 0) != 1;
    if j > 0 {
      forall k: nat | k <= j - 1 ensures Ack(m', calls[1..], k) != 1 {
        assert Ack(m, calls, k + 1) != 1;
      }
      AckCountsUp(m', calls[1..], j - 1);
    }
  }

  /** The query's name holds its acknowledgement. */
  predicate NamesItsAck(q: Query) {
    |FirstLabel(q.qname)| >= 7 && SeqOf(FirstLabel(q.qname)) == q.ack
  }

  lemma EmitNamesItsAck(m: Session, call: Call, gz: seq<byte> -> seq<byte>)
    requires call.tool == "iodine"
    ensures NamesItsAck(Emit(m, call, gz))
  {
    var r := m.Ready(call.drawn);
    var n := (r.seqNo + 1) % TWO32;
    IodineLabelKeepsSeq(n, r.Chunk(), gz);
    B32HasNoDot(Header(n) + gz(r.Chunk()));
    FirstLabelOfJoin(Label("iodine", n, r.Chunk(), gz), call.domain);
  }

  lemma {:induction false} QueryNamesItsAck(m: Session, calls: seq<Call>, gz: seq<byte> -> seq<byte>, i: nat)
    requires i < |calls| && calls[i].tool == "iodine"
    ensures NamesItsAck(Emissions(m, calls, gz)[i])
    decreases |calls|
  {
    if i == 0 {
      EmitNamesItsAck(m, calls[0], gz);
    } else {
      QueryNamesItsAck(Step(m, calls[0]), calls[1..], gz, i - 1);
    }
  }

  lemma {:induction false} AcksOfOneSession(m: Session, calls: seq<Call>, i: nat, j: nat)
    requires Good(m) && i < j < |calls| && forall k | 0 <= k < |calls| :: Drawable(calls[k])
    requires forall k: nat | i < k <= j :: Ack(m, calls, k) != 1
    ensures Ack(m, calls, j) == Ack(m, calls, i) + (j - i)
    decreases i
  {
    var m' := Step(m, calls[0]);
    StepKeepsGood(m, calls[0]);
    forall k: nat | i <= k <= j - 1 ensures k < |calls| - 1 && Ack(m', calls[1..], k) == Ack(m, calls, k + 1) {}
    if i == 0 {
      AckCountsUp(m', calls[1..], j - 1);
    } else {
      AcksOfOneSession(m', calls[1..], i - 1, j - 1);
    }
  }

  /** Two iodine queries of one session never share a qname, cut labels and all. */
  lemma {:induction false} IodineQueriesDiffer(m: Session, calls: seq<Call>, gz: seq<byte> -> seq<byte>, i: nat, j: nat)
    requires Good(m) && i < j < |calls| && forall k | 0 <= k < |calls| :: Drawable(calls[k])
    requires calls[i].tool == "iodine" && calls[j].tool == "iodine"
    requires forall k | i < k <= j :: Emissions(m, calls, gz)[k].ack != 1
    ensures Emissions(m, calls, gz)[i].qname != Emissions(m, calls, gz)[j].qname
    ensures Emissions(m, calls, gz)[j].ack == Emissions(m, calls, gz)[i].ack + (j - i)
  {
    forall k: nat | i <= k <= j ensures Ack(m, calls, k) == Emissions(m, calls, gz)[k].ack {
      AckIsEmitted(m, calls, gz, k);
    }
    AcksOfOneSession(m, calls, i, j);
    QueryNamesItsAck(m, calls, gz, i);
    QueryNamesItsAck(m, calls, gz, j);
  }
}
