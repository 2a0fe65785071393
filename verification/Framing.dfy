/** The frames of the socket link: what the reader accepts, which errors it misses, and what it delivers. */
module Framing {
  import opened Wrappers

  /** A byte on the wire. */
  type octet = bv8

  const PAYLOAD := 256
  const FRAME := 259

  const STC: octet := 0x01
  const STX: octet := 0x02
  const ETX: octet := 0x03
  const NONE: octet := 0x00

  datatype ControlChar = Enq | Ack | Nack | Eot | Stx | Etx | Nothing | Stc

  function ControlOctet(c: ControlChar): octet {
    match c
    case Enq => 0x05
    case Ack => 0x06
    case Nack => 0x15
    case Eot => 0x04
    case Stx => STX
    case Etx => ETX
    case Nothing => NONE
    case Stc => STC
  }

  predicate IsControl(b: octet) {
    b == 0x05 || b == 0x06 || b == 0x15 || b == 0x04 || b == STX || b == ETX || b == NONE || b == STC
  }

  /** The control character that a receiver takes the code for. */
  function ControlOf(b: octet): Option<ControlChar> {
    if b == 0x05 then Some(Enq)
    else if b == 0x06 then Some(Ack)
    else if b == 0x15 then Some(Nack)
    else if b == 0x04 then Some(Eot)
    else if b == 0x02 then Some(Stx)
    else if b == 0x03 then Some(Etx)
    else if b == 0x00 then Some(Nothing)
    else if b == 0x01 then Some(Stc)
    else None
  }

  /** A control character is never read as another, and only control characters pass the check. */
  lemma CodesDecode(c: ControlChar, d: ControlChar, b: octet)
    ensures ControlOf(ControlOctet(c)) == Some(c)
    ensures ControlOctet(c) == ControlOctet(d) <==> c == d
    ensures IsControl(b) <==> ControlOf(b).Some?
    ensures ControlOf(b).Some? ==> ControlOctet(ControlOf(b).value) == b
  {
  }

  /** The exclusive or of the bytes. */
  function Lrc(bs: seq<octet>): octet {
    if bs == [] then 0 else Lrc(bs[..|bs| - 1]) ^ bs[|bs| - 1]
  }

  datatype ReadError = SocketClosed | ReadFailed | InvalidFormat | InvalidLrc | Timeout | NoError

  predicate FormatOk(f: seq<octet>)
    requires |f| == FRAME
  {
    if f[0] == STC then IsControl(f[1]) else f[0] == STX && f[FRAME - 2] == ETX
  }

  /** The checks on a frame that arrived. */
  function Check(f: seq<octet>): ReadError
    requires |f| == FRAME
  {
    if !FormatOk(f) then InvalidFormat
    else if f[0] == STX && Lrc(f[..FRAME - 1]) != f[FRAME - 1] then InvalidLrc
    else NoError
  }

  function Seal(b: seq<octet>): (f: seq<octet>)
    requires |b| == FRAME
    ensures |f| == FRAME
  {
    b[FRAME - 1 := Lrc(b[..FRAME - 1])]
  }

  /** What is sent for a buffer. */
  function DataFrame(b: seq<octet>): (f: seq<octet>)
    requires |b| == FRAME
    ensures |f| == FRAME
  {
    Seal(b[0 := STX][FRAME - 2 := ETX])
  }

  function ControlFrame(b: seq<octet>, c: ControlChar): (f: seq<octet>)
    requires |b| == FRAME
    ensures |f| == FRAME
  {
    Seal(b[0 := STC][1 := ControlOctet(c)])
  }

  // ---------------------------------------------------------------- errors on the wire

  function Xor(a: seq<octet>, b: seq<octet>): (c: seq<octet>)
    requires |a| == |b|
    ensures |c| == |a|
  {
    seq(|a|, i requires 0 <= i < |a| => a[i] ^ b[i])
  }

  lemma Interchange(a: octet, b: octet, c: octet, d: octet)
    ensures (a ^ b) ^ (c ^ d) == (a ^ c) ^ (b ^ d)
  {
  }

  lemma {:induction false} LrcOfXor(a: seq<octet>, b: seq<octet>)
    requires |a| == |b|
    ensures Lrc(Xor(a, b)) == Lrc(a) ^ Lrc(b)
  {
    var n := |a| - 1;
    if n >= 0 {
      assert Xor(a, b)[..n] == Xor(a[..n], b[..n]);
      LrcOfXor(a[..n], b[..n]);
      Interchange(Lrc(a[..n]), Lrc(b[..n]), a[n], b[n]);
    }
  }

  lemma Cancel(a: octet, b: octet, c: octet)
    ensures a ^ b == a ^ c <==> b == c
    ensures a ^ a == 0 && a ^ 0 == a && 0 ^ a == a
    ensures b ^ c == 0 <==> b == c
  {
    assert b ^ c == 0 ==> b == (b ^ c) ^ c;
    assert b == a ^ (a ^ b) && c == a ^ (a ^ c);
  }

  /** A frame's check byte is right exactly when the whole frame cancels out. */
  lemma CheckByteRightIff(f: seq<octet>, n: nat)
    requires |f| == n + 1
    ensures Lrc(f[..n]) == f[n] <==> Lrc(f) == 0
  {
    Cancel(0, Lrc(f[..n]), f[n]);
  }

  /** The check byte of a corrupted frame is right exactly when the errors cancel out. */
  lemma CheckByteAgreesIff(f: seq<octet>, e: seq<octet>, n: nat)
    requires |f| == |e| == n + 1 && f[n] == Lrc(f[..n])
    ensures Lrc(Xor(f, e)[..n]) == Xor(f, e)[n] <==> Lrc(e) == 0
  {
    CheckByteRightIff(f, n);
    LrcOfXor(f, e);
    assert Lrc(Xor(f, e)) == Lrc(e);
    CheckByteRightIff(Xor(f, e), n);
  }

  lemma DataFrameShape(b: seq<octet>)
    requires |b| == FRAME
    ensures var f := DataFrame(b);
            f[0] == STX && f[FRAME - 2] == ETX && f[FRAME - 1] == Lrc(f[..FRAME - 1])
  {
    assert DataFrame(b)[..FRAME - 1] == b[0 := STX][FRAME - 2 := ETX][..FRAME - 1];
  }

  lemma MarksIntactIff(f: seq<octet>, e: seq<octet>)
    requires |f| == |e| == FRAME && f[0] == STX && f[FRAME - 2] == ETX
    ensures Xor(f, e)[0] == STX <==> e[0] == 0
    ensures Xor(f, e)[FRAME - 2] == ETX <==> e[FRAME - 2] == 0
  {
    Cancel(STX, e[0], 0);
    Cancel(ETX, e[FRAME - 2], 0);
  }

  /** Which corruptions of a data frame pass, for every error pattern: while the first byte is intact, those
      that leave the end mark alone and cancel out; otherwise, those that turn it into a control frame. */
  lemma CorruptedFrameAcceptedIff(b: seq<octet>, e: seq<octet>)
    requires |b| == |e| == FRAME
    ensures var received := Xor(DataFrame(b), e);
            Check(received).NoError? <==>
            if e[0] == 0 then e[FRAME - 2] == 0 && Lrc(e) == 0
            else received[0] == STC && IsControl(received[1])
  {
    DataFrameShape(b);
    MarksIntactIff(DataFrame(b), e);
    CheckByteAgreesIff(DataFrame(b), e, FRAME - 1);
  }

  lemma {:induction false} LrcOfOne(e: seq<octet>, i: nat)
    requires i < |e| && forall j :: 0 <= j < |e| && j != i ==> e[j] == 0
    ensures Lrc(e) == e[i]
  {
    var n := |e| - 1;
    if i == n {
      LrcOfNone(e[..n]);
      Cancel(e[n], 0, 0);
    } else {
      LrcOfOne(e[..n], i);
      Cancel(e[i], 0, 0);
    }
  }

  lemma {:induction false} LrcOfNone(e: seq<octet>)
    requires forall j :: 0 <= j < |e| ==> e[j] == 0
    ensures Lrc(e) == 0
  {
    if e != [] {
      LrcOfNone(e[..|e| - 1]);
    }
  }

  lemma {:induction false} LrcOfTwo(e: seq<octet>, i: nat, j: nat)
    requires i < j < |e| && forall k :: 0 <= k < |e| && k != i && k != j ==> e[k] == 0
    ensures Lrc(e) == e[i] ^ e[j]
  {
    var n := |e| - 1;
    if j == n {
      LrcOfOne(e[..n], i);
    } else {
      LrcOfTwo(e[..n], i, j);
      Cancel(e[i] ^ e[j], 0, 0);
    }
  }

  /** Every error in a single byte behind the first is caught. */
  lemma SingleErrorsAreCaught(b: seq<octet>, e: seq<octet>, i: nat)
    requires |b| == |e| == FRAME && 0 < i < FRAME && e[i] != 0
    requires forall j :: 0 <= j < FRAME && j != i ==> e[j] == 0
    ensures !Check(Xor(DataFrame(b), e)).NoError?
  {
    CorruptedFrameAcceptedIff(b, e);
    LrcOfOne(e, i);
  }

  /** Two errors behind the first byte pass exactly when they are the same and spare the end mark. */
  lemma DoubleErrorsPassIff(b: seq<octet>, e: seq<octet>, i: nat, j: nat)
    requires |b| == |e| == FRAME && 0 < i < j < FRAME && e[i] != 0 && e[j] != 0
    requires forall k :: 0 <= k < FRAME && k != i && k != j ==> e[k] == 0
    ensures Check(Xor(DataFrame(b), e)).NoError? <==> e[i] == e[j] && i != FRAME - 2 && j != FRAME - 2
  {
    CorruptedFrameAcceptedIff(b, e);
    LrcOfTwo(e, i, j);
    Cancel(0, e[i], e[j]);
  }

  // ---------------------------------------------------------------- the link

  /** What a program does with its end: it fills the window, sends it, or sends a control character. */
  datatype Action = Fill(index: nat, value: octet) | Write | Control(control: ControlChar)

  /** What the other end sees after a read. */
  datatype Seen = Payload(window: seq<octet>) | Char(code: octet) | Neither

  function Window(b: seq<octet>): seq<octet>
    requires |b| == FRAME
  {
    b[1..1 + PAYLOAD]
  }

  function Act(b: seq<octet>, a: Action): (after: seq<octet>)
    requires |b| == FRAME
    ensures |after| == FRAME
  {
    match a
    case Fill(i, v) => if i < PAYLOAD then b[1 + i := v] else b
    case Write => DataFrame(b)
    case Control(c) => ControlFrame(b, c)
  }

  predicate Sends(a: Action) { !a.Fill? }

  /** The frames on the wire; the buffer keeps what was sent last. */
  function Wire(b: seq<octet>, actions: seq<Action>): (frames: seq<seq<octet>>)
    requires |b| == FRAME
    ensures forall f :: f in frames ==> |f| == FRAME
    decreases |actions|
  {
    if actions == [] then []
    else
      var after := Act(b, actions[0]);
      (if Sends(actions[0]) then [after] else []) + Wire(after, actions[1..])
  }

  /** The receiver's data after reading a frame. */
  function Read(f: seq<octet>): (data: seq<octet>)
    requires |f| == FRAME
    ensures |data| == FRAME
  {
    if Check(f).NoError? then f else f[0 := NONE]
  }

  function See(data: seq<octet>): Seen
    requires |data| == FRAME
  {
    if data[0] == STX then Payload(Window(data)) else if data[0] == STC then Char(data[1]) else Neither
  }

  function Delivered(frames: seq<seq<octet>>): seq<Seen>
    requires forall f :: f in frames ==> |f| == FRAME
  {
    if frames == [] then [] else [See(Read(frames[0]))] + Delivered(frames[1..])
  }

  /** What one action adds to what is seen, and the window it leaves. */
  function SeenOf(window: seq<octet>, a: Action): seq<Seen> {
    match a
    case Fill(_, _) => []
    case Write => [Payload(window)]
    case Control(c) => [Char(ControlOctet(c))]
  }

  function WindowAfter(window: seq<octet>, a: Action): (after: seq<octet>)
    requires |window| == PAYLOAD
    ensures |after| == PAYLOAD
  {
    match a
    case Fill(i, v) => if i < PAYLOAD then window[i := v] else window
    case Write => window
    case Control(c) => window[0 := ControlOctet(c)]
  }

  /** The window in the sender's hands, as each send should be seen. */
  function Intended(window: seq<octet>, actions: seq<Action>): seq<Seen>
    requires |window| == PAYLOAD
    decreases |actions|
  {
    if actions == [] then []
    else SeenOf(window, actions[0]) + Intended(WindowAfter(window, actions[0]), actions[1..])
  }

  lemma SentFramesPass(b: seq<octet>, c: ControlChar)
    requires |b| == FRAME
    ensures Check(DataFrame(b)).NoError? && See(DataFrame(b)) == Payload(Window(b))
    ensures Check(ControlFrame(b, c)).NoError? && See(ControlFrame(b, c)) == Char(ControlOctet(c))
  {
    DataFrameShape(b);
  }

  lemma ActKeepsWindow(b: seq<octet>, a: Action)
    requires |b| == FRAME
    ensures Window(Act(b, a)) == WindowAfter(Window(b), a)
  {
  }

  lemma DeliveredNext(f: seq<octet>, rest: seq<seq<octet>>)
    requires |f| == FRAME && forall g :: g in rest ==> |g| == FRAME
    ensures forall g :: g in [f] + rest ==> |g| == FRAME
    ensures Delivered([f] + rest) == [See(Read(f))] + Delivered(rest)
  {
    assert ([f] + rest)[1..] == rest;
  }

  lemma ActionDelivers(b: seq<octet>, a: Action, rest: seq<seq<octet>>)
    requires |b| == FRAME && forall g :: g in rest ==> |g| == FRAME
    ensures Window(Act(b, a)) == WindowAfter(Window(b), a)
    ensures var frames := (if Sends(a) then [Act(b, a)] else []) + rest;
            && (forall g :: g in frames ==> |g| == FRAME)
            && Delivered(frames) == SeenOf(Window(b), a) + Delivered(rest)
  {
    ActKeepsWindow(b, a);
    if Sends(a) {
      SentFramesPass(b, if a.Control? then a.control else Ack);
      DeliveredNext(Act(b, a), rest);
    } else {
      assert [] + rest == rest && [] + Delivered(rest) == Delivered(rest);
    }
  }

  /** Frames delivered whole and in order: the receiver sees each sent window and control character, in order. */
  lemma {:induction false} LinkDelivers(b: seq<octet>, actions: seq<Action>)
    requires |b| == FRAME
    ensures Delivered(Wire(b, actions)) == Intended(Window(b), actions)
    decreases |actions|
  {
    if actions != [] {
      var after := Act(b, actions[0]);
      ActionDelivers(b, actions[0], Wire(after, actions[1..]));
      LinkDelivers(after, actions[1..]);
    }
  }

  /** A read that succeeds shows exactly one of payload and control character; one that fails shows neither. */
  lemma ReadShowsOneIffAccepted(f: seq<octet>)
    requires |f| == FRAME
    ensures See(Read(f)).Neither? <==> !Check(f).NoError?
  {
  }

  // ---------------------------------------------------------------- the handler

  /** What a read from the socket brings. */
  datatype Incoming = Arrived(frame: seq<octet>) | TimedOut | Broken

  class SocketHandler {
    var open: bool
    var error: ReadError
    const buffer: array<octet>
    const data: array<octet>
    /** The frames written to the socket. */
    var written: seq<seq<octet>>

    ghost predicate Valid() {
      buffer.Length == data.Length == FRAME && buffer != data
    }

    constructor (open: bool)
      ensures Valid() && fresh(buffer) && fresh(data)
      ensures this.open == open && error == NoError && written == []
      ensures forall i :: 0 <= i < FRAME ==> buffer[i] == NONE && data[i] == NONE
    {
      this.open, error, written := open, NoError, [];
      buffer := new octet[FRAME](i => NONE);
      data := new octet[FRAME](i => NONE);
    }

    static method LrcOf(a: array<octet>, n: nat) returns (lrc: octet)
      requires n <= a.Length
      ensures lrc == Lrc(a[..n])
    {
      lrc := 0;
      for i := 0 to n
        invariant lrc == Lrc(a[..i])
      {
        lrc := lrc ^ a[i];
        assert a[..i + 1][..i] == a[..i];
      }
    }

    method WriteInternal() returns (ok: bool)
      requires Valid()
      modifies this`written, buffer
      ensures ok == open
      ensures !open ==> written == old(written) && buffer[..] == old(buffer[..])
      ensures open ==> buffer[..] == Seal(old(buffer[..])) && written == old(written) + [buffer[..]]
    {
      if !open {
        return false;
      }
      var lrc := LrcOf(buffer, FRAME - 1);
      assert buffer[..][..FRAME - 1] == buffer[..FRAME - 1];
      buffer[FRAME - 1] := lrc;
      written := written + [buffer[..]];
      ok := true;
    }

    method WriteToSocket() returns (ok: bool)
      requires Valid()
      modifies this`written, buffer
      ensures ok == open
      ensures open ==> buffer[..] == DataFrame(old(buffer[..])) && written == old(written) + [buffer[..]]
      ensures !open ==> written == old(written) && buffer[..] == old(buffer[..])[0 := STX][FRAME - 2 := ETX]
    {
      buffer[0] := STX;
      buffer[FRAME - 2] := ETX;
      assert buffer[..] == old(buffer[..])[0 := STX][FRAME - 2 := ETX];
      ok := WriteInternal();
    }

    method SendControlChar(c: ControlChar) returns (ok: bool)
      requires Valid()
      modifies this`written, buffer
      ensures ok == open
      ensures open ==> buffer[..] == ControlFrame(old(buffer[..]), c) && written == old(written) + [buffer[..]]
      ensures !open ==> written == old(written) && buffer[..] == old(buffer[..])[0 := STC][1 := ControlOctet(c)]
    {
      buffer[0] := STC;
      buffer[1] := ControlOctet(c);
      assert buffer[..] == old(buffer[..])[0 := STC][1 := ControlOctet(c)];
      ok := WriteInternal();
    }

    method ReadInternal(incoming: Incoming) returns (ok: bool)
      requires Valid() && (incoming.Arrived? ==> |incoming.frame| == FRAME)
      modifies this`error, data
      ensures ok == error.NoError?
      ensures open && incoming.Arrived? ==> data[..] == incoming.frame && error == Check(incoming.frame)
      ensures !(open && incoming.Arrived?) ==>
                data[..] == old(data[..]) &&
                error == if !open then SocketClosed else if incoming.TimedOut? then Timeout else ReadFailed
    {
      if !open {
        error := SocketClosed;
        return false;
      }
      if !incoming.Arrived? {
        error := if incoming.TimedOut? then Timeout else ReadFailed;
        return false;
      }
      forall i | 0 <= i < FRAME {
        data[i] := incoming.frame[i];
      }
      assert data[..] == incoming.frame;
      if !FormatOk(data[..]) {
        error := InvalidFormat;
        return false;
      }
      if data[0] == STX {
        var lrc := LrcOf(data, FRAME - 1);
        assert data[..][..FRAME - 1] == data[..FRAME - 1];
        if lrc != data[FRAME - 1] {
          error := InvalidLrc;
          return false;
        }
      }
      error := NoError;
      ok := true;
    }

    method ReadFromSocket(incoming: Incoming) returns (ok: bool)
      requires Valid() && (incoming.Arrived? ==> |incoming.frame| == FRAME)
      modifies this`error, data
      ensures ok == (open && incoming.Arrived? && Check(incoming.frame).NoError?) == error.NoError?
      ensures open && incoming.Arrived? ==> data[..] == Read(incoming.frame)
      ensures ok <==> !See(data[..]).Neither?
    {
      ok := ReadInternal(incoming);
      if !error.NoError? {
        data[0] := NONE;
        assert open && incoming.Arrived? ==> data[..] == incoming.frame[0 := NONE];
      }
    }
  }
}
