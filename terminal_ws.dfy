/**
 * WebSocket framing of the PHP terminal endpoint (public/api/terminal-ws.php):
 * readFrame decodes one client frame from the socket and sendFrame writes
 * one unmasked text frame, following the base framing of section 5.2 of
 * RFC 6455 and the client-to-server masking of section 5.3.
 *
 * The socket is a byte sequence with a read cursor: `bytes` is everything
 * the peer has sent, `pos` how far fread has consumed it, and `written`
 * everything fwrite has sent back. A read returns every requested byte that
 * has arrived, and fewer only at the end of the stream.
 */
module TerminalWs {

  import opened Bytes

  const TwoTo63: int := 0x8000_0000_0000_0000
  const TwoTo64: int := 0x1_0000_0000_0000_0000

  // ------------------------------------------------------------------ big-endian integers

  function Pow256(k: nat): (r: nat)
    ensures r >= 1
  {
    if k == 0 then 1 else 256 * Pow256(k - 1)
  }

  /** unpack('n') and unpack('J'): the unsigned big-endian value of the bytes. */
  function BigEndianValue(b: seq<Byte>): (v: nat)
    ensures v < Pow256(|b|)
    decreases |b|
  {
    if b == [] then 0 else BigEndianValue(b[..|b| - 1]) * 256 + b[|b| - 1] as nat
  }

  /** pack('n') and pack('J'): n in k bytes, most significant first. */
  function BigEndian(n: nat, k: nat): (b: seq<Byte>)
    requires n < Pow256(k)
    ensures |b| == k
  {
    if k == 0 then [] else BigEndian(n / 256, k - 1) + [(n % 256) as Byte]
  }

  lemma HighPartFits(n: nat, k: nat)
    requires k > 0 && n < Pow256(k)
    ensures n / 256 < Pow256(k - 1)
  {
    assert n < 256 * Pow256(k - 1);
  }

  /** The two widths the length field uses. */
  lemma Pow256Widths()
    ensures Pow256(2) == 65536 && Pow256(8) == TwoTo64
  {
    assert Pow256(1) == 256;
    assert Pow256(2) == 65536;
    assert Pow256(4) == 65536 * 65536 by {
      assert Pow256(3) == 256 * 65536;
    }
    assert Pow256(6) == 65536 * 65536 * 65536 by {
      assert Pow256(5) == 256 * Pow256(4);
    }
    assert Pow256(8) == 65536 * 65536 * 65536 * 65536 by {
      assert Pow256(7) == 256 * Pow256(6);
    }
  }

  /** Decoding the big-endian bytes of a number gives the number back. */
  lemma {:induction false} BigEndianRoundTrip(n: nat, k: nat)
    requires n < Pow256(k)
    ensures BigEndianValue(BigEndian(n, k)) == n
  {
    if k > 0 {
      HighPartFits(n, k);
      var q, r := n / 256, n % 256;
      var high := BigEndian(q, k - 1);
      BigEndianRoundTrip(q, k - 1);
      var b := BigEndian(n, k);
      assert b == high + [r as Byte];
      assert b[..|b| - 1] == high;
      assert BigEndianValue(b) == BigEndianValue(high) * 256 + (r as Byte) as nat;
      ByteOfSmall(r);
      assert n == q * 256 + r;
    }
  }

  // ------------------------------------------------------------------ masking

  /** Section 5.3 of RFC 6455: byte i is combined with mask byte i mod 4. */
  function XorMask(payload: seq<Byte>, mask: seq<Byte>): (out: seq<Byte>)
    requires |mask| == 4
    ensures |out| == |payload|
    ensures forall i :: 0 <= i < |out| ==> out[i] == payload[i] ^ mask[i % 4]
  {
    seq(|payload|, i requires 0 <= i < |payload| => payload[i] ^ mask[i % 4])
  }

  /** Masking is its own inverse. */
  lemma XorMaskInvolution(payload: seq<Byte>, mask: seq<Byte>)
    requires |mask| == 4
    ensures XorMask(XorMask(payload, mask), mask) == payload
  {
    var once := XorMask(payload, mask);
    var twice := XorMask(once, mask);
    forall i | 0 <= i < |payload| ensures twice[i] == payload[i] {
      assert twice[i] == (payload[i] ^ mask[i % 4]) ^ mask[i % 4];
    }
  }

  // ------------------------------------------------------------------ the socket

  /** What fread(n) returns from position p: up to n bytes, fewer only at the end of the stream. */
  function Take(b: seq<Byte>, p: nat, n: nat): (r: seq<Byte>)
    requires p <= |b|
    ensures |r| <= n && p + |r| <= |b|
    ensures |r| < n ==> p + |r| == |b|
  {
    if p + n <= |b| then b[p..p + n] else b[p..]
  }

  class Stream {
    var bytes: seq<Byte>
    var pos: nat
    var written: seq<Byte>

    ghost predicate Valid()
      reads this
    {
      pos <= |bytes|
    }

    constructor (incoming: seq<Byte>)
      ensures Valid() && bytes == incoming && pos == 0 && written == []
    {
      bytes, pos, written := incoming, 0, [];
    }

    /** fread: consumes and returns the next bytes, at most n of them. */
    method Read(n: nat) returns (chunk: seq<Byte>)
      requires Valid()
      modifies this`pos
      ensures Valid()
      ensures chunk == Take(bytes, old(pos), n) && pos == old(pos) + |chunk|
    {
      chunk := Take(bytes, pos, n);
      pos := pos + |chunk|;
    }

    /** fwrite followed by fflush. */
    method Write(data: seq<Byte>)
      modifies this`written
      ensures written == old(written) + data
    {
      written := written + data;
    }
  }

  // ------------------------------------------------------------------ readFrame

  /** readFrame's three outcomes: null, false, or the payload string. */
  datatype Frame = NoFrame | CloseFrame | Data(payload: seq<Byte>)

  const CloseOpcode: Byte := 0x08

  /** The low four bits of the first header byte. */
  function Opcode(byte1: Byte): Byte { byte1 & 0x0F }

  /** The seven-bit length in the second header byte. */
  function Len7(byte2: Byte): Byte { byte2 & 0x7F }

  /** The mask bit, the high bit of the second header byte. */
  predicate MaskBit(byte2: Byte) { byte2 & 0x80 != 0 }

  /** unpack('n', ...)[1] on the extended length; a short read leaves null, which counts as 0. */
  function Unpack16(ext: seq<Byte>): (v: int)
    requires |ext| <= 2
    ensures 0 <= v < 65536
  {
    Pow256Widths();
    if |ext| < 2 then 0 else BigEndianValue(ext)
  }

  /** unpack('J', ...)[1]: the 64-bit value read into PHP's signed integer. */
  function Unpack64(ext: seq<Byte>): (v: int)
    requires |ext| <= 8
    ensures -TwoTo63 <= v < TwoTo63
  {
    Pow256Widths();
    if |ext| < 8 then 0
    else
      var u := BigEndianValue(ext);
      if u >= TwoTo63 then u - TwoTo64 else u
  }

  /** The bytes of the extended length that follow the two header bytes at p. */
  function ExtendedLength(b: seq<Byte>, p: nat): (ext: seq<Byte>)
    requires p + 2 <= |b|
    ensures |ext| <= 8 && (Len7(b[p + 1]) == 126 ==> |ext| <= 2)
  {
    var len7 := Len7(b[p + 1]);
    if len7 == 126 then Take(b, p + 2, 2) else if len7 == 127 then Take(b, p + 2, 8) else []
  }

  /** The payload length the header at p declares. */
  function DeclaredLength(b: seq<Byte>, p: nat): int
    requires p + 2 <= |b|
  {
    var len7 := Len7(b[p + 1]);
    var ext := ExtendedLength(b, p);
    if len7 == 126 then Unpack16(ext) else if len7 == 127 then Unpack64(ext) else len7 as int
  }

  predicate IsMasked(b: seq<Byte>, p: nat)
    requires p + 2 <= |b|
  {
    MaskBit(b[p + 1])
  }

  /** Where the mask (or, unmasked, the payload) starts: after the two header bytes and the extended length. */
  function HeaderEnd(b: seq<Byte>, p: nat): (q: nat)
    requires p + 2 <= |b|
    ensures q <= |b|
  {
    p + 2 + |ExtendedLength(b, p)|
  }

  /** The masking key, as far as the stream holds it; empty for an unmasked frame. */
  function MaskOf(b: seq<Byte>, p: nat): (mask: seq<Byte>)
    requires p + 2 <= |b|
    ensures |mask| <= 4 && HeaderEnd(b, p) + |mask| <= |b|
    ensures 0 < |mask| < 4 ==> HeaderEnd(b, p) + |mask| == |b|
  {
    if IsMasked(b, p) then Take(b, HeaderEnd(b, p), 4) else []
  }

  /** What the payload loop collects from position q for a declared length n: nothing unless n is positive. */
  function PayloadAt(b: seq<Byte>, q: nat, n: int): (payload: seq<Byte>)
    requires q <= |b|
    ensures q + |payload| <= |b|
  {
    if n > 0 then Take(b, q, n) else []
  }

  /** The payload bytes as read, before unmasking. */
  function RawPayload(b: seq<Byte>, p: nat): (payload: seq<Byte>)
    requires p + 2 <= |b|
    ensures HeaderEnd(b, p) + |MaskOf(b, p)| + |payload| <= |b|
  {
    PayloadAt(b, HeaderEnd(b, p) + |MaskOf(b, p)|, DeclaredLength(b, p))
  }

  lemma RawPayloadAt(b: seq<Byte>, p: nat, q: nat, n: int)
    requires p + 2 <= |b| && q == HeaderEnd(b, p) + |MaskOf(b, p)| && n == DeclaredLength(b, p)
    ensures PayloadAt(b, q, n) == RawPayload(b, p)
  {
  }

  /**
   * The frame readFrame decodes from the stream at position p, and the
   * position it leaves the stream at.
   */
  function DecodeAt(b: seq<Byte>, p: nat): (r: (Frame, nat))
    requires p <= |b|
    ensures p <= r.1 <= |b|
    ensures r.0 == NoFrame <==> |b| - p < 2
    ensures r.0 == NoFrame ==> r.1 == |b|
    ensures r.0 == CloseFrame <==> |b| - p >= 2 && Opcode(b[p]) == CloseOpcode
  {
    if |b| - p < 2 then (NoFrame, |b|)
    else if Opcode(b[p]) == CloseOpcode then (CloseFrame, p + 2)
    else
      var mask := MaskOf(b, p);
      var payload := RawPayload(b, p);
      (Data(if |mask| == 4 then XorMask(payload, mask) else payload), HeaderEnd(b, p) + |mask| + |payload|)
  }

  /**
   * The payload is never longer than the declared length, and is shorter
   * only when the stream ran out.
   */
  lemma PayloadBound(b: seq<Byte>, p: nat)
    requires p <= |b|
    requires DecodeAt(b, p).0.Data?
    ensures var d := DecodeAt(b, p).0.payload;
      |d| <= (if DeclaredLength(b, p) > 0 then DeclaredLength(b, p) else 0)
      && (|d| < DeclaredLength(b, p) ==> DecodeAt(b, p).1 == |b|)
  {
  }

  /** A data frame: the mask is complete whenever a payload follows it, and unmasking applies exactly then. */
  lemma DecodeAtData(b: seq<Byte>, p: nat, mask: seq<Byte>, payload: seq<Byte>)
    requires p + 2 <= |b| && Opcode(b[p]) != CloseOpcode
    requires mask == MaskOf(b, p) && payload == RawPayload(b, p)
    ensures IsMasked(b, p) && |payload| > 0 ==> |mask| == 4
    ensures DecodeAt(b, p).1 == HeaderEnd(b, p) + |mask| + |payload|
    ensures IsMasked(b, p) && |payload| > 0 ==> DecodeAt(b, p).0 == Data(XorMask(payload, mask))
    ensures !(IsMasked(b, p) && |payload| > 0) ==> DecodeAt(b, p).0 == Data(payload)
  {
    if IsMasked(b, p) && |mask| < 4 {
      assert HeaderEnd(b, p) + |mask| == |b|;
      assert payload == [];
    }
    if |mask| == 4 && payload == [] {
      assert XorMask(payload, mask) == [];
    }
  }

  /** readFrame: the header, the extended length, the mask, the payload loop and the unmasking loop. */
  method ReadFrame(sock: Stream) returns (frame: Frame)
    requires sock.Valid()
    modifies sock`pos
    ensures sock.Valid()
    ensures (frame, sock.pos) == DecodeAt(sock.bytes, old(sock.pos))
  {
    ghost var p := sock.pos;
    var header := sock.Read(2);
    if |header| < 2 {
      assert DecodeAt(sock.bytes, p) == (NoFrame, |sock.bytes|);
      return NoFrame;
    }
    var byte1 := header[0];
    var byte2 := header[1];
    assert byte1 == sock.bytes[p] && byte2 == sock.bytes[p + 1];
    var opcode := Opcode(byte1);
    if opcode == CloseOpcode {
      assert DecodeAt(sock.bytes, p) == (CloseFrame, p + 2);
      return CloseFrame;
    }
    frame := ReadData(sock, byte2, p);
  }

  /** The rest of readFrame once a non-close header has been read: length, mask, payload and unmasking. */
  method ReadData(sock: Stream, byte2: Byte, ghost p: nat) returns (frame: Frame)
    requires sock.Valid() && sock.pos == p + 2 && sock.bytes[p + 1] == byte2
    requires Opcode(sock.bytes[p]) != CloseOpcode
    modifies sock`pos
    ensures sock.Valid()
    ensures frame == DecodeAt(sock.bytes, p).0 && sock.pos == DecodeAt(sock.bytes, p).1
  {
    ghost var b := sock.bytes;
    var masked := MaskBit(byte2);
    assert masked == IsMasked(b, p);
    var payloadLen := ReadLength(sock, byte2, p);
    assert sock.bytes == b && sock.pos == HeaderEnd(b, p);
    var mask := ReadMask(sock, masked, p);
    ghost var q := sock.pos;
    assert sock.bytes == b && q == HeaderEnd(b, p) + |MaskOf(b, p)|;
    var payload := ReadPayload(sock, payloadLen);
    RawPayloadAt(b, p, q, payloadLen);
    DecodeAtData(b, p, mask, payload);
    if masked && |payload| > 0 {
      var decoded := Unmask(payload, mask);
      frame := Data(decoded);
    } else {
      frame := Data(payload);
    }
  }

  /** The masking key: four bytes when the mask bit is set, none otherwise. */
  method ReadMask(sock: Stream, masked: bool, ghost p: nat) returns (mask: seq<Byte>)
    requires sock.Valid() && p + 2 <= |sock.bytes| && sock.pos == HeaderEnd(sock.bytes, p)
    requires masked == IsMasked(sock.bytes, p)
    modifies sock`pos
    ensures sock.Valid()
    ensures mask == MaskOf(sock.bytes, p) && sock.pos == HeaderEnd(sock.bytes, p) + |mask|
  {
    mask := [];
    if masked {
      mask := sock.Read(4);
    }
  }

  /** The length field: 7 bits, or a 2-byte or 8-byte big-endian extension read from the stream. */
  method ReadLength(sock: Stream, byte2: Byte, ghost p: nat) returns (payloadLen: int)
    requires sock.Valid() && sock.pos == p + 2 && sock.bytes[p + 1] == byte2
    modifies sock`pos
    ensures sock.Valid()
    ensures payloadLen == DeclaredLength(sock.bytes, p) && sock.pos == HeaderEnd(sock.bytes, p)
  {
    payloadLen := Len7(byte2) as int;
    if payloadLen == 126 {
      var extended := sock.Read(2);
      payloadLen := Unpack16(extended);
    } else if payloadLen == 127 {
      var extended := sock.Read(8);
      payloadLen := Unpack64(extended);
    }
  }

  /** The loop that reads until the declared length has arrived or the stream is exhausted. */
  method ReadPayload(sock: Stream, payloadLen: int) returns (payload: seq<Byte>)
    requires sock.Valid()
    modifies sock`pos
    ensures sock.Valid()
    ensures payload == PayloadAt(sock.bytes, old(sock.pos), payloadLen)
    ensures sock.pos == old(sock.pos) + |payload|
  {
    payload := [];
    var remaining := payloadLen;
    while remaining > 0
      invariant sock.Valid() && sock.pos == old(sock.pos) + |payload|
      invariant payload == sock.bytes[old(sock.pos)..sock.pos]
      invariant remaining == payloadLen - |payload| && (payloadLen <= 0 ==> payload == [])
      invariant payloadLen > 0 ==> remaining >= 0
      decreases remaining
    {
      var chunk := sock.Read(remaining);
      if |chunk| == 0 {
        break;
      }
      payload := payload + chunk;
      remaining := remaining - |chunk|;
    }
    if payloadLen > 0 {
      if remaining > 0 {
        assert sock.pos == |sock.bytes|;
        assert payload == sock.bytes[old(sock.pos)..];
      } else {
        assert payload == sock.bytes[old(sock.pos)..old(sock.pos) + payloadLen];
      }
    }
  }

  /** The unmasking loop: each byte is combined with mask byte i mod 4. */
  method Unmask(payload: seq<Byte>, mask: seq<Byte>) returns (decoded: seq<Byte>)
    requires |mask| == 4
    ensures decoded == XorMask(payload, mask)
  {
    decoded := [];
    for i := 0 to |payload|
      invariant |decoded| == i
      invariant forall j :: 0 <= j < i ==> decoded[j] == payload[j] ^ mask[j % 4]
    {
      decoded := decoded + [payload[i] ^ mask[i % 4]];
    }
  }

  // ------------------------------------------------------------------ sendFrame

  /** The length field of section 5.2 of RFC 6455: 7 bits, or 126 and 16 bits, or 127 and 64 bits. */
  function LengthField(n: nat): (h: seq<Byte>)
    requires n < TwoTo63
    ensures n <= 125 ==> h == [n as Byte]
    ensures 125 < n <= 65535 ==> |h| == 3 && h[0] == 126 && h[1..] == BigEndian(n, 2)
    ensures 65535 < n ==> |h| == 9 && h[0] == 127 && h[1..] == BigEndian(n, 8)
  {
    if n <= 125 then [n as Byte]
    else if n <= 65535 then [126 as Byte] + BigEndian(n, 2)
    else [127 as Byte] + BigEndian(n, 8)
  }

  /** An unmasked text frame with FIN set: 0x81, the length field, then the data. */
  function EncodeFrame(data: seq<Byte>): (f: seq<Byte>)
    requires |data| < TwoTo63
    ensures |f| == |data| + (if |data| <= 125 then 2 else if |data| <= 65535 then 4 else 10)
    ensures f[0] == 0x81
    ensures f[|f| - |data|..] == data
  {
    [0x81 as Byte] + LengthField(|data|) + data
  }

  /** sendFrame: the header, then the data, written in one call. */
  method SendFrame(sock: Stream, data: seq<Byte>)
    requires |data| < TwoTo63
    modifies sock`written
    ensures sock.written == old(sock.written) + EncodeFrame(data)
  {
    var length := |data|;
    var header: seq<Byte> := [0x81];
    if length <= 125 {
      header := header + [length as Byte];
    } else if length <= 65535 {
      header := header + [126 as Byte] + BigEndian(length, 2);
      assert header == [0x81 as Byte] + ([126 as Byte] + BigEndian(length, 2));
    } else {
      header := header + [127 as Byte] + BigEndian(length, 8);
      assert header == [0x81 as Byte] + ([127 as Byte] + BigEndian(length, 8));
    }
    assert header == [0x81 as Byte] + LengthField(length);
    sock.Write(header + data);
  }

  // ------------------------------------------------------------------ round trips

  /** The length field decodes back to the length it encodes. */
  lemma LengthFieldDecodes(data: seq<Byte>, rest: seq<Byte>)
    requires |data| < TwoTo63
    ensures var b := EncodeFrame(data) + rest;
      |b| >= 2 && DeclaredLength(b, 0) == |data| && 2 + |ExtendedLength(b, 0)| == |EncodeFrame(data)| - |data|
      && !IsMasked(b, 0)
  {
    var n := |data|;
    var b := EncodeFrame(data) + rest;
    var tail := data + rest;
    assert b == [0x81 as Byte] + LengthField(n) + tail;
    if n <= 125 {
      ShortLengthDecodes(n, tail);
    } else if n <= 65535 {
      WideLengthDecodes(n, 2, 126, tail);
    } else {
      WideLengthDecodes(n, 8, 127, tail);
    }
  }

  /** A length up to 125 sits in the second byte, with the mask bit clear. */
  lemma ShortLengthDecodes(n: nat, tail: seq<Byte>)
    requires n <= 125
    ensures var b := [0x81 as Byte] + [n as Byte] + tail;
      DeclaredLength(b, 0) == n && ExtendedLength(b, 0) == [] && !IsMasked(b, 0)
  {
    var b := [0x81 as Byte] + [n as Byte] + tail;
    assert b[1] == n as Byte;
    ByteOfSmall(n);
    assert (n as Byte) < 126;
  }

  /** A 16-bit or 64-bit length follows its marker byte 126 or 127, big-endian. */
  lemma WideLengthDecodes(n: nat, k: nat, marker: Byte, tail: seq<Byte>)
    requires (k == 2 && marker == 126 && 125 < n <= 65535) || (k == 8 && marker == 127 && 65535 < n < TwoTo63)
    ensures Pow256(k) > n
    ensures var b := [0x81 as Byte] + ([marker] + BigEndian(n, k)) + tail;
      DeclaredLength(b, 0) == n && |ExtendedLength(b, 0)| == k && !IsMasked(b, 0)
  {
    Pow256Widths();
    var b := [0x81 as Byte] + ([marker] + BigEndian(n, k)) + tail;
    assert b[1] == marker;
    assert Len7(marker) == marker;
    assert ExtendedLength(b, 0) == BigEndian(n, k) by {
      assert b[2..2 + k] == BigEndian(n, k);
    }
    BigEndianRoundTrip(n, k);
  }

  /** Reading a frame that sendFrame wrote yields exactly the data sent, and stops at its end. */
  lemma RoundTrip(data: seq<Byte>, rest: seq<Byte>)
    requires |data| < TwoTo63
    ensures DecodeAt(EncodeFrame(data) + rest, 0).0 == Data(data)
    ensures DecodeAt(EncodeFrame(data) + rest, 0).1 == |EncodeFrame(data)|
  {
    var f := EncodeFrame(data);
    var b := f + rest;
    LengthFieldDecodes(data, rest);
    assert Opcode(b[0]) == 0x01;
    var start := |f| - |data|;
    if |data| > 0 {
      assert Take(b, start, |data|) == data;
    }
  }

  /** A client frame: FIN and text opcode, the mask bit, the length, the mask, the masked data. */
  function ClientFrame(data: seq<Byte>, mask: seq<Byte>): (f: seq<Byte>)
    requires |data| <= 125 && |mask| == 4
  {
    [0x81 as Byte, 0x80 | |data| as Byte] + mask + XorMask(data, mask)
  }

  /** The second byte of a short masked frame: the mask bit and the length below it. */
  lemma MaskedLengthByte(len: nat)
    requires len < 0x80
    ensures Len7(0x80 | len as Byte) as int == len && MaskBit(0x80 | len as Byte)
  {
    var n := len as Byte;
    ByteOfSmall(len);
    assert n < 0x80;
    assert Len7(0x80 | n) == n;
  }

  /** The two header bytes of a client frame: a text opcode, the mask bit and a 7-bit length. */
  lemma ClientFrameHeader(data: seq<Byte>, mask: seq<Byte>, rest: seq<Byte>)
    requires |data| <= 125 && |mask| == 4
    ensures var b := ClientFrame(data, mask) + rest;
      |b| >= 2 && Opcode(b[0]) != CloseOpcode && IsMasked(b, 0)
      && DeclaredLength(b, 0) == |data| && HeaderEnd(b, 0) == 2
  {
    var b := ClientFrame(data, mask) + rest;
    assert Opcode(b[0]) == 0x01;
    assert b[1] == 0x80 | |data| as Byte;
    MaskedLengthByte(|data|);
  }

  /** The mask and the masked payload of a client frame are where the decoder looks for them. */
  lemma ClientFrameBody(data: seq<Byte>, mask: seq<Byte>, rest: seq<Byte>)
    requires |data| <= 125 && |mask| == 4
    ensures var b := ClientFrame(data, mask) + rest;
      |b| >= 2 && MaskOf(b, 0) == mask && RawPayload(b, 0) == XorMask(data, mask)
  {
    var b := ClientFrame(data, mask) + rest;
    ClientFrameHeader(data, mask, rest);
    assert MaskOf(b, 0) == mask by {
      assert b[2..6] == mask;
    }
    var masked := XorMask(data, mask);
    if |data| > 0 {
      assert b[6..6 + |data|] == masked;
    }
  }

  /** Reading a masked client frame gives back the data before masking. */
  lemma MaskedRoundTrip(data: seq<Byte>, mask: seq<Byte>, rest: seq<Byte>)
    requires |data| <= 125 && |mask| == 4
    ensures DecodeAt(ClientFrame(data, mask) + rest, 0).0 == Data(data)
    ensures DecodeAt(ClientFrame(data, mask) + rest, 0).1 == 6 + |data|
  {
    var b := ClientFrame(data, mask) + rest;
    ClientFrameHeader(data, mask, rest);
    ClientFrameBody(data, mask, rest);
    DecodeAtData(b, 0, mask, XorMask(data, mask));
    XorMaskInvolution(data, mask);
  }
}
