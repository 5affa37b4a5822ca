// The WebSocket frame format of RFC 6455, section 5.2: client frames as the program writes
// them, the decoder a server applies to them, and server frames as the program reads them.
module Frames {
  import opened Base

  newtype Byte = x: int | 0 <= x < 256

  type Bytes = seq<Byte>

  // The four masking bytes of a client frame (section 5.3).
  type Mask = m: Bytes | |m| == 4 witness [0, 0, 0, 0]

  const MAX_MESSAGE_BYTES: int := 8 * 1024 * 1024

  const CONTINUATION: int := 0
  const TEXT: int := 1
  const CLOSE: int := 8
  const PING: int := 9
  const PONG: int := 10

  // ---- Exclusive or, bit by bit ---------------------------------------------------------

  function XorBits(a: nat, b: nat, bits: nat): nat {
    if bits == 0 then 0 else (a + b) % 2 + 2 * XorBits(a / 2, b / 2, bits - 1)
  }

  function Pow2(bits: nat): nat {
    if bits == 0 then 1 else 2 * Pow2(bits - 1)
  }

  lemma {:induction false} XorFits(a: nat, b: nat, bits: nat)
    ensures XorBits(a, b, bits) < Pow2(bits)
  {
    if bits > 0 {
      XorFits(a / 2, b / 2, bits - 1);
    }
  }

  lemma LowBit(bit: nat, half: nat)
    requires bit < 2
    ensures (bit + 2 * half) / 2 == half && (bit + 2 * half) % 2 == bit
  {
  }

  lemma LowBitTwice(a: nat, b: nat, half: nat)
    ensures ((a + b) % 2 + 2 * half + b) % 2 == a % 2
    ensures a % 2 + 2 * (a / 2) == a
  {
  }

  lemma {:induction false} XorTwice(a: nat, b: nat, bits: nat)
    requires a < Pow2(bits)
    ensures XorBits(XorBits(a, b, bits), b, bits) == a
  {
    if bits > 0 {
      var half := XorBits(a / 2, b / 2, bits - 1);
      LowBit((a + b) % 2, half);
      LowBitTwice(a, b, half);
      XorTwice(a / 2, b / 2, bits - 1);
    }
  }

  lemma ByteIsEightBits()
    ensures Pow2(8) == 256
  {
    assert Pow2(4) == 16;
  }

  function Xor(a: Byte, b: Byte): Byte {
    XorFits(a as nat, b as nat, 8);
    ByteIsEightBits();
    XorBits(a as nat, b as nat, 8) as Byte
  }

  lemma XorUndone(a: Byte, b: Byte)
    ensures Xor(Xor(a, b), b) == a
  {
    ByteIsEightBits();
    XorTwice(a as nat, b as nat, 8);
  }

  function Masked(payload: Bytes, mask: Mask): (r: Bytes)
    ensures |r| == |payload|
  {
    seq(|payload|, i requires 0 <= i < |payload| => Xor(payload[i], mask[i % 4]))
  }

  // The k-th bit of a number, counted from the lowest.
  function Bit(n: nat, k: nat): (bit: nat)
    ensures bit < 2
    decreases k
  {
    if k == 0 then n % 2 else Bit(n / 2, k - 1)
  }

  // Exclusive or, bit by bit: a bit is changed where the other operand has a one.
  lemma {:induction false} XorBit(a: nat, b: nat, bits: nat, k: nat)
    requires k < bits
    ensures Bit(XorBits(a, b, bits), k) == (Bit(a, k) + Bit(b, k)) % 2
  {
    var half := XorBits(a / 2, b / 2, bits - 1);
    LowBit((a + b) % 2, half);
    if k > 0 {
      XorBit(a / 2, b / 2, bits - 1, k - 1);
    }
  }

  // Every byte of the payload, masked, differs from that byte in exactly the bits that are set in
  // the masking byte whose turn it is.
  lemma MaskedBits(payload: Bytes, mask: Mask, i: nat, k: nat)
    requires i < |payload| && k < 8
    ensures Bit(Masked(payload, mask)[i] as nat, k) != Bit(payload[i] as nat, k) <==> Bit(mask[i % 4] as nat, k) == 1
  {
    XorBit(payload[i] as nat, mask[i % 4] as nat, 8, k);
  }

  // Masking is its own inverse.
  lemma MaskedTwice(payload: Bytes, mask: Mask)
    ensures Masked(Masked(payload, mask), mask) == payload
  {
    forall i | 0 <= i < |payload| ensures Masked(Masked(payload, mask), mask)[i] == payload[i] {
      XorUndone(payload[i], mask[i % 4]);
    }
  }

  // ---- Big-endian integers ---------------------------------------------------------------

  function Pow256(width: nat): nat {
    if width == 0 then 1 else 256 * Pow256(width - 1)
  }

  // struct.pack("!H") and struct.pack("!Q") for widths 2 and 8.
  function Pack(n: nat, width: nat): (r: Bytes)
    ensures |r| == width
  {
    if width == 0 then [] else Pack(n / 256, width - 1) + [(n % 256) as Byte]
  }

  function Unpack(bytes: Bytes): nat {
    if bytes == [] then 0 else 256 * Unpack(bytes[..|bytes| - 1]) + bytes[|bytes| - 1] as nat
  }

  lemma {:induction false} UnpackPack(n: nat, width: nat)
    requires n < Pow256(width)
    ensures Unpack(Pack(n, width)) == n
  {
    if width > 0 {
      UnpackPack(n / 256, width - 1);
      assert Pack(n, width)[..width - 1] == Pack(n / 256, width - 1);
    }
  }

  lemma {:induction false} PackUnpack(bytes: Bytes)
    ensures Unpack(bytes) < Pow256(|bytes|)
    ensures Pack(Unpack(bytes), |bytes|) == bytes
  {
    if bytes != [] {
      PackUnpack(bytes[..|bytes| - 1]);
    }
  }

  // The value of the bytes, the most significant first.
  function BigEndian(bytes: Bytes): nat {
    if bytes == [] then 0 else bytes[0] as nat * Pow256(|bytes| - 1) + BigEndian(bytes[1..])
  }

  lemma {:induction false} BigEndianAppend(bytes: Bytes, last: Byte)
    ensures BigEndian(bytes + [last]) == 256 * BigEndian(bytes) + last as nat
  {
    if bytes == [] {
      assert (bytes + [last])[1..] == [];
    } else {
      assert (bytes + [last])[1..] == bytes[1..] + [last];
      BigEndianAppend(bytes[1..], last);
      var first, power := bytes[0] as nat, Pow256(|bytes| - 1);
      assert Pow256(|bytes|) == 256 * power;
      assert first * (256 * power) == 256 * (first * power);
    }
  }

  lemma {:induction false} UnpackIsBigEndian(bytes: Bytes)
    ensures Unpack(bytes) == BigEndian(bytes)
  {
    if bytes != [] {
      var init, last := bytes[..|bytes| - 1], bytes[|bytes| - 1];
      UnpackIsBigEndian(init);
      BigEndianAppend(init, last);
      assert init + [last] == bytes;
    }
  }

  lemma WidthLimits()
    ensures Pow256(2) == 65536 && Pow256(8) >= 0x1_0000_0000_0000_0000
  {
    assert Pow256(4) == 0x1_0000_0000;
    assert Pow256(6) == 0x1_0000_0000_0000;
  }

  // ---- Client frames ----------------------------------------------------------------------

  // How many bytes the extended length field takes.
  function ShortestWidth(size: nat): nat {
    if size < 126 then 0 else if size <= 65535 then 2 else 8
  }

  function LengthCode(size: nat): int {
    if size < 126 then size else if size <= 65535 then 126 else 127
  }

  // `frame`: FIN set, masked, shortest length encoding.
  function ClientFrame(opcode: int, payload: Bytes, mask: Mask): Bytes
    requires 0 <= opcode < 16 && |payload| <= MAX_MESSAGE_BYTES
  {
    [(0x80 + opcode) as Byte, (0x80 + LengthCode(|payload|)) as Byte]
    + Pack(|payload|, ShortestWidth(|payload|)) + mask + Masked(payload, mask)
  }

  // ---- The server ---------------------------------------------------------------------------

  // The number whose low bits are those in which two others differ.
  function Differing(a: nat, b: nat, bits: nat): nat {
    if bits == 0 then 0 else (if Bit(a, bits - 1) == Bit(b, bits - 1) then 0 else Pow2(bits - 1)) + Differing(a, b, bits - 1)
  }

  lemma {:induction false} DifferingHalves(a: nat, b: nat, bits: nat)
    requires bits > 0
    ensures Differing(a, b, bits) == (if a % 2 == b % 2 then 0 else 1) + 2 * Differing(a / 2, b / 2, bits - 1)
  {
    if bits > 1 {
      DifferingHalves(a, b, bits - 1);
    }
  }

  lemma LowBitOfSum(a: nat, b: nat)
    ensures (a + b) % 2 == if a % 2 == b % 2 then 0 else 1
  {
  }

  lemma {:induction false} DifferingIsXor(a: nat, b: nat, bits: nat)
    ensures Differing(a, b, bits) == XorBits(a, b, bits)
  {
    if bits > 0 {
      DifferingHalves(a, b, bits);
      LowBitOfSum(a, b);
      DifferingIsXor(a / 2, b / 2, bits - 1);
    }
  }

  // A server takes a masking byte off one byte of the payload.
  function Uncover(b: Byte, m: Byte): Byte {
    DifferingIsXor(b as nat, m as nat, 8);
    XorFits(b as nat, m as nat, 8);
    ByteIsEightBits();
    Differing(b as nat, m as nat, 8) as Byte
  }

  // It goes through the masking bytes in turn.
  function Unmask(payload: Bytes, mask: Mask): Bytes {
    if payload == [] then []
    else [Uncover(payload[0], mask[0])] + Unmask(payload[1..], mask[1..] + [mask[0]])
  }

  lemma NextTurn(mask: Mask, i: nat)
    requires i > 0
    ensures (mask[1..] + [mask[0]])[(i - 1) % 4] == mask[i % 4]
  {
    var q, r := (i - 1) / 4, (i - 1) % 4;
    assert i == 4 * q + (r + 1);
    assert i % 4 == if r == 3 then 0 else r + 1;
  }

  // It takes off what the client put on.
  lemma {:induction false} UnmaskIsMasked(payload: Bytes, mask: Mask)
    ensures Unmask(payload, mask) == Masked(payload, mask)
  {
    if payload != [] {
      var turned: Mask := mask[1..] + [mask[0]];
      DifferingIsXor(payload[0] as nat, mask[0] as nat, 8);
      UnmaskIsMasked(payload[1..], turned);
      forall i | 0 < i < |payload| ensures Masked(payload[1..], turned)[i - 1] == Masked(payload, mask)[i] {
        NextTurn(mask, i);
      }
    }
  }

  datatype Decoded = Decoded(opcode: int, payload: Bytes, mask: Mask, rest: Bytes)

  // What a server makes of its input (section 5.2): an unfragmented masked frame without
  // reserved bits whose length field is the shortest possible, or nothing.
  function DecodeClient(input: Bytes): Option<Decoded> {
    if |input| < 2 then None
    else
      var first, second := input[0] as int, input[1] as int;
      if first < 0x80 || first - 0x80 >= 16 || second < 0x80 then None
      else
        var code := second - 0x80;
        var width := if code == 126 then 2 else if code == 127 then 8 else 0;
        if |input| < 2 + width + 4 then None
        else
          var size := if width == 0 then code else BigEndian(input[2..2 + width]);
          var start := 2 + width + 4;
          if (width == 2 && size < 126) || (width == 8 && size < 65536) || size > MAX_MESSAGE_BYTES || |input| < start + size then None
          else
            var mask: Mask := input[2 + width..start];
            Some(Decoded(first - 0x80, Unmask(input[start..start + size], mask), mask, input[start + size..]))
  }

  // Where the parts of a frame are.
  lemma FrameParts(opcode: int, payload: Bytes, mask: Mask, rest: Bytes)
    requires 0 <= opcode < 16 && |payload| <= MAX_MESSAGE_BYTES
    ensures var size := |payload|;
            var start := 2 + ShortestWidth(size) + 4;
            var input := ClientFrame(opcode, payload, mask) + rest;
            && |input| >= start + size
            && input[0] as int == 0x80 + opcode && input[1] as int == 0x80 + LengthCode(size)
            && input[2..start - 4] == Pack(size, ShortestWidth(size)) && input[start - 4..start] == mask
            && input[start..start + size] == Masked(payload, mask) && input[start + size..] == rest
  {
  }

  // A server reads back exactly what was framed, and the bytes that follow are untouched.
  lemma DecodeOfFrame(opcode: int, payload: Bytes, mask: Mask, rest: Bytes)
    requires 0 <= opcode < 16 && |payload| <= MAX_MESSAGE_BYTES
    ensures DecodeClient(ClientFrame(opcode, payload, mask) + rest) == Some(Decoded(opcode, payload, mask, rest))
  {
    var size := |payload|;
    FrameParts(opcode, payload, mask, rest);
    WidthLimits();
    if size >= 126 {
      UnpackPack(size, ShortestWidth(size));
      UnpackIsBigEndian(Pack(size, ShortestWidth(size)));
    }
    UnmaskIsMasked(Masked(payload, mask), mask);
    MaskedTwice(payload, mask);
  }

  lemma Sliced(input: Bytes, i: nat, j: nat, k: nat)
    requires 2 <= i <= j <= k <= |input|
    ensures input == [input[0], input[1]] + input[2..i] + input[i..j] + input[j..k] + input[k..]
  {
  }

  // Where the parts of an accepted frame are.
  lemma DecodedParts(input: Bytes)
    requires DecodeClient(input).Some?
    ensures var d := DecodeClient(input).value;
            var size := |d.payload|;
            var width := ShortestWidth(size);
            var start := 2 + width + 4;
            && size <= MAX_MESSAGE_BYTES && start + size <= |input| && 0x80 <= input[0] as int < 0x90
            && input[1] as int == 0x80 + LengthCode(size)
            && d.opcode == input[0] as int - 0x80 && d.mask == input[2 + width..start] && d.rest == input[start + size..]
            && d.payload == Unmask(input[start..start + size], d.mask)
            && (width == 0 || size == BigEndian(input[2..2 + width]))
  {
    var code := input[1] as int - 0x80;
    var width := if code == 126 then 2 else if code == 127 then 8 else 0;
    var size := if width == 0 then code else BigEndian(input[2..2 + width]);
    UnmaskIsMasked(input[2 + width + 4..2 + width + 4 + size], input[2 + width..2 + width + 4]);
    FieldFits(input[2..2 + width]);
    assert ShortestWidth(size) == width;
  }

  lemma FieldFits(field: Bytes)
    ensures BigEndian(field) < Pow256(|field|) && Pow256(2) == 65536
  {
    UnpackIsBigEndian(field);
    PackUnpack(field);
    WidthLimits();
  }

  // The length field of an accepted frame is the one `frame` would have written.
  lemma DecodedLength(input: Bytes)
    requires DecodeClient(input).Some?
    ensures var size := |DecodeClient(input).value.payload|;
            2 + ShortestWidth(size) <= |input| && input[2..2 + ShortestWidth(size)] == Pack(size, ShortestWidth(size))
  {
    DecodedParts(input);
    var field := input[2..2 + ShortestWidth(|DecodeClient(input).value.payload|)];
    UnpackIsBigEndian(field);
    PackUnpack(field);
  }

  // Conversely, whatever the server accepts is the frame of what it decoded.
  lemma FrameOfDecode(input: Bytes)
    requires DecodeClient(input).Some?
    ensures var d := DecodeClient(input).value;
            && 0 <= d.opcode < 16 && |d.payload| <= MAX_MESSAGE_BYTES
            && input == ClientFrame(d.opcode, d.payload, d.mask) + d.rest
  {
    DecodedParts(input);
    DecodedLength(input);
    var d := DecodeClient(input).value;
    var start := 2 + ShortestWidth(|d.payload|) + 4;
    var hidden := input[start..start + |d.payload|];
    UnmaskIsMasked(hidden, d.mask);
    MaskedTwice(hidden, d.mask);
    Sliced(input, start - 4, start, start + |d.payload|);
  }

  // Of the three length fields, the one used is the shortest that can hold the length.
  lemma LengthFieldIsShortest(size: nat, width: nat)
    requires width == 0 || width == 2 || width == 8
    requires if width == 0 then size < 126 else size < Pow256(width)
    ensures ShortestWidth(size) <= width
  {
    WidthLimits();
  }
}
