/**
 The CAN frame codec between pandad and the panda (selfdrive/pandad/panda.cc, panda.h).

 The send side packs messages into length-coded frames whose bytes XOR to zero and flushes them in chunks.
 The receive side appends whatever the bus delivers to one fixed buffer, cuts complete frames out of it and
 moves the incomplete tail to the front.  Both are imperative here and tied to two functions, `EncodeAll` and
 `Parse`; the theorems at the end relate those two functions to each other under every fragmentation.

 Bit fields are written out as quotients and remainders of the bytes they occupy.
 */
module CanCodec {

  type byte = x: nat | x < 256

  const HEADER_SIZE: nat := 6
  const USB_TX_SOFT_LIMIT: nat := 0x100
  const RECV_SIZE: nat := 0x4000
  const MAX_FRAME: nat := HEADER_SIZE + 64
  const PANDA_BUS_OFFSET: nat := 4
  const REJECTED_BUS_OFFSET: nat := 0xC0
  const RETURNED_BUS_OFFSET: nat := 0x80
  const ADDR_RANGE: nat := 0x2000_0000
  const SIZE_T_RANGE: nat := 0x1_0000_0000_0000_0000

  /** Data length codes of CAN FD (Bosch CAN FD Specification 1.0, section 3.2.1). */
  const DLC_TO_LEN: seq<nat> := [0, 1, 2, 3, 4, 5, 6, 7, 8, 12, 16, 20, 24, 32, 48, 64]

  function DlcToLen(dlc: nat): (len: nat)
    requires dlc < 16
    ensures len <= 64
  {
    DLC_TO_LEN[dlc]
  }

  /** Unsigned subtraction at the width of `size_t`. */
  function SizeTMinus(a: nat, b: nat): (r: nat)
    requires a < SIZE_T_RANGE && b < SIZE_T_RANGE
    ensures r == if b <= a then a - b else SIZE_T_RANGE + a - b
  {
    (a - b) % SIZE_T_RANGE
  }

  datatype CanMsg = CanMsg(address: nat, dat: seq<byte>, src: byte)

  datatype CanFrame = CanFrame(address: nat, dat: seq<byte>, src: nat)

  /** The packed header; `addr` holds 29 bits, `bus` three and `dlc` four. */
  datatype Header = Header(reserved: bool, bus: nat, dlc: nat, rejected: bool, returned: bool, extended: bool,
                           addr: nat, checksum: byte)
  {
    predicate Fits() {
      bus < 8 && dlc < 16 && addr < ADDR_RANGE
    }
  }

  function Bit(b: bool): nat {
    if b then 1 else 0
  }

  // ---------------------------------------------------------------- length codes

  function LenToDlc(len: byte): nat {
    if len <= 8 then len
    else if len <= 24 then 8 + (len - 8) / 4 + (if len % 4 != 0 then 1 else 0)
    else 11 + len / 16 + (if len % 16 != 0 then 1 else 0)
  }

  /** The lengths that the two assertions of the packer let through. */
  predicate Representable(len: nat) {
    len <= 64 && LenToDlc(len) < 16 && DlcToLen(LenToDlc(len)) == len
  }

  /** The code chosen for any length up to 64 is the least one with room for it. */
  lemma LenToDlcIsLeast(len: nat)
    requires len <= 64
    ensures LenToDlc(len) < 16
    ensures forall d :: 0 <= d < 16 ==> (len <= DlcToLen(d) <==> LenToDlc(len) <= d)
    ensures Representable(len) <==> len in DLC_TO_LEN
  {
    var dlc := LenToDlc(len);
    if len <= 24 {
      assert dlc <= 12;
    } else {
      assert dlc == (if len <= 32 then 13 else if len <= 48 then 14 else 15);
    }
    if len in DLC_TO_LEN {
      var d :| 0 <= d < |DLC_TO_LEN| && DLC_TO_LEN[d] == len;
      assert len == DlcToLen(d);
    }
  }

  // ---------------------------------------------------------------- XOR

  function BitXor(a: nat, b: nat): nat {
    if a == 0 && b == 0 then 0
    else (if a % 2 == b % 2 then 0 else 1) + 2 * BitXor(a / 2, b / 2)
  }

  lemma {:induction false} BitXorAssoc(a: nat, b: nat, c: nat)
    ensures BitXor(BitXor(a, b), c) == BitXor(a, BitXor(b, c))
    decreases a + b + c
  {
    BitXorUnits(a);
    BitXorUnits(b);
    BitXorUnits(c);
    if a + b + c != 0 {
      BitXorAssoc(a / 2, b / 2, c / 2);
      BitXorHalves(a, b);
      BitXorHalves(b, c);
      BitXorHalves(BitXor(a, b), c);
      BitXorHalves(a, BitXor(b, c));
    }
  }

  /** The low bit and the other bits of an exclusive or. */
  lemma BitXorHalves(a: nat, b: nat)
    ensures BitXor(a, b) % 2 == (if a % 2 == b % 2 then 0 else 1)
    ensures BitXor(a, b) / 2 == BitXor(a / 2, b / 2)
  {
  }

  lemma {:induction false} BitXorUnits(a: nat)
    ensures BitXor(a, a) == 0 && BitXor(a, 0) == a == BitXor(0, a)
  {
    if a != 0 {
      BitXorUnits(a / 2);
    }
  }

  lemma {:induction false} BitXorCommutes(a: nat, b: nat)
    ensures BitXor(a, b) == BitXor(b, a)
    decreases a + b
  {
    if a + b != 0 {
      BitXorCommutes(a / 2, b / 2);
    }
  }

  lemma {:induction false} BitXorBound(a: nat, b: nat, limit: nat)
    requires a < Pow2(limit) && b < Pow2(limit)
    ensures BitXor(a, b) < Pow2(limit)
    decreases limit
  {
    if limit != 0 {
      BitXorBound(a / 2, b / 2, limit - 1);
    }
  }

  function Pow2(n: nat): nat {
    if n == 0 then 1 else 2 * Pow2(n - 1)
  }

  function XorByte(a: byte, b: byte): byte {
    assert Pow2(8) == 256 by { assert Pow2(4) == 16; }
    BitXorBound(a, b, 8);
    BitXor(a, b)
  }

  function XorAll(s: seq<byte>): byte {
    if s == [] then 0 else XorByte(XorAll(s[..|s| - 1]), s[|s| - 1])
  }

  lemma {:induction false} XorAllAppend(s: seq<byte>, t: seq<byte>)
    ensures XorAll(s + t) == XorByte(XorAll(s), XorAll(t))
  {
    BitXorUnits(XorAll(s));
    if t == [] {
      assert s + t == s;
    } else {
      var init, last := t[..|t| - 1], t[|t| - 1];
      assert (s + t)[..|s + t| - 1] == s + init;
      XorAllAppend(s, init);
      BitXorAssoc(XorAll(s), XorAll(init), last);
    }
  }

  lemma XorWithByte(s: seq<byte>, at: nat, c: byte)
    requires at < |s| && s[at] == 0
    ensures XorAll(s[at := c]) == XorByte(c, XorAll(s))
  {
    var left, right := s[..at], s[at + 1..];
    assert s == left + ([0] + right) && s[at := c] == left + ([c] + right);
    assert XorAll([0 as byte]) == BitXor(0, 0) && XorAll([c]) == BitXor(0, c);
    XorAllAppend(left, [0] + right);
    XorAllAppend([0], right);
    XorAllAppend(left, [c] + right);
    XorAllAppend([c], right);
    BitXorUnits(c);
    BitXorUnits(XorAll(right));
    BitXorAssoc(XorAll(left), c, XorAll(right));
    BitXorCommutes(XorAll(left), c);
    BitXorAssoc(c, XorAll(left), XorAll(right));
  }

  /** Writing the XOR of all bytes into a zero byte makes the whole XOR zero. */
  lemma ChecksumCancels(s: seq<byte>, at: nat)
    requires at < |s| && s[at] == 0
    ensures XorAll(s[at := XorAll(s)]) == 0
  {
    XorWithByte(s, at, XorAll(s));
    BitXorUnits(XorAll(s));
  }

  // ---------------------------------------------------------------- header layout

  /** The 32 bits after the first byte: three flags, then the address. */
  function FlagsAndAddr(h: Header): (w: nat)
    requires h.Fits()
    ensures w < 0x1_0000_0000
  {
    Bit(h.rejected) + 2 * Bit(h.returned) + 4 * Bit(h.extended) + 8 * h.addr
  }

  /** Four bytes, least significant first. */
  function WordBytes(w: nat): (bytes: seq<byte>)
    requires w < 0x1_0000_0000
    ensures |bytes| == 4
  {
    [w % 0x100, w / 0x100 % 0x100, w / 0x1_0000 % 0x100, w / 0x100_0000]
  }

  function BytesWord(b1: byte, b2: byte, b3: byte, b4: byte): (w: nat)
    ensures w < 0x1_0000_0000
  {
    b1 as nat + 0x100 * b2 as nat + 0x1_0000 * b3 as nat + 0x100_0000 * b4 as nat
  }

  function HeaderBytes(h: Header): (bytes: seq<byte>)
    requires h.Fits()
    ensures |bytes| == HEADER_SIZE && bytes[5] == h.checksum
  {
    [Bit(h.reserved) + 2 * h.bus + 16 * h.dlc] + WordBytes(FlagsAndAddr(h)) + [h.checksum]
  }

  function HeaderOf(b0: byte, w: nat, checksum: byte): (h: Header)
    requires w < 0x1_0000_0000
    ensures h.Fits() && h.checksum == checksum && h.dlc == b0 / 16
  {
    Header(b0 % 2 == 1, b0 / 2 % 8, b0 / 16, w % 2 == 1, w / 2 % 2 == 1, w / 4 % 2 == 1, w / 8, checksum)
  }

  function ReadHeader(s: seq<byte>): (h: Header)
    requires |s| >= HEADER_SIZE
    ensures h.Fits()
  {
    HeaderOf(s[0], BytesWord(s[1], s[2], s[3], s[4]), s[5])
  }

  lemma DivMod(q: nat, r: nat, d: nat)
    requires r < d
    ensures (r + d * q) / d == q && (r + d * q) % d == r
  {
    var n := r + d * q;
    assert n == d * (n / d) + n % d;
    var k := n / d - q;
    assert d * k == r - n % d;
    MultipleOutside(d, k);
  }

  lemma MultipleOutside(d: int, k: int)
    requires d >= 0
    ensures k >= 1 ==> d * k >= d
    ensures k <= -1 ==> d * k <= -d
  {
    assert d * k == d * (k - 1) + d == d * (k + 1) - d;
  }

  lemma WordRoundTrip(w: nat)
    requires w < 0x1_0000_0000
    ensures var b := WordBytes(w); BytesWord(b[0], b[1], b[2], b[3]) == w
  {
    var q := w / 0x100;
    var r := q / 0x100;
    assert r == w / 0x1_0000 && r / 0x100 == w / 0x100_0000;
  }

  lemma WordBytesRoundTrip(b1: byte, b2: byte, b3: byte, b4: byte)
    ensures WordBytes(BytesWord(b1, b2, b3, b4)) == [b1, b2, b3, b4]
  {
    var w := BytesWord(b1, b2, b3, b4);
    var hi := b3 as nat + 0x100 * b4;
    var mid := b2 as nat + 0x100 * hi;
    assert w == b1 + 0x100 * mid;
    assert w % 0x100 == b1 && w / 0x100 == mid by { DivMod(mid, b1, 0x100); }
    assert mid % 0x100 == b2 by { DivMod(hi, b2, 0x100); }
    assert hi % 0x100 == b3 by { DivMod(b4, b3, 0x100); }
    assert w / 0x1_0000 == hi by { DivMod(hi, b1 as nat + 0x100 * b2, 0x1_0000); }
    assert w / 0x100_0000 == b4 by { DivMod(b4, b1 as nat + 0x100 * b2 + 0x1_0000 * b3, 0x100_0000); }
  }

  lemma FieldsRoundTrip(h: Header)
    requires h.Fits()
    ensures HeaderOf(Bit(h.reserved) + 2 * h.bus + 16 * h.dlc, FlagsAndAddr(h), h.checksum) == h
  {
    var a, b, c, r := Bit(h.rejected), Bit(h.returned), Bit(h.extended), Bit(h.reserved);
    DivMod(b + 2 * c + 4 * h.addr, a, 2);
    DivMod(c + 2 * h.addr, b, 2);
    DivMod(h.addr, c, 2);
    DivMod(c + 2 * h.addr, a + 2 * b, 4);
    DivMod(h.addr, a + 2 * b + 4 * c, 8);
    DivMod(h.bus + 8 * h.dlc, r, 2);
    DivMod(h.dlc, h.bus, 8);
    DivMod(h.dlc, r + 2 * h.bus, 16);
  }

  /** Every header, flags and reserved bit included, survives the packed layout. */
  lemma HeaderRoundTrip(h: Header)
    requires h.Fits()
    ensures ReadHeader(HeaderBytes(h)) == h
  {
    hide BytesWord, WordBytes, FlagsAndAddr, HeaderOf;
    var w := FlagsAndAddr(h);
    var b := HeaderBytes(h);
    WordRoundTrip(w);
    FieldsRoundTrip(h);
    assert b[1..5] == WordBytes(w);
    assert BytesWord(b[1], b[2], b[3], b[4]) == w;
  }

  lemma FieldsOf(b0: byte, w: nat, checksum: byte)
    requires w < 0x1_0000_0000
    ensures var h := HeaderOf(b0, w, checksum);
            FlagsAndAddr(h) == w && Bit(h.reserved) + 2 * h.bus + 16 * h.dlc == b0
  {
    var q, r := w / 2, w / 4;
    assert w == 2 * q + w % 2 && q == 2 * (q / 2) + q % 2 && q / 2 == r;
    assert r == 2 * (r / 2) + r % 2 && r / 2 == w / 8;
    var t := b0 / 2;
    assert b0 == 2 * t + b0 % 2 && t == 8 * (t / 8) + t % 8 && t / 8 == b0 / 16;
  }

  /** And every six bytes are the layout of the header read from them. */
  lemma HeaderBytesRoundTrip(s: seq<byte>)
    requires |s| == HEADER_SIZE
    ensures HeaderBytes(ReadHeader(s)) == s
  {
    hide BytesWord, WordBytes, FlagsAndAddr, HeaderOf;
    var w := BytesWord(s[1], s[2], s[3], s[4]);
    WordBytesRoundTrip(s[1], s[2], s[3], s[4]);
    FieldsOf(s[0], w, s[5]);
    var h := ReadHeader(s);
  }

  // ---------------------------------------------------------------- encoding

  function MsgHeader(m: CanMsg): (h: Header)
    requires m.src < PANDA_BUS_OFFSET && Representable(|m.dat|)
    ensures h.Fits()
  {
    Header(false, m.src, LenToDlc(|m.dat|), false, false, m.address >= 0x800, m.address % ADDR_RANGE, 0)
  }

  function EncodeMsg(m: CanMsg): (s: seq<byte>)
    requires m.src < PANDA_BUS_OFFSET && Representable(|m.dat|)
    ensures |s| == HEADER_SIZE + |m.dat| <= MAX_FRAME
  {
    var blank := HeaderBytes(MsgHeader(m)) + m.dat;
    blank[5 := XorAll(blank)]
  }

  predicate Sendable(msgs: seq<CanMsg>) {
    forall m :: m in msgs && m.src < PANDA_BUS_OFFSET ==> Representable(|m.dat|)
  }

  function EncodeAll(msgs: seq<CanMsg>): seq<byte>
    requires Sendable(msgs)
  {
    if msgs == [] then []
    else
      var m := msgs[|msgs| - 1];
      EncodeAll(msgs[..|msgs| - 1]) + (if m.src < PANDA_BUS_OFFSET then EncodeMsg(m) else [])
  }

  /** What the other end should see: the messages for this panda, addresses cut to 29 bits. */
  function Expected(msgs: seq<CanMsg>): seq<CanFrame> {
    if msgs == [] then []
    else
      var m := msgs[|msgs| - 1];
      Expected(msgs[..|msgs| - 1])
      + (if m.src < PANDA_BUS_OFFSET then [CanFrame(m.address % ADDR_RANGE, m.dat, m.src)] else [])
  }

  function Flatten(chunks: seq<seq<byte>>): seq<byte> {
    if chunks == [] then [] else chunks[0] + Flatten(chunks[1..])
  }

  lemma {:induction false} FlattenAppend(a: seq<seq<byte>>, b: seq<seq<byte>>)
    ensures Flatten(a + b) == Flatten(a) + Flatten(b)
  {
    if a == [] {
      assert a + b == b;
    } else {
      assert (a + b)[1..] == a[1..] + b;
      FlattenAppend(a[1..], b);
    }
  }

  // ---------------------------------------------------------------- parsing

  datatype Parsed = Parsed(frames: seq<CanFrame>, rest: seq<byte>, ok: bool)

  function After(frames: seq<CanFrame>, p: Parsed): Parsed {
    p.(frames := frames + p.frames)
  }

  function FrameSize(s: seq<byte>): (n: nat)
    requires |s| >= HEADER_SIZE
    ensures HEADER_SIZE <= n <= MAX_FRAME
  {
    HEADER_SIZE + DlcToLen(s[0] / 16)
  }

  function FrameOf(h: Header, dat: seq<byte>): CanFrame {
    CanFrame(h.addr, dat,
             h.bus + (if h.rejected then REJECTED_BUS_OFFSET else 0) + (if h.returned then RETURNED_BUS_OFFSET else 0))
  }

  function ReadFrame(s: seq<byte>): CanFrame
    requires |s| >= HEADER_SIZE && FrameSize(s) <= |s|
  {
    FrameOf(ReadHeader(s), s[HEADER_SIZE..FrameSize(s)])
  }

  predicate Complete(s: seq<byte>) {
    |s| >= HEADER_SIZE && FrameSize(s) <= |s|
  }

  /** The frames in a byte stream, the incomplete tail, and whether every checksum agreed. */
  function Parse(s: seq<byte>): Parsed {
    if !Complete(s) then Parsed([], s, true)
    else if XorAll(s[..FrameSize(s)]) != 0 then Parsed([], [], false)
    else After([ReadFrame(s)], Parse(s[FrameSize(s)..]))
  }

  // ---------------------------------------------------------------- laws of the stream parser

  /** Less than one frame is ever left over. */
  lemma {:induction false} ParseLeavesTail(s: seq<byte>)
    ensures var p := Parse(s); !Complete(p.rest) && |p.rest| < MAX_FRAME && (!p.ok ==> p.rest == [])
  {
    if Complete(s) && XorAll(s[..FrameSize(s)]) == 0 {
      ParseLeavesTail(s[FrameSize(s)..]);
    }
  }

  lemma HeadOfStream(s: seq<byte>, t: seq<byte>)
    requires Complete(s)
    ensures Complete(s + t) && FrameSize(s + t) == FrameSize(s) && ReadFrame(s + t) == ReadFrame(s)
    ensures (s + t)[..FrameSize(s)] == s[..FrameSize(s)] && (s + t)[FrameSize(s)..] == s[FrameSize(s)..] + t
  {
    hide BytesWord, HeaderOf;
    assert (s + t)[HEADER_SIZE..FrameSize(s)] == s[HEADER_SIZE..FrameSize(s)];
  }

  /** More bytes at the end do not change what was already decided. */
  lemma {:induction false} ParseAppend(s: seq<byte>, t: seq<byte>)
    ensures Parse(s).ok ==> Parse(s + t) == After(Parse(s).frames, Parse(Parse(s).rest + t))
    ensures !Parse(s).ok ==> Parse(s + t) == Parse(s)
  {
    hide FrameSize, ReadFrame, XorAll;
    if Complete(s) {
      HeadOfStream(s, t);
      hide Complete;
      var tail := s[FrameSize(s)..];
      if XorAll(s[..FrameSize(s)]) == 0 {
        ParseAppend(tail, t);
        assert Parse(s) == After([ReadFrame(s)], Parse(tail));
        assert Parse(s + t) == After([ReadFrame(s)], Parse(tail + t));
      }
    } else {
      assert After([], Parse(s + t)) == Parse(s + t);
    }
  }

  lemma HeaderPrefix(h: Header, c: byte, t: seq<byte>)
    requires h.Fits()
    ensures ReadHeader(HeaderBytes(h)[5 := c] + t) == h.(checksum := c)
  {
    hide BytesWord, WordBytes, HeaderOf;
    HeaderRoundTrip(h.(checksum := c));
    assert FlagsAndAddr(h) == FlagsAndAddr(h.(checksum := c));
    assert HeaderBytes(h)[5 := c] == HeaderBytes(h.(checksum := c));
  }

  /** A packed message at the head of a stream is read back, whatever follows it. */
  lemma ParseEncodedMsg(m: CanMsg, t: seq<byte>)
    requires m.src < PANDA_BUS_OFFSET && Representable(|m.dat|)
    ensures Parse(EncodeMsg(m) + t)
         == After([CanFrame(m.address % ADDR_RANGE, m.dat, m.src)], Parse(t))
  {
    hide BytesWord, WordBytes, FlagsAndAddr, HeaderOf, BitXor, XorAll, XorByte, HeaderBytes, LenToDlc, DlcToLen;
    var h := MsgHeader(m);
    var blank := HeaderBytes(h) + m.dat;
    var c := XorAll(blank);
    var e := EncodeMsg(m);
    ChecksumCancels(blank, 5);
    assert e + t == HeaderBytes(h)[5 := c] + (m.dat + t);
    HeaderPrefix(h, c, m.dat + t);
    assert FrameSize(e + t) == |e|;
    assert (e + t)[..|e|] == e && (e + t)[|e|..] == t;
    assert (e + t)[HEADER_SIZE..|e|] == m.dat;
  }

  /** A byte string made of complete frames, all with good checksums. */
  predicate WholeFrames(s: seq<byte>) {
    Parse(s).ok && Parse(s).rest == []
  }

  lemma AppendFrame(s: seq<byte>, m: CanMsg)
    requires m.src < PANDA_BUS_OFFSET && Representable(|m.dat|)
    requires WholeFrames(s)
    ensures Parse(s + EncodeMsg(m))
         == Parsed(Parse(s).frames + [CanFrame(m.address % ADDR_RANGE, m.dat, m.src)], [], true)
  {
    hide Parse, EncodeMsg, Representable;
    ParseAppend(s, EncodeMsg(m));
    ParseEncodedMsg(m, []);
    ParseShort([]);
    assert EncodeMsg(m) + [] == EncodeMsg(m) && [] + EncodeMsg(m) == EncodeMsg(m);
  }

  /** Parsing undoes packing. */
  lemma {:induction false} ParseEncodeAll(msgs: seq<CanMsg>)
    requires Sendable(msgs)
    ensures Parse(EncodeAll(msgs)) == Parsed(Expected(msgs), [], true)
  {
    hide BytesWord, WordBytes, FlagsAndAddr, HeaderOf, BitXor, Representable, EncodeMsg;
    if msgs != [] {
      var init, m := msgs[..|msgs| - 1], msgs[|msgs| - 1];
      ParseEncodeAll(init);
      if m.src < PANDA_BUS_OFFSET {
        AppendFrame(EncodeAll(init), m);
      } else {
        assert EncodeAll(msgs) == EncodeAll(init) && Expected(msgs) == Expected(init);
      }
    }
  }

  // ---------------------------------------------------------------- fragmentation

  /**
   A run of the receiver: each piece is appended to what the previous piece left over, up to the first
   checksum failure.
   */
  function Feed(rest: seq<byte>, pieces: seq<seq<byte>>): Parsed
    decreases |pieces|
  {
    if pieces == [] then Parsed([], rest, true)
    else
      var p := Parse(rest + pieces[0]);
      if p.ok then After(p.frames, Feed(p.rest, pieces[1..])) else p
  }

  lemma FeedStep(rest: seq<byte>, pieces: seq<seq<byte>>)
    ensures pieces == [] ==> Feed(rest, pieces) == Parsed([], rest, true)
    ensures pieces != [] ==> var p := Parse(rest + pieces[0]);
              Feed(rest, pieces) == if p.ok then After(p.frames, Feed(p.rest, pieces[1..])) else p
  {
  }

  /**
   Fragmentation is invisible: for every byte stream, good or corrupt, and every way to cut it, the receiver
   delivers the frames, the leftover and the verdict of parsing the stream in one go.
   */
  lemma {:induction false} FeedIsParse(rest: seq<byte>, pieces: seq<seq<byte>>)
    requires !Complete(rest)
    ensures Feed(rest, pieces) == Parse(rest + Flatten(pieces))
    decreases |pieces|
  {
    if pieces == [] {
      assert rest + Flatten(pieces) == rest;
    } else {
      var s := rest + pieces[0];
      assert rest + Flatten(pieces) == s + Flatten(pieces[1..]);
      ParseAppend(s, Flatten(pieces[1..]));
      ParseLeavesTail(s);
      if Parse(s).ok {
        FeedIsParse(Parse(s).rest, pieces[1..]);
      }
    }
  }

  /**
   The round trip: pack any list of messages, cut the bytes anywhere, and the receiver yields exactly those
   messages, in order, with nothing left over.
   */
  lemma RoundTrip(msgs: seq<CanMsg>, pieces: seq<seq<byte>>)
    requires Sendable(msgs)
    requires Flatten(pieces) == EncodeAll(msgs)
    ensures Feed([], pieces) == Parsed(Expected(msgs), [], true)
  {
    ParseEncodeAll(msgs);
    FeedIsParse([], pieces);
    assert [] + Flatten(pieces) == EncodeAll(msgs);
  }

  predicate ForThisPanda(m: CanMsg) {
    m.src < PANDA_BUS_OFFSET
  }

  function AsFrames(msgs: seq<CanMsg>): (frames: seq<CanFrame>)
    ensures |frames| == |msgs|
    ensures forall i :: 0 <= i < |msgs| ==> frames[i] == CanFrame(msgs[i].address, msgs[i].dat, msgs[i].src)
  {
    seq(|msgs|, i requires 0 <= i < |msgs| => CanFrame(msgs[i].address, msgs[i].dat, msgs[i].src))
  }

  /** Addresses come back unchanged exactly when all of them fit the 29-bit field. */
  lemma {:induction false} AddressesSurvive(msgs: seq<CanMsg>)
    requires forall m :: m in msgs ==> ForThisPanda(m)
    ensures |Expected(msgs)| == |msgs|
    ensures Expected(msgs) == AsFrames(msgs) <==> forall m :: m in msgs ==> m.address < ADDR_RANGE
  {
    if msgs != [] {
      var init, m := msgs[..|msgs| - 1], msgs[|msgs| - 1];
      assert msgs == init + [m];
      assert ForThisPanda(m) by { assert m in msgs; }
      AddressesSurvive(init);
      assert AsFrames(msgs) == AsFrames(init) + [CanFrame(m.address, m.dat, m.src)];
      assert Expected(msgs) == Expected(init) + [CanFrame(m.address % ADDR_RANGE, m.dat, m.src)];
      assert m.address == m.address % ADDR_RANGE <==> m.address < ADDR_RANGE;
      hide Expected, AsFrames;
      SameSplit(Expected(init), AsFrames(init), CanFrame(m.address % ADDR_RANGE, m.dat, m.src), CanFrame(m.address, m.dat, m.src));
    }
  }

  lemma SameSplit<T>(a: seq<T>, b: seq<T>, x: T, y: T)
    requires |a| == |b|
    ensures a + [x] == b + [y] <==> a == b && x == y
  {
    assert (a + [x])[..|a|] == a && (b + [y])[..|a|] == b;
    assert (a + [x])[|a|] == x && (b + [y])[|a|] == y;
  }

  /**
   The wire format is tight: a complete frame whose bytes XOR to zero is the layout of the header and data read
   from it, with the checksum byte determined by the others.
   */
  lemma WireFormatIsTight(s: seq<byte>)
    requires |s| >= HEADER_SIZE && FrameSize(s) == |s|
    ensures XorAll(s) == 0 <==>
            s[5] == XorAll(HeaderBytes(ReadHeader(s).(checksum := 0)) + ReadFrame(s).dat)
    ensures s == HeaderBytes(ReadHeader(s)) + ReadFrame(s).dat
  {
    hide BytesWord, WordBytes, FlagsAndAddr, HeaderOf, BitXor;
    hide FrameSize, HeaderBytes, ReadHeader, ReadFrame, XorAll, XorByte, FrameOf, BitXor;
    var h, dat := ReadHeader(s), ReadFrame(s).dat;
    var blank := HeaderBytes(h.(checksum := 0)) + dat;
    FrameLayout(s);
    BlankHeader(h);
    assert |HeaderBytes(h)| == HEADER_SIZE;
    assert blank == s[5 := 0];
    assert blank[5 := s[5]] == s;
    XorWithByte(blank, 5, s[5]);
    ZeroMeansEqual(s[5], XorAll(blank));
  }

  // ---------------------------------------------------------------- both directions in bytes

  lemma WordParity(b1: byte, b2: byte, b3: byte, b4: byte)
    ensures var w := BytesWord(b1, b2, b3, b4); w % 2 == b1 % 2 && w / 2 % 2 == b1 / 2 % 2 && w / 4 % 2 == b1 / 4 % 2
  {
    var w := BytesWord(b1, b2, b3, b4);
    var rest := 0x20 * b2 as nat + 0x2000 * b3 as nat + 0x20_0000 * b4 as nat;
    assert w == b1 as nat + 8 * rest;
    hide BytesWord;
    LowBits(b1, rest);
  }

  lemma LowBits(a: nat, k: nat)
    ensures (a + 8 * k) % 2 == a % 2 && (a + 8 * k) / 2 % 2 == a / 2 % 2 && (a + 8 * k) / 4 % 2 == a / 4 % 2
  {
    DivShift(a, 4 * k, 2);
    DivShift(a / 2, 2 * k, 2);
    DivShift(a, 2 * k, 4);
    DivShift(a / 4, k, 2);
  }

  lemma DivShift(a: nat, k: nat, d: nat)
    requires d > 0
    ensures (a + d * k) / d == a / d + k && (a + d * k) % d == a % d
  {
    DivMod(a / d + k, a % d, d);
    assert a + d * k == a % d + d * (a / d + k);
  }

  /** The 29 bits of the address in the four bytes after the first. */
  function AddressIn(s: seq<byte>): nat
    requires |s| >= HEADER_SIZE
  {
    (s[1] as nat + 0x100 * s[2] as nat + 0x1_0000 * s[3] as nat + 0x100_0000 * s[4] as nat) / 8
  }

  /**
   What a complete good frame says, from its bytes: the address is in bytes one to four above three flags, the source is the
   bus in the first byte, 192 more when rejected (lowest flag) and 128 more when returned (the next), and the data follow.
   */
  lemma ReceivedFromBytes(s: seq<byte>)
    requires Complete(s) && XorAll(s[..FrameSize(s)]) == 0
    ensures |Parse(s).frames| > 0
    ensures Parse(s).frames[0].src as int
         == s[0] as nat / 2 % 8 + (if s[1] as nat % 2 == 1 then 192 else 0) + (if s[1] as nat / 2 % 2 == 1 then 128 else 0)
    ensures Parse(s).frames[0].address == AddressIn(s)
    ensures Parse(s).frames[0].dat == s[6..6 + DLC_TO_LEN[s[0] as nat / 16]]
  {
    WordParity(s[1], s[2], s[3], s[4]);
    hide XorAll;
  }

  /** So the source of a received frame tells its bus, whether it was rejected and whether it was returned. */
  lemma SourceTellsFlags(h: Header, g: Header, dat: seq<byte>, other: seq<byte>)
    requires h.Fits() && g.Fits()
    ensures FrameOf(h, dat).src == FrameOf(g, other).src <==> h.bus == g.bus && h.rejected == g.rejected && h.returned == g.returned
    ensures FrameOf(h, dat).src < 8 <==> !h.rejected && !h.returned
  {
  }

  lemma FlagsInBytes(h: Header)
    requires h.Fits()
    ensures var s := HeaderBytes(h);
            && s[0] as nat == Bit(h.reserved) + 2 * h.bus + 16 * h.dlc
            && s[1] as nat % 8 == Bit(h.rejected) + 2 * Bit(h.returned) + 4 * Bit(h.extended)
            && AddressIn(s) == h.addr
  {
    var w := FlagsAndAddr(h);
    WordRoundTrip(w);
    DivMod(h.addr, Bit(h.rejected) + 2 * Bit(h.returned) + 4 * Bit(h.extended), 8);
    hide DlcToLen;
  }

  /**
   A packed message in bytes: bus and length code in the first byte with the reserved bit clear, only the extended flag set
   below the address and that exactly from 0x800 on, then checksum and data.
   */
  lemma EncodedBytes(m: CanMsg)
    requires m.src < PANDA_BUS_OFFSET && Representable(|m.dat|)
    ensures var s := EncodeMsg(m);
            && s[0] as nat == 2 * m.src as nat + 16 * LenToDlc(|m.dat|)
            && s[1] as nat % 8 == (if m.address >= 0x800 then 4 else 0)
            && AddressIn(s) == m.address % 0x2000_0000
            && s[6..] == m.dat && XorAll(s) == 0
  {
    var h := MsgHeader(m);
    FlagsInBytes(h);
    ChecksumCancels(HeaderBytes(h) + m.dat, 5);
    hide HeaderBytes, XorAll, LenToDlc, DlcToLen;
  }

  lemma FrameLayout(s: seq<byte>)
    requires |s| >= HEADER_SIZE && FrameSize(s) == |s|
    ensures ReadFrame(s).dat == s[HEADER_SIZE..]
    ensures HeaderBytes(ReadHeader(s)) == s[..HEADER_SIZE]
    ensures s == HeaderBytes(ReadHeader(s)) + ReadFrame(s).dat
  {
    hide BytesWord, HeaderOf, WordBytes, FlagsAndAddr;
    HeaderBytesRoundTrip(s[..HEADER_SIZE]);
  }

  lemma ZeroMeansEqual(a: byte, b: byte)
    ensures XorByte(a, b) == 0 <==> a == b
  {
    BitXorAssoc(a, b, b);
    BitXorUnits(a);
    BitXorUnits(b);
  }

  lemma BlankHeader(h: Header)
    requires h.Fits()
    ensures HeaderBytes(h.(checksum := 0)) == HeaderBytes(h)[5 := 0]
  {
    hide WordBytes;
    assert FlagsAndAddr(h) == FlagsAndAddr(h.(checksum := 0));
  }

  // ---------------------------------------------------------------- the panda object

  method CalculateChecksum(data: array<byte>, start: nat, len: nat) returns (checksum: byte)
    requires start + len <= data.Length
    ensures checksum == XorAll(data[start..start + len])
  {
    checksum := 0;
    for i := 0 to len
      invariant checksum == XorAll(data[start..start + i])
    {
      checksum := XorByte(checksum, data[start + i]);
      assert data[start..start + i + 1][..i] == data[start..start + i];
    }
  }

  /** What the packer has done after the messages `msgs`: chunks written so far and bytes still in the buffer. */
  predicate Progress(msgs: seq<CanMsg>, written: seq<seq<byte>>, buffered: seq<byte>) {
    && Sendable(msgs)
    && Flatten(written) + buffered == EncodeAll(msgs)
    && WholeFrames(buffered)
    && forall i :: 0 <= i < |written| ==> WholeFrames(written[i])
  }

  lemma AppendMsg(msgs: seq<CanMsg>, m: CanMsg, written: seq<seq<byte>>, buffered: seq<byte>)
    requires Progress(msgs, written, buffered)
    requires m.src < PANDA_BUS_OFFSET ==> Representable(|m.dat|)
    ensures Progress(msgs + [m], written, buffered + (if m.src < PANDA_BUS_OFFSET then EncodeMsg(m) else []))
  {
    hide Parse, EncodeMsg, Representable;
    assert (msgs + [m])[..|msgs|] == msgs;
    if m.src < PANDA_BUS_OFFSET {
      AppendFrame(buffered, m);
    } else {
      assert buffered + [] == buffered;
    }
  }

  lemma FlushBuffer(msgs: seq<CanMsg>, written: seq<seq<byte>>, buffered: seq<byte>)
    requires Progress(msgs, written, buffered)
    ensures Progress(msgs, written + [buffered], [])
  {
    FlattenAppend(written, [buffered]);
    ParseShort([]);
    hide Parse;
  }

  lemma RefusedBy(msgs: seq<CanMsg>, k: nat)
    requires k < |msgs| && msgs[k].src < PANDA_BUS_OFFSET && !Representable(|msgs[k].dat|)
    ensures !Sendable(msgs)
  {
    assert msgs[k] in msgs;
  }

  /** Header, data and checksum of one message, written at `pos`. */
  method PutFrame(sendBuf: array<byte>, pos: nat, m: CanMsg, dlc: nat) returns (size: nat)
    requires m.src < PANDA_BUS_OFFSET && Representable(|m.dat|) && dlc == LenToDlc(|m.dat|)
    requires pos + MAX_FRAME <= sendBuf.Length
    modifies sendBuf
    ensures size == |EncodeMsg(m)|
    ensures sendBuf[pos..pos + size] == EncodeMsg(m)
    ensures sendBuf[..pos] == old(sendBuf[..pos])
  {
    hide XorAll, HeaderBytes, LenToDlc, DlcToLen;
    var header := HeaderBytes(Header(false, m.src, dlc, false, false, m.address >= 0x800, m.address % ADDR_RANGE, 0));
    size := HEADER_SIZE + |m.dat|;
    forall i | 0 <= i < HEADER_SIZE { sendBuf[pos + i] := header[i]; }
    forall i | 0 <= i < |m.dat| { sendBuf[pos + HEADER_SIZE + i] := m.dat[i]; }
    assert sendBuf[pos..pos + size] == header + m.dat;
    var checksum := CalculateChecksum(sendBuf, pos, size);
    sendBuf[pos + 5] := checksum;
    assert sendBuf[pos..pos + size] == EncodeMsg(m);
  }

  /**
   The packer.  It aborts (`ok` is false) exactly when a message for this panda has a length outside the table.
   Otherwise the chunks are the encoding cut between frames, each short enough for the send buffer and each but
   the last at least the soft limit long.
   */
  method PackCanBuffer(msgs: seq<CanMsg>) returns (ok: bool, written: seq<seq<byte>>)
    ensures ok <==> Sendable(msgs)
    ensures ok ==> Flatten(written) == EncodeAll(msgs)
    ensures forall i :: 0 <= i < |written| ==> 0 < |written[i]| < 326
    ensures forall i :: 0 <= i < |written| - 1 ==> 256 <= |written[i]|
    ensures forall i :: 0 <= i < |written| ==> WholeFrames(written[i])
  {
    hide Progress, EncodeMsg, Representable, Sendable, EncodeAll, Flatten, WholeFrames, LenToDlc, DlcToLen;
    var pos := 0;
    var sendBuf := new byte[2 * USB_TX_SOFT_LIMIT];
    written := [];
    assert Progress([], [], []) by { NothingPacked(); }
    for k := 0 to |msgs|
      invariant pos < USB_TX_SOFT_LIMIT
      invariant Progress(msgs[..k], written, sendBuf[..pos])
      invariant forall i :: 0 <= i < |written| ==> USB_TX_SOFT_LIMIT <= |written[i]| < USB_TX_SOFT_LIMIT + MAX_FRAME
    {
      var m := msgs[k];
      assert msgs[..k + 1] == msgs[..k] + [m];
      if m.src >= PANDA_BUS_OFFSET {
        AppendMsg(msgs[..k], m, written, sendBuf[..pos]);
        assert sendBuf[..pos] + [] == sendBuf[..pos];
        continue;
      }
      LengthAsserts(m);
      var dlc := LenToDlc(|m.dat| % 256);
      if |m.dat| > 64 || |m.dat| != DlcToLen(dlc) {
        RefusedBy(msgs, k);
        ChunksAreWhole(msgs[..k], written, sendBuf[..pos]);
        return false, written;
      }
      AppendMsg(msgs[..k], m, written, sendBuf[..pos]);
      ghost var before := sendBuf[..pos];
      var size := PutFrame(sendBuf, pos, m, dlc);
      pos := pos + size;
      assert sendBuf[..pos] == before + EncodeMsg(m);
      if pos >= USB_TX_SOFT_LIMIT {
        FlushBuffer(msgs[..k + 1], written, sendBuf[..pos]);
        written := written + [sendBuf[..pos]];
        pos := 0;
        assert sendBuf[..pos] == [];
      }
    }
    assert msgs[..|msgs|] == msgs;
    ok := true;
    if pos > 0 {
      FlushBuffer(msgs, written, sendBuf[..pos]);
      written := written + [sendBuf[..pos]];
    }
    ChunksAreWhole(msgs, written, []);
  }

  lemma NothingPacked()
    ensures Progress([], [], [])
  {
    ParseShort([]);
  }

  lemma ChunksAreWhole(msgs: seq<CanMsg>, written: seq<seq<byte>>, buffered: seq<byte>)
    requires Progress(msgs, written, buffered)
    ensures forall i :: 0 <= i < |written| ==> WholeFrames(written[i])
    ensures Sendable(msgs) && (buffered == [] ==> Flatten(written) == EncodeAll(msgs))
  {
    assert Flatten(written) + [] == Flatten(written);
  }

  /** The two assertions of the packer together accept exactly the representable lengths. */
  lemma LengthAsserts(m: CanMsg)
    ensures |m.dat| <= 64 ==> LenToDlc(|m.dat| % 256) < 16
    ensures Representable(|m.dat|) <==> |m.dat| <= 64 && |m.dat| == DlcToLen(LenToDlc(|m.dat| % 256))
  {
    if |m.dat| <= 64 {
      LenToDlcIsLeast(|m.dat|);
      assert |m.dat| % 256 == |m.dat|;
      hide LenToDlc, DlcToLen;
    }
  }

  lemma ParseShort(s: seq<byte>)
    requires |s| < HEADER_SIZE
    ensures Parse(s) == Parsed([], s, true)
  {
  }

  /** One turn of the parser at the head of `s`, in the terms of the receive loop. */
  lemma ParseStep(s: seq<byte>)
    requires |s| >= HEADER_SIZE
    ensures ReadHeader(s) == ReadHeader(s[..HEADER_SIZE])
    ensures var n := HEADER_SIZE + DlcToLen(ReadHeader(s).dlc);
            && (n > |s| ==> Parse(s) == Parsed([], s, true))
            && (n <= |s| && XorAll(s[..n]) != 0 ==> Parse(s) == Parsed([], [], false))
            && (n <= |s| && XorAll(s[..n]) == 0 ==>
                  Parse(s) == After([FrameOf(ReadHeader(s), s[HEADER_SIZE..n])], Parse(s[n..])))
  {
    hide BytesWord, HeaderOf, XorAll;
  }

  lemma SliceOfPrefix<T>(all: seq<T>, size: nat, pos: nat, from: nat, to: nat)
    requires size <= |all| && from <= to && pos + to <= size
    ensures all[..size][pos..][from..to] == all[pos + from..pos + to]
  {
    var (s, t) := (all[..size][pos..][from..to], all[pos + from..pos + to]);
    forall k | 0 <= k < to - from ensures s[k] == t[k] {
      assert s[k] == all[..size][pos..][from + k] == all[..size][pos + (from + k)];
    }
  }

  /** The same at position `pos` of a buffer that holds `size` bytes. */
  lemma ParseAt(all: seq<byte>, size: nat, pos: nat)
    requires pos + HEADER_SIZE <= size <= |all|
    ensures var s := all[..size][pos..];
            var h := ReadHeader(all[pos..pos + HEADER_SIZE]);
            var n := HEADER_SIZE + DlcToLen(h.dlc);
            if pos + n > size then Parse(s) == Parsed([], s, true)
            else if XorAll(all[pos..pos + n]) != 0 then Parse(s) == Parsed([], [], false)
            else Parse(s) == After([FrameOf(h, all[pos + HEADER_SIZE..pos + n])], Parse(all[..size][pos + n..]))
  {
    hide ReadHeader, XorAll, Parse, Complete, FrameOf, DlcToLen;
    var s := all[..size][pos..];
    SliceOfPrefix(all, size, pos, 0, HEADER_SIZE);
    ParseStep(s);
    var n := HEADER_SIZE + DlcToLen(ReadHeader(s).dlc);
    if pos + n <= size {
      SliceOfPrefix(all, size, pos, 0, n);
      SliceOfPrefix(all, size, pos, HEADER_SIZE, n);
      assert s[n..] == all[..size][pos + n..];
    }
  }

  /** The part of `Panda` that receives: one fixed buffer and the number of bytes in it. */
  class Panda {
    const receiveBuffer: array<byte>
    var receiveBufferSize: nat
    var resets: nat

    ghost predicate Valid()
      reads this, receiveBuffer
    {
      && receiveBuffer.Length == RECV_SIZE + MAX_FRAME
      && receiveBufferSize < MAX_FRAME
      && !Complete(Pending())
    }

    ghost function Pending(): seq<byte>
      requires receiveBufferSize <= receiveBuffer.Length
      reads this, receiveBuffer
    {
      receiveBuffer[..receiveBufferSize]
    }

    constructor ()
      ensures Valid() && Pending() == [] && resets == 0 && fresh(receiveBuffer)
    {
      receiveBuffer := new byte[RECV_SIZE + MAX_FRAME];
      receiveBufferSize := 0;
      resets := 0;
    }

    method CanResetCommunications()
      modifies this`resets
      ensures resets == old(resets) + 1
    {
      resets := resets + 1;
    }

    /**
     Cuts the complete frames out of `data[..size]`.  The loop guard subtracts in unsigned arithmetic, so with
     fewer than six bytes it wraps and lets the loop in; the length test inside is what stops it then.
     */
    method UnpackCanBuffer(data: array<byte>, size: nat, outVec: seq<CanFrame>)
      returns (ok: bool, newSize: nat, frames: seq<CanFrame>)
      requires HEADER_SIZE <= data.Length && size <= data.Length < SIZE_T_RANGE
      modifies data, this`resets
      ensures newSize <= size
      ensures Parsed(frames, data[..newSize], ok) == After(outVec, Parse(old(data[..size])))
      ensures resets == old(resets) + (if ok then 0 else 1)
    {
      hide ReadHeader, XorAll, Parse, Complete, FrameOf, DlcToLen, SizeTMinus;
      ghost var input := data[..size];
      var pos := 0;
      frames := outVec;
      assert input[0..] == input;
      while pos <= SizeTMinus(size, HEADER_SIZE)
        invariant pos <= size && (size < HEADER_SIZE ==> pos == 0)
        invariant data[..size] == input && resets == old(resets)
        invariant After(frames, Parse(input[pos..])) == After(outVec, Parse(input))
        decreases size - pos
      {
        if size < HEADER_SIZE {
          ParseShort(input[pos..]);
        } else {
          ParseAt(data[..], size, pos);
        }
        var header := ReadHeader(data[pos..pos + HEADER_SIZE]);
        var dataLen := DlcToLen(header.dlc);
        if pos + HEADER_SIZE + dataLen > size {
          break;
        }
        var n := HEADER_SIZE + dataLen;
        var checksum := CalculateChecksum(data, pos, n);
        if checksum != 0 {
          CanResetCommunications();
          return false, 0, frames;
        }
        var canData := FrameOf(header, data[pos + HEADER_SIZE..pos + n]);
        frames := frames + [canData];
        pos := pos + n;
      }
      if |input[pos..]| < HEADER_SIZE {
        ParseShort(input[pos..]);
      }
      assert Parse(input[pos..]) == Parsed([], input[pos..], true);
      forall i | 0 <= i < size - pos { data[i] := data[pos + i]; }
      newSize := size - pos;
      assert data[..newSize] == input[pos..];
      ok := true;
    }

    /**
     One receive: `incoming` is what the bulk read delivered (none when it failed), `healthy` the state of the
     link afterwards.
     */
    method CanReceive(incoming: seq<byte>, healthy: bool, outVec: seq<CanFrame>)
      returns (ret: bool, frames: seq<CanFrame>)
      requires Valid() && |incoming| <= RECV_SIZE
      modifies this, receiveBuffer
      ensures Valid()
      ensures healthy ==> Parsed(frames, Pending(), ret) == After(outVec, Parse(old(Pending()) + incoming))
      ensures !healthy ==> !ret && frames == outVec && Pending() == old(Pending())
      ensures resets == old(resets) + (if healthy && !ret then 1 else 0)
    {
      ghost var pending := Pending();
      assert receiveBufferSize + RECV_SIZE <= receiveBuffer.Length;
      forall i | 0 <= i < |incoming| { receiveBuffer[receiveBufferSize + i] := incoming[i]; }
      assert Pending() == pending;
      frames := outVec;
      if !healthy {
        return false, outVec;
      }
      ret := true;
      if |incoming| > 0 {
        receiveBufferSize := receiveBufferSize + |incoming|;
        assert Pending() == pending + incoming;
        ParseLeavesTail(pending + incoming);
        ret, receiveBufferSize, frames := UnpackCanBuffer(receiveBuffer, receiveBufferSize, outVec);
      } else {
        assert pending + incoming == pending;
      }
    }

    /** The receive loop over a healthy link, up to the first checksum failure. */
    method ReceiveAll(pieces: seq<seq<byte>>) returns (ok: bool, frames: seq<CanFrame>)
      requires Valid() && forall i :: 0 <= i < |pieces| ==> |pieces[i]| <= RECV_SIZE
      modifies this, receiveBuffer
      ensures Valid()
      ensures Parsed(frames, Pending(), ok) == Parse(old(Pending()) + Flatten(pieces))
    {
      hide Feed, Parse, Complete, Flatten;
      FeedIsParse(Pending(), pieces);
      ghost var whole := Feed(Pending(), pieces);
      ok, frames := true, [];
      for k := 0 to |pieces|
        invariant Valid()
        invariant ok && After(frames, Feed(Pending(), pieces[k..])) == whole
      {
        FeedStep(Pending(), pieces[k..]);
        assert pieces[k..][1..] == pieces[k + 1..];
        ok, frames := CanReceive(pieces[k], true, frames);
        if !ok {
          return;
        }
      }
      FeedStep(Pending(), []);
    }
  }
}
