/**
 The byte walk and the byte surgery behind the corrected map image.

 A map is a header followed by blocks. The walk looks for the block that carries
 the robot's position; the patch rewrites the eight coordinate bytes in it.
 */
module MapRender {
  import opened Common

  type Byte = b: int | 0 <= b < 256
  type Bytes = seq<Byte>

  const ROBOT_POSITION_BLOCK_TYPE := 8
  const MAX_BLOCK_HEADER_LENGTH := 0xFF
  const SAME_POSITION_TOLERANCE := 50.0
  const TWO_31 := 0x8000_0000
  const TWO_32 := 0x1_0000_0000

  // -- little-endian integers -------------------------------------------------

  function Le16(raw: Bytes, at: nat): nat
    requires at + 2 <= |raw|
  {
    raw[at] as int + 0x100 * (raw[at + 1] as int)
  }

  function Le32(raw: Bytes, at: nat): nat
    requires at + 4 <= |raw|
  {
    raw[at] as int + 0x100 * (raw[at + 1] as int) + 0x1_0000 * (raw[at + 2] as int) + 0x100_0000 * (raw[at + 3] as int)
  }

  function SignedLe32(raw: Bytes, at: nat): int
    requires at + 4 <= |raw|
  {
    var n := Le32(raw, at);
    if n >= TWO_31 then n - TWO_32 else n
  }

  predicate IsInt32(n: int)
  {
    -TWO_31 <= n < TWO_31
  }

  function Encode16(n: nat): Bytes
    requires n < 0x1_0000
  {
    [n % 0x100, n / 0x100]
  }

  function Encode32(n: nat): Bytes
    requires n < TWO_32
  {
    [n % 0x100, n / 0x100 % 0x100, n / 0x100 / 0x100 % 0x100, n / 0x100 / 0x100 / 0x100]
  }

  function EncodeInt32(n: int): (r: Bytes)
    requires IsInt32(n)
    ensures |r| == 4
  {
    Encode32(if n < 0 then n + TWO_32 else n)
  }

  lemma Encode32RoundTrip(n: nat)
    requires n < TWO_32
    ensures Le32(Encode32(n), 0) == n
  {
    var n1 := n / 0x100;
    var n2 := n1 / 0x100;
    assert n == n % 0x100 + 0x100 * n1 && n1 == n1 % 0x100 + 0x100 * n2;
    assert n2 == n2 % 0x100 + 0x100 * (n2 / 0x100);
  }

  // -- the walk ---------------------------------------------------------------

  function BlockType(raw: Bytes, p: nat): nat
    requires p + 8 <= |raw|
  {
    Le16(raw, p)
  }

  function HeaderLength(raw: Bytes, p: nat): nat
    requires p + 8 <= |raw|
  {
    Le16(raw, p + 2)
  }

  function DataLength(raw: Bytes, p: nat): nat
    requires p + 8 <= |raw|
  {
    Le32(raw, p + 4)
  }

  /** The header at `p` can be walked and its data lies inside the bytes. */
  predicate Walkable(raw: Bytes, p: nat)
  {
    && p + 8 <= |raw|
    && 0 < HeaderLength(raw, p) <= MAX_BLOCK_HEADER_LENGTH
    && 0 < DataLength(raw, p)
    && p + HeaderLength(raw, p) + DataLength(raw, p) <= |raw|
  }

  /** Where the robot block starts, walking block by block from `p`. */
  function WalkFrom(raw: Bytes, p: nat): (r: Option<nat>)
    ensures r.Some? ==> p <= r.value && Walkable(raw, r.value)
    ensures r.Some? ==> BlockType(raw, r.value) == ROBOT_POSITION_BLOCK_TYPE && DataLength(raw, r.value) >= 8
    decreases |raw| - p
  {
    if !Walkable(raw, p) then None
    else if BlockType(raw, p) == ROBOT_POSITION_BLOCK_TYPE then
      if DataLength(raw, p) < 8 then None else Some(p)
    else WalkFrom(raw, p + HeaderLength(raw, p) + DataLength(raw, p))
  }

  function RobotBlock(raw: Bytes): (r: Option<nat>)
    ensures r.Some? ==> 1 <= r.value && Walkable(raw, r.value) && DataLength(raw, r.value) >= 8
  {
    if |raw| < 4 || Le16(raw, 2) == 0 || Le16(raw, 2) >= |raw| then None else WalkFrom(raw, Le16(raw, 2))
  }

  /** First byte after the header of the block at `p`. */
  function DataStart(raw: Bytes, p: nat): nat
    requires p + 8 <= |raw|
  {
    p + HeaderLength(raw, p)
  }

  datatype DataRange = DataRange(start: nat, length: nat)

  /**
   The walk as the integration runs it. The stride keeps only the low byte of the
   header length; every header it accepts fits in that byte, so no step is short.
   */
  method FindRobotPositionBlock(raw: Bytes) returns (found: Option<DataRange>)
    ensures found.Some? <==> RobotBlock(raw).Some?
    ensures found.Some? ==>
              var q := RobotBlock(raw).value;
              found.value == DataRange(DataStart(raw, q), DataLength(raw, q))
    ensures found.Some? ==> 2 <= found.value.start && found.value.start + found.value.length <= |raw|
  {
    hide Le16, Le32;
    if |raw| < 4 {
      return None;
    }
    var headerLength := Le16(raw, 2);
    if headerLength <= 0 || headerLength >= |raw| {
      return None;
    }
    var position := headerLength;
    while position + 8 <= |raw|
      invariant headerLength <= position <= |raw|
      invariant WalkFrom(raw, position) == RobotBlock(raw)
      decreases |raw| - position
    {
      var blockType := BlockType(raw, position);
      var blockHeaderLength := HeaderLength(raw, position);
      var blockDataLength := DataLength(raw, position);
      if blockHeaderLength <= 0 || blockHeaderLength > MAX_BLOCK_HEADER_LENGTH || blockDataLength <= 0 {
        return None;
      }
      var dataStart := position + blockHeaderLength;
      if dataStart + blockDataLength > |raw| {
        return None;
      }
      if blockType == ROBOT_POSITION_BLOCK_TYPE {
        if blockDataLength < 8 {
          return None;
        }
        return Some(DataRange(dataStart, blockDataLength));
      }
      position := position + blockDataLength + blockHeaderLength % 0x100;
    }
    return None;
  }

  /** A robot block found at `q` is found again in any bytes that agree below its data. */
  lemma {:induction false} WalkReadsOnlyHeaders(raw: Bytes, other: Bytes, p: nat, limit: nat)
    requires |raw| == |other|
    requires forall k :: 0 <= k < limit <= |raw| ==> raw[k] == other[k]
    requires WalkFrom(raw, p).Some?
    requires WalkFrom(raw, p).value + 8 <= limit <= |raw|
    ensures WalkFrom(other, p) == WalkFrom(raw, p)
    decreases |raw| - p
  {
    if BlockType(raw, p) != ROBOT_POSITION_BLOCK_TYPE {
      WalkReadsOnlyHeaders(raw, other, p + HeaderLength(raw, p) + DataLength(raw, p), limit);
    }
  }

  // -- the patch --------------------------------------------------------------

  function Splice(raw: Bytes, at: nat, patch: Bytes): (r: Bytes)
    requires at + |patch| <= |raw|
    ensures |r| == |raw|
    ensures forall k :: 0 <= k < |raw| ==> r[k] == if at <= k < at + |patch| then patch[k - at] else raw[k]
  {
    raw[..at] + patch + raw[at + |patch|..]
  }

  /** A patch fails if there is no block, a coordinate does not fit, or the map cannot be decompressed. */
  datatype Patch = Patched(bytes: Bytes) | NotFound | Overflow | Corrupt

  function PatchedBytes(raw: Bytes, x: int, y: int): Patch
  {
    var q := RobotBlock(raw);
    if q.None? then NotFound
    else if !IsInt32(x) || !IsInt32(y) then Overflow
    else Patched(Splice(raw, DataStart(raw, q.value), EncodeInt32(x) + EncodeInt32(y)))
  }

  function ReadPosition(raw: Bytes): Option<(int, int)>
  {
    var q := RobotBlock(raw);
    if q.None? then None
    else Some((SignedLe32(raw, DataStart(raw, q.value)), SignedLe32(raw, DataStart(raw, q.value) + 4)))
  }

  method WriteInt32(bytes: array<Byte>, at: nat, value: int)
    requires at + 4 <= bytes.Length && IsInt32(value)
    modifies bytes
    ensures bytes[..] == Splice(old(bytes[..]), at, EncodeInt32(value))
  {
    var encoded := EncodeInt32(value);
    for k := 0 to 4
      invariant forall j :: 0 <= j < bytes.Length ==>
                  bytes[j] == if at <= j < at + k then encoded[j - at] else old(bytes[j])
    {
      bytes[at + k] := encoded[k];
    }
  }

  method PatchRobotPosition(raw: Bytes, x: int, y: int) returns (r: Patch)
    ensures r == PatchedBytes(raw, x, y)
    ensures r.Patched? ==> |r.bytes| == |raw| && r.bytes[..2] == raw[..2]
  {
    hide EncodeInt32, Splice, WalkFrom, Walkable, Le16, Le32;
    var found := FindRobotPositionBlock(raw);
    if found.None? {
      return NotFound;
    }
    var start := found.value.start;
    if !IsInt32(x) || !IsInt32(y) {
      return Overflow;
    }
    var patched := new Byte[|raw|](i requires 0 <= i < |raw| => raw[i]);
    assert patched[..] == raw;
    WriteInt32(patched, start, x);
    WriteInt32(patched, start + 4, y);
    SpliceTwice(raw, start, EncodeInt32(x), EncodeInt32(y));
    return Patched(patched[..]);
  }

  lemma SpliceTwice(raw: Bytes, at: nat, a: Bytes, b: Bytes)
    requires at + |a| + |b| <= |raw|
    ensures Splice(Splice(raw, at, a), at + |a|, b) == Splice(raw, at, a + b)
  {
    hide Splice;
  }

  lemma SignedRoundTrip(raw: Bytes, at: nat, n: int)
    requires IsInt32(n) && at + 4 <= |raw| && raw[at..at + 4] == EncodeInt32(n)
    ensures SignedLe32(raw, at) == n
  {
    var m := if n < 0 then n + TWO_32 else n;
    Encode32RoundTrip(m);
    var e := raw[at..at + 4];
    assert e[0] == raw[at] && e[1] == raw[at + 1] && e[2] == raw[at + 2] && e[3] == raw[at + 3];
    assert Le32(raw, at) == Le32(e, 0) == m;
  }

  /** The walk over patched bytes ends in the same block: a header of eight bytes or more shields it. */
  lemma PatchKeepsTheWalk(raw: Bytes, x: int, y: int)
    requires RobotBlock(raw).Some? && HeaderLength(raw, RobotBlock(raw).value) >= 8
    requires IsInt32(x) && IsInt32(y)
    ensures RobotBlock(PatchedBytes(raw, x, y).bytes) == RobotBlock(raw)
    ensures DataStart(PatchedBytes(raw, x, y).bytes, RobotBlock(raw).value) == DataStart(raw, RobotBlock(raw).value)
  {
    hide Le32, EncodeInt32;
    var q := RobotBlock(raw).value;
    WalkReadsOnlyHeaders(raw, PatchedBytes(raw, x, y).bytes, Le16(raw, 2), DataStart(raw, q));
  }

  /** Reading back a patched map gives the written position, whatever the earlier blocks look like. */
  lemma ReadAfterPatch(raw: Bytes, x: int, y: int)
    requires RobotBlock(raw).Some? && HeaderLength(raw, RobotBlock(raw).value) >= 8
    requires IsInt32(x) && IsInt32(y)
    ensures ReadPosition(PatchedBytes(raw, x, y).bytes) == Some((x, y))
  {
    PatchKeepsTheWalk(raw, x, y);
    var p := PatchedBytes(raw, x, y).bytes;
    var d := DataStart(raw, RobotBlock(raw).value);
    assert p[d..d + 4] == EncodeInt32(x);
    assert p[d + 4..d + 8] == EncodeInt32(y);
    SignedRoundTrip(p, d, x);
    SignedRoundTrip(p, d + 4, y);
  }

  /** Only the last of two patches is visible, byte for byte. */
  lemma LastPatchWins(raw: Bytes, x: int, y: int, x': int, y': int)
    requires RobotBlock(raw).Some? && HeaderLength(raw, RobotBlock(raw).value) >= 8
    requires IsInt32(x) && IsInt32(y) && IsInt32(x') && IsInt32(y')
    ensures PatchedBytes(PatchedBytes(raw, x, y).bytes, x', y') == PatchedBytes(raw, x', y')
  {
    PatchKeepsTheWalk(raw, x, y);
    assert PatchedBytes(PatchedBytes(raw, x, y).bytes, x', y').bytes == PatchedBytes(raw, x', y').bytes;
  }

  /** A header shorter than eight bytes is overwritten by its own data: here the block disappears. */
  lemma ShortHeaderCanLoseTheBlock()
    ensures exists raw: Bytes :: RobotBlock(raw).Some? && ReadPosition(PatchedBytes(raw, 0, 0).bytes) != Some((0, 0))
  {
    var raw: Bytes := [0, 0, 4, 0] + [8, 0, 4, 0, 8, 0, 0, 0] + [0, 0, 0, 0];
    assert RobotBlock(raw) == Some(4);
    var p := PatchedBytes(raw, 0, 0).bytes;
    assert p == [0, 0, 4, 0] + [8, 0, 4, 0, 0, 0, 0, 0] + [0, 0, 0, 0];
    assert !Walkable(p, 4);
  }

  /** Bytes that repeat 255 from `limit` on stop the walk at the first header that reaches them. */
  lemma {:induction false} OverwrittenHeaderStopsWalk(raw: Bytes, other: Bytes, p: nat, limit: nat)
    requires |raw| == |other| <= 0xFF00_0000 && limit + 8 <= |raw|
    requires forall k :: 0 <= k < limit ==> raw[k] == other[k]
    requires forall k :: limit <= k < limit + 8 ==> other[k] == 0xFF
    requires WalkFrom(raw, p).Some? && WalkFrom(raw, p).value < limit < WalkFrom(raw, p).value + 8
    ensures WalkFrom(other, p) == None
    decreases |raw| - p
  {
    if p + 8 <= limit {
      OverwrittenHeaderStopsWalk(raw, other, p + HeaderLength(raw, p) + DataLength(raw, p), limit);
    } else {
      assert other[p + 7] == 0xFF;
      assert DataLength(other, p) >= 0xFF00_0000;
    }
  }

  /** The map header's own length field is never part of a robot block. */
  lemma RobotBlockSparesLengthField(raw: Bytes)
    requires RobotBlock(raw).Some?
    ensures DataStart(raw, RobotBlock(raw).value) >= 4
  {
    var q, start := RobotBlock(raw).value, Le16(raw, 2);
    if q == start && start < 4 {
      assert BlockType(raw, q) == ROBOT_POSITION_BLOCK_TYPE;
      assert start == 1 || start == 2 || start == 3;
    }
    WalkEndsPastSecondByte(raw, start);
  }

  lemma WalkEndsPastSecondByte(raw: Bytes, p: nat)
    requires WalkFrom(raw, p).Some?
    ensures WalkFrom(raw, p).value == p || WalkFrom(raw, p).value >= p + 2
  {
  }

  lemma MinusOnesAreSolid(k: nat)
    requires k < 8
    ensures IsInt32(-1) && (EncodeInt32(-1) + EncodeInt32(-1))[k] == 0xFF
  {
    assert EncodeInt32(-1) == [0xFF, 0xFF, 0xFF, 0xFF];
  }

  /**
   Writing and reading back is exact for every position if and only if the header of the robot
   block is at least eight bytes long; a shorter one loses at least the position (-1, -1).
   */
  lemma RoundTripNeedsFullHeader(raw: Bytes)
    requires RobotBlock(raw).Some? && |raw| <= 0xFF00_0000
    ensures HeaderLength(raw, RobotBlock(raw).value) >= 8
            <==> forall x, y :: IsInt32(x) && IsInt32(y) ==> ReadPosition(PatchedBytes(raw, x, y).bytes) == Some((x, y))
  {
    var q := RobotBlock(raw).value;
    if HeaderLength(raw, q) >= 8 {
      forall x, y | IsInt32(x) && IsInt32(y)
        ensures ReadPosition(PatchedBytes(raw, x, y).bytes) == Some((x, y))
      {
        ReadAfterPatch(raw, x, y);
      }
    } else {
      ShortHeaderLosesBlock(raw);
      assert ReadPosition(PatchedBytes(raw, -1, -1).bytes) != Some((-1, -1));
    }
  }

  lemma ShortHeaderLosesBlock(raw: Bytes)
    requires RobotBlock(raw).Some? && |raw| <= 0xFF00_0000
    requires HeaderLength(raw, RobotBlock(raw).value) < 8
    ensures IsInt32(-1) && PatchedBytes(raw, -1, -1).Patched? && ReadPosition(PatchedBytes(raw, -1, -1).bytes) == None
  {
    hide Le32, EncodeInt32, Encode32, WalkFrom, Splice;
    var q := RobotBlock(raw).value;
    var limit := DataStart(raw, q);
    RobotBlockSparesLengthField(raw);
    MinusOnesAreSolid(0);
    var solid := EncodeInt32(-1) + EncodeInt32(-1);
    var other := Splice(raw, limit, solid);
    forall k | limit <= k < limit + 8
      ensures other[k] == 0xFF
    {
      MinusOnesAreSolid(k - limit);
      assert other[k] == solid[k - limit];
    }
    assert Le16(other, 2) == Le16(raw, 2);
    OverwrittenHeaderStopsWalk(raw, other, Le16(raw, 2), limit);
  }

  // -- the abstract map -------------------------------------------------------

  /** One block: its type, the header bytes after the eight fixed ones, and its data. */
  datatype Block = Block(kind: nat, extra: Bytes, data: Bytes) {
    predicate WellFormed() {
      kind < 0x1_0000 && 8 + |extra| <= 255 && 0 < |data| < TWO_32
    }
  }

  function SerializeBlockHeader(b: Block): (r: Bytes)
    requires b.WellFormed()
    ensures |r| == 8 + |b.extra|
  {
    Encode16(b.kind) + Encode16(8 + |b.extra|) + Encode32(|b.data|) + b.extra
  }

  function SerializeBlock(b: Block): (r: Bytes)
    requires b.WellFormed()
    ensures |r| == 8 + |b.extra| + |b.data|
  {
    SerializeBlockHeader(b) + b.data
  }

  predicate WellFormedBlocks(blocks: seq<Block>)
  {
    forall b :: b in blocks ==> b.WellFormed()
  }

  function SerializeBlocks(blocks: seq<Block>): Bytes
    requires WellFormedBlocks(blocks)
  {
    if blocks == [] then [] else SerializeBlock(blocks[0]) + SerializeBlocks(blocks[1..])
  }

  /** The map header states its own length in its third and fourth byte. */
  predicate WellFormedHeader(header: Bytes)
  {
    4 <= |header| < 0x1_0000 && Le16(header, 2) == |header|
  }

  /** Index of the first robot block, unless that block is too short to hold a position. */
  function FirstRobot(blocks: seq<Block>): (r: Option<nat>)
    ensures r.Some? ==> r.value < |blocks| && |blocks[r.value].data| >= 8
  {
    if blocks == [] then None
    else if blocks[0].kind == ROBOT_POSITION_BLOCK_TYPE then
      if |blocks[0].data| < 8 then None else Some(0)
    else
      var rest := FirstRobot(blocks[1..]);
      if rest.None? then None else Some(rest.value + 1)
  }

  /** What `FirstRobot` means: the first block of the robot type decides, and no other. */
  lemma {:induction false} FirstRobotIsFirst(blocks: seq<Block>, i: nat)
    requires i < |blocks| && blocks[i].kind == ROBOT_POSITION_BLOCK_TYPE
    requires forall k :: 0 <= k < i ==> blocks[k].kind != ROBOT_POSITION_BLOCK_TYPE
    ensures FirstRobot(blocks) == if |blocks[i].data| >= 8 then Some(i) else None
  {
    if i > 0 {
      FirstRobotIsFirst(blocks[1..], i - 1);
    }
  }

  lemma {:induction false} NoRobotBlock(blocks: seq<Block>)
    requires forall b :: b in blocks ==> b.kind != ROBOT_POSITION_BLOCK_TYPE
    ensures FirstRobot(blocks) == None
  {
    if blocks != [] {
      NoRobotBlock(blocks[1..]);
    }
  }

  /** The same list with the first eight data bytes of one block replaced. */
  function WithPosition(blocks: seq<Block>, i: nat, position: Bytes): seq<Block>
    requires i < |blocks| && |position| == 8 <= |blocks[i].data|
  {
    blocks[i := blocks[i].(data := position + blocks[i].data[8..])]
  }

  lemma SerializedHeader(b: Block, before: Bytes, after: Bytes)
    requires b.WellFormed()
    ensures var raw := before + (SerializeBlock(b) + after);
            && Walkable(raw, |before|)
            && BlockType(raw, |before|) == b.kind
            && HeaderLength(raw, |before|) == 8 + |b.extra|
            && DataLength(raw, |before|) == |b.data|
  {
    var raw := before + (SerializeBlock(b) + after);
    var p, s := |before|, SerializeBlock(b);
    assert forall k :: 0 <= k < |s| ==> raw[p + k] == s[k];
    Encode32RoundTrip(|b.data|);
    assert s[0..2] == Encode16(b.kind) && s[2..4] == Encode16(8 + |b.extra|) && s[4..8] == Encode32(|b.data|);
    assert raw[p] == s[0] && raw[p + 1] == s[1] && raw[p + 2] == s[2] && raw[p + 3] == s[3];
    assert raw[p + 4] == s[4] && raw[p + 5] == s[5] && raw[p + 6] == s[6] && raw[p + 7] == s[7];
  }

  lemma SpliceMiddle(head: Bytes, middle: Bytes, tail: Bytes, w: Bytes)
    requires |w| == |middle|
    ensures Splice(head + (middle + tail), |head|, w) == head + (w + tail)
  {
    var raw := head + (middle + tail);
    assert raw[..|head|] == head && raw[|head| + |w|..] == tail;
  }

  /** Both ways to bracket a block between what precedes it and what follows. */
  lemma Regroup(before: Bytes, header: Bytes, start: Bytes, end: Bytes, after: Bytes)
    ensures before + (header + (start + end) + after) == before + header + (start + (end + after))
  {
    var left, right := before + (header + (start + end) + after), before + header + (start + (end + after));
    assert |left| == |right|;
  }

  /** Splicing a position into the first block's data edits that block and nothing else. */
  lemma SpliceEditsFirstBlock(before: Bytes, b: Block, after: Bytes, w: Bytes)
    requires b.WellFormed() && |w| == 8 <= |b.data|
    ensures var edited := b.(data := w + b.data[8..]);
            && edited.WellFormed()
            && Splice(before + (SerializeBlock(b) + after), |before| + 8 + |b.extra|, w)
               == before + (SerializeBlock(edited) + after)
  {
    var start, end := b.data[..8], b.data[8..];
    assert b.data == start + end;
    var edited := b.(data := w + end);
    assert SerializeBlockHeader(edited) == SerializeBlockHeader(b);
    hide SerializeBlockHeader, Splice;
    var header := SerializeBlockHeader(b);
    Regroup(before, header, start, end, after);
    Regroup(before, header, w, end, after);
    SpliceMiddle(before + header, start, end + after, w);
  }

  lemma WalkStepsOverBlock(before: Bytes, b: Block, after: Bytes)
    requires b.WellFormed()
    ensures var raw := before + (SerializeBlock(b) + after);
            && Walkable(raw, |before|)
            && DataLength(raw, |before|) == |b.data|
            && HeaderLength(raw, |before|) == 8 + |b.extra|
            && WalkFrom(raw, |before|) ==
               if b.kind != ROBOT_POSITION_BLOCK_TYPE then WalkFrom(raw, |before + SerializeBlock(b)|)
               else if |b.data| < 8 then None else Some(|before|)
  {
    SerializedHeader(b, before, after);
  }

  /** The walk ended at `q`, and putting `w` at the start of its data gives `expected`. */
  predicate PatchesAt(raw: Bytes, q: Option<nat>, w: Bytes, expected: Bytes)
  {
    && q.Some?
    && Walkable(raw, q.value)
    && HeaderLength(raw, q.value) >= 8
    && DataLength(raw, q.value) >= |w|
    && Splice(raw, DataStart(raw, q.value), w) == expected
  }

  /** Walking from `p` finds the first robot block of `blocks` and patching there edits it. */
  predicate Refines(raw: Bytes, p: nat, before: Bytes, blocks: seq<Block>, w: Bytes)
    requires WellFormedBlocks(blocks) && |w| == 8
  {
    match FirstRobot(blocks)
    case None => WalkFrom(raw, p) == None
    case Some(i) =>
      && WellFormedBlocks(WithPosition(blocks, i, w))
      && PatchesAt(raw, WalkFrom(raw, p), w, before + SerializeBlocks(WithPosition(blocks, i, w)))
  }

  lemma WithPositionPastFirst(first: Block, rest: seq<Block>, i: nat, w: Bytes)
    requires first.WellFormed() && i < |rest| && |w| == 8 <= |rest[i].data|
    requires WellFormedBlocks(WithPosition(rest, i, w))
    ensures WithPosition([first] + rest, i + 1, w) == [first] + WithPosition(rest, i, w)
    ensures WellFormedBlocks(WithPosition([first] + rest, i + 1, w))
    ensures SerializeBlocks(WithPosition([first] + rest, i + 1, w))
            == SerializeBlock(first) + SerializeBlocks(WithPosition(rest, i, w))
  {
    var edited := [first] + WithPosition(rest, i, w);
    assert edited[1..] == WithPosition(rest, i, w);
  }

  lemma RefinesPastBlock(raw: Bytes, before: Bytes, first: Block, rest: seq<Block>, w: Bytes)
    requires first.WellFormed() && WellFormedBlocks(rest) && |w| == 8
    requires first.kind != ROBOT_POSITION_BLOCK_TYPE
    requires WalkFrom(raw, |before|) == WalkFrom(raw, |before + SerializeBlock(first)|)
    requires Refines(raw, |before + SerializeBlock(first)|, before + SerializeBlock(first), rest, w)
    ensures Refines(raw, |before|, before, [first] + rest, w)
  {
    hide SerializeBlock, Splice, Walkable, WalkFrom;
    var blocks := [first] + rest;
    assert blocks[1..] == rest;
    if FirstRobot(rest).Some? {
      var i := FirstRobot(rest).value;
      WithPositionPastFirst(first, rest, i, w);
      var tail := SerializeBlocks(WithPosition(rest, i, w));
      assert before + (SerializeBlock(first) + tail) == before + SerializeBlock(first) + tail;
    }
  }

  lemma SerializeFirst(first: Block, rest: seq<Block>)
    requires first.WellFormed() && WellFormedBlocks(rest)
    ensures WellFormedBlocks([first] + rest)
    ensures SerializeBlocks([first] + rest) == SerializeBlock(first) + SerializeBlocks(rest)
  {
    hide SerializeBlock;
    assert ([first] + rest)[1..] == rest;
  }

  lemma RefinesAtBlock(before: Bytes, first: Block, rest: seq<Block>, w: Bytes)
    requires first.WellFormed() && WellFormedBlocks(rest) && |w| == 8
    requires first.kind == ROBOT_POSITION_BLOCK_TYPE
    ensures Refines(before + (SerializeBlock(first) + SerializeBlocks(rest)), |before|, before, [first] + rest, w)
  {
    hide SerializeBlock, SerializeBlocks, Splice, Walkable, WalkFrom;
    var after := SerializeBlocks(rest);
    WalkStepsOverBlock(before, first, after);
    if |first.data| >= 8 {
      SpliceEditsFirstBlock(before, first, after, w);
      var edited := first.(data := w + first.data[8..]);
      assert WithPosition([first] + rest, 0, w) == [edited] + rest;
      SerializeFirst(edited, rest);
    }
  }

  lemma NothingToRefine(before: Bytes, w: Bytes)
    requires |w| == 8
    ensures Refines(before + SerializeBlocks([]), |before|, before, [], w)
  {
  }

  /** Walking serialised blocks visits them one by one and patching edits the first robot block. */
  lemma {:induction false} BlocksRefine(before: Bytes, blocks: seq<Block>, w: Bytes)
    requires WellFormedBlocks(blocks) && |w| == 8
    ensures Refines(before + SerializeBlocks(blocks), |before|, before, blocks, w)
    decreases |blocks|
  {
    hide SerializeBlock, Splice, Walkable, Refines, FirstRobot;
    if blocks == [] {
      NothingToRefine(before, w);
    } else {
      var first, rest := blocks[0], blocks[1..];
      assert blocks == [first] + rest;
      if first.kind == ROBOT_POSITION_BLOCK_TYPE {
        RefinesAtBlock(before, first, rest, w);
      } else {
        var after := SerializeBlocks(rest);
        WalkStepsOverBlock(before, first, after);
        assert before + SerializeBlock(first) + after == before + (SerializeBlock(first) + after);
        BlocksRefine(before + SerializeBlock(first), rest, w);
        RefinesPastBlock(before + SerializeBlocks(blocks), before, first, rest, w);
      }
    }
  }

  /**
   Patching refines a functional update of the block list: the first robot block gets the
   new coordinates, every other block and the length of the map stay as they were.
   */
  lemma PatchRefinesBlockUpdate(header: Bytes, blocks: seq<Block>, x: int, y: int)
    requires WellFormedHeader(header) && WellFormedBlocks(blocks) && IsInt32(x) && IsInt32(y)
    ensures var patch := PatchedBytes(header + SerializeBlocks(blocks), x, y);
            match FirstRobot(blocks)
            case None => patch == NotFound
            case Some(i) =>
              var edited := WithPosition(blocks, i, EncodeInt32(x) + EncodeInt32(y));
              && WellFormedBlocks(edited)
              && patch == Patched(header + SerializeBlocks(edited))
              && ReadPosition(patch.bytes) == Some((x, y))
  {
    var raw := header + SerializeBlocks(blocks);
    assert Le16(raw, 2) == |header|;
    BlocksRefine(header, blocks, EncodeInt32(x) + EncodeInt32(y));
    if blocks == [] {
      assert |raw| == |header|;
    } else {
      assert |raw| > |header| by { assert |SerializeBlock(blocks[0])| > 0; }
      if FirstRobot(blocks).Some? {
        ReadAfterPatch(raw, x, y);
      }
    }
  }

  // -- the gzip wrapper -------------------------------------------------------

  /** Decompressing can fail with the error that is caught, or with one that is not (a truncated or corrupt stream). */
  datatype Plain = Plain(bytes: Bytes) | Unreadable | Broken

  /** The compressor the map may have gone through; only its two laws matter here. */
  datatype Gzip = Gzip(compress: Bytes -> Bytes, decompress: Bytes -> Plain) {
    ghost predicate Lawful() {
      forall b: Bytes :: HasMagic(compress(b)) && decompress(compress(b)) == Plain(b)
    }
  }

  predicate HasMagic(raw: Bytes)
  {
    |raw| >= 2 && raw[0] == 0x1f && raw[1] == 0x8b
  }

  function Unwrap(gz: Gzip, raw: Bytes): Plain
  {
    if HasMagic(raw) then gz.decompress(raw) else Plain(raw)
  }

  function PatchWrapped(gz: Gzip, raw: Bytes, x: int, y: int): Patch
  {
    match Unwrap(gz, raw)
    case Unreadable => NotFound
    case Broken => Corrupt
    case Plain(plain) =>
      var patch := PatchedBytes(plain, x, y);
      if patch.Patched? && HasMagic(raw) then Patched(gz.compress(patch.bytes)) else patch
  }

  function ReadWrapped(gz: Gzip, raw: Bytes): Option<(int, int)>
  {
    match Unwrap(gz, raw)
    case Plain(plain) => ReadPosition(plain)
    case _ => None
  }

  /** A robot block whose header keeps its data clear of the fields the walk reads. */
  predicate Patchable(gz: Gzip, raw: Bytes)
  {
    match Unwrap(gz, raw)
    case Plain(plain) => RobotBlock(plain).Some? && HeaderLength(plain, RobotBlock(plain).value) >= 8
    case _ => false
  }

  /** The round trip survives the wrapper; a plain map cannot turn into one that looks compressed. */
  lemma ReadAfterPatchWrapped(gz: Gzip, raw: Bytes, x: int, y: int)
    requires gz.Lawful() && Patchable(gz, raw) && IsInt32(x) && IsInt32(y)
    ensures PatchWrapped(gz, raw, x, y).Patched?
    ensures ReadWrapped(gz, PatchWrapped(gz, raw, x, y).bytes) == Some((x, y))
  {
    var plain := Unwrap(gz, raw).bytes;
    ReadAfterPatch(plain, x, y);
    var bytes := PatchedBytes(plain, x, y).bytes;
    if HasMagic(raw) {
      assert Unwrap(gz, gz.compress(bytes)) == Plain(bytes);
    } else {
      assert bytes[0] == raw[0] && bytes[1] == raw[1];
    }
  }

  // -- choosing and drawing the position --------------------------------------

  datatype Resolved = Resolved(x: Option<real>, y: Option<real>, trusted: bool, fromDock: bool)

  /** The position the image should show, or None when the image already in hand is right. */
  function RenderPosition(drawn: Option<(real, real)>, at: Resolved): Option<(int, int)>
  {
    if !at.trusted || at.x.None? || at.y.None? then None
    else
      var target := (Truncate(at.x.value), Truncate(at.y.value));
      if drawn.None? then Some(target)
      else if !at.fromDock then None
      else if Within(drawn.value.0, drawn.value.1, at.x.value, at.y.value, SAME_POSITION_TOLERANCE) then None
      else Some(target)
  }

  lemma SquareBelowOne(d: real)
    requires -1.0 < d < 1.0
    ensures d * d <= 1.0
  {
    if d >= 0.0 {
      assert d * d <= d * 1.0;
    } else {
      assert (-d) * (-d) <= (-d) * 1.0;
    }
  }

  /** One redraw settles it: a marker drawn at the chosen position asks for no further redraw. */
  lemma RedrawSettles(drawn: Option<(real, real)>, at: Resolved)
    requires RenderPosition(drawn, at).Some?
    ensures var (x, y) := RenderPosition(drawn, at).value;
            RenderPosition(Some((x as real, y as real)), at) == None
  {
    var (x, y) := RenderPosition(drawn, at).value;
    SquareBelowOne(x as real - at.x.value);
    SquareBelowOne(y as real - at.y.value);
  }

  datatype Redraw = Image(png: Bytes) | Keep | Raised

  /** `parse` turns map bytes into image bytes, or fails. */
  function Rerender(gz: Gzip, raw: Option<Bytes>, drawn: Option<(real, real)>, at: Resolved,
                    parse: Bytes -> Option<Bytes>): Redraw
  {
    var target := RenderPosition(drawn, at);
    if target.None? || raw.None? then Keep
    else
      match PatchWrapped(gz, raw.value, target.value.0, target.value.1)
      case NotFound => Keep
      case Overflow => Raised
      case Corrupt => Raised
      case Patched(bytes) =>
        if Unwrap(gz, bytes).Broken? then Raised
        else if ReadWrapped(gz, bytes) != target then Keep
        else
          var png := parse(bytes);
          if png.None? || png.value == [] then Keep else Image(png.value)
  }

  /** Whatever the bytes are, a served image was parsed from the patched map, and that reads back as the target. */
  lemma ServedImageShowsTarget(gz: Gzip, raw: Option<Bytes>, drawn: Option<(real, real)>, at: Resolved,
                               parse: Bytes -> Option<Bytes>)
    requires Rerender(gz, raw, drawn, at, parse).Image?
    ensures raw.Some? && RenderPosition(drawn, at).Some?
    ensures var target := RenderPosition(drawn, at).value;
            var patch := PatchWrapped(gz, raw.value, target.0, target.1);
            && patch.Patched?
            && ReadWrapped(gz, patch.bytes) == Some(target)
            && parse(patch.bytes) == Some(Rerender(gz, raw, drawn, at, parse).png)
  {
  }

  /** On a patchable map the read-back check never rejects: the image is served exactly when parsing gives one. */
  lemma PatchableMapIsServed(gz: Gzip, raw: Bytes, drawn: Option<(real, real)>, at: Resolved,
                             parse: Bytes -> Option<Bytes>)
    requires gz.Lawful() && Patchable(gz, raw)
    requires RenderPosition(drawn, at).Some?
    requires IsInt32(RenderPosition(drawn, at).value.0) && IsInt32(RenderPosition(drawn, at).value.1)
    ensures var target := RenderPosition(drawn, at).value;
            var png := parse(PatchWrapped(gz, raw, target.0, target.1).bytes);
            Rerender(gz, Some(raw), drawn, at, parse)
            == if png.Some? && png.value != [] then Image(png.value) else Keep
  {
    var target := RenderPosition(drawn, at).value;
    ReadAfterPatchWrapped(gz, raw, target.0, target.1);
  }

  /**
   The redraw is meant to keep the old image on every failure. It does, except that a map which breaks
   the decompressor raises, and so does a target outside four signed bytes once a robot block is found.
   */
  lemma RedrawRaisesExactlyWhen(gz: Gzip, raw: Option<Bytes>, drawn: Option<(real, real)>, at: Resolved,
                                parse: Bytes -> Option<Bytes>)
    requires gz.Lawful()
    ensures Rerender(gz, raw, drawn, at, parse) == Raised
            <==> && RenderPosition(drawn, at).Some? && raw.Some?
                 && match Unwrap(gz, raw.value)
                    case Unreadable => false
                    case Broken => true
                    case Plain(plain) =>
                      && RobotBlock(plain).Some?
                      && !(IsInt32(RenderPosition(drawn, at).value.0) && IsInt32(RenderPosition(drawn, at).value.1))
  {
    if RenderPosition(drawn, at).Some? && raw.Some?
       && PatchWrapped(gz, raw.value, RenderPosition(drawn, at).value.0, RenderPosition(drawn, at).value.1).Patched? {
      PatchedUnwraps(gz, raw.value, RenderPosition(drawn, at).value.0, RenderPosition(drawn, at).value.1);
    }
  }

  /** It does raise: a docked robot whose charger is drawn beyond four signed bytes, on a small plain map. */
  lemma RedrawCanRaise(gz: Gzip, parse: Bytes -> Option<Bytes>)
    ensures var raw: Bytes := [0, 0, 4, 0] + [8, 0, 8, 0, 8, 0, 0, 0] + [0, 0, 0, 0, 0, 0, 0, 0];
            var at := Resolved(Some(TWO_31 as real), Some(0.0), true, true);
            Rerender(gz, Some(raw), None, at, parse) == Raised
  {
    var raw: Bytes := [0, 0, 4, 0] + [8, 0, 8, 0, 8, 0, 0, 0] + [0, 0, 0, 0, 0, 0, 0, 0];
    assert RobotBlock(raw) == Some(4);
  }

  /** What a patch wraps again can be unwrapped again. */
  lemma PatchedUnwraps(gz: Gzip, raw: Bytes, x: int, y: int)
    requires gz.Lawful() && PatchWrapped(gz, raw, x, y).Patched?
    ensures Unwrap(gz, PatchWrapped(gz, raw, x, y).bytes).Plain?
  {
    var bytes := PatchedBytes(Unwrap(gz, raw).bytes, x, y).bytes;
    if HasMagic(raw) {
      assert HasMagic(gz.compress(bytes)) && gz.decompress(gz.compress(bytes)) == Plain(bytes);
    } else {
      assert bytes[0] == raw[0] && bytes[1] == raw[1];
    }
  }

  /** A redraw is asked for exactly when a trusted place is known and nothing is drawn, or a dock is drawn far off. */
  lemma RedrawExactly(drawn: Option<(real, real)>, at: Resolved)
    ensures RenderPosition(drawn, at).Some?
            <==> && at.trusted && at.x.Some? && at.y.Some?
                 && (|| drawn.None?
                     || (at.fromDock && !Within(drawn.value.0, drawn.value.1, at.x.value, at.y.value, 50.0)))
    ensures RenderPosition(drawn, at).Some? ==>
              RenderPosition(drawn, at).value == (Truncate(at.x.value), Truncate(at.y.value))
  {
  }

  // -- maps that are cut off or not understood --------------------------------

  /** The bytes cannot be walked: no whole header, a header or data length out of bounds, or data that is cut off. */
  predicate NotABlock(rest: Bytes)
  {
    || |rest| < 8
    || rest[2] as int + 0x100 * (rest[3] as int) == 0
    || rest[2] as int + 0x100 * (rest[3] as int) > 255
    || rest[4..8] == [0, 0, 0, 0]
    || Le16(rest, 2) + Le32(rest, 4) > |rest|
  }

  lemma NotWalkable(before: Bytes, rest: Bytes)
    requires NotABlock(rest)
    ensures WalkFrom(before + rest, |before|) == None
  {
    var raw := before + rest;
    if |rest| >= 8 {
      assert forall k :: 0 <= k < |rest| ==> raw[|before| + k] == rest[k];
      assert Le16(raw, |before| + 2) == Le16(rest, 2) && Le32(raw, |before| + 4) == Le32(rest, 4);
      if rest[4..8] == [0, 0, 0, 0] {
        assert rest[4] == rest[4..8][0] && rest[5] == rest[4..8][1];
        assert rest[6] == rest[4..8][2] && rest[7] == rest[4..8][3];
      }
    }
  }

  lemma Regrouped(a: Bytes, b: Bytes, c: Bytes)
    ensures a + b + c == a + (b + c)
  {
  }

  lemma {:induction false} WalkEndsAtRest(before: Bytes, blocks: seq<Block>, rest: Bytes)
    requires WellFormedBlocks(blocks) && NotABlock(rest)
    requires forall b :: b in blocks ==> b.kind != ROBOT_POSITION_BLOCK_TYPE
    ensures WalkFrom(before + (SerializeBlocks(blocks) + rest), |before|) == None
    decreases |blocks|
  {
    hide SerializeBlock, Walkable, WalkFrom, NotABlock;
    if blocks == [] {
      NotWalkable(before, rest);
      assert SerializeBlocks(blocks) + rest == rest;
    } else {
      var first, others := blocks[0], blocks[1..];
      var after := SerializeBlocks(others) + rest;
      WalkStepsOverBlock(before, first, after);
      WalkEndsAtRest(before + SerializeBlock(first), others, rest);
      Regrouped(SerializeBlock(first), SerializeBlocks(others), rest);
      Regrouped(before, SerializeBlock(first), after);
    }
  }

  /** A map whose blocks give way to something else before a robot block is left alone, however it goes on. */
  lemma BrokenMapIsLeftAlone(header: Bytes, blocks: seq<Block>, rest: Bytes, x: int, y: int)
    requires WellFormedHeader(header) && WellFormedBlocks(blocks) && NotABlock(rest)
    requires forall b :: b in blocks ==> b.kind != ROBOT_POSITION_BLOCK_TYPE
    ensures PatchedBytes(header + (SerializeBlocks(blocks) + rest), x, y) == NotFound
  {
    hide SerializeBlocks, WalkFrom, NotABlock;
    var raw := header + (SerializeBlocks(blocks) + rest);
    WalkEndsAtRest(header, blocks, rest);
    assert Le16(raw, 2) == |header|;
  }

  /** So is one whose own header is cut off, gives no length, or reaches to the end. */
  lemma MapWithoutBodyIsLeftAlone(raw: Bytes, x: int, y: int)
    requires |raw| >= 4 ==>
               var length := raw[2] as int + 0x100 * (raw[3] as int);
               length == 0 || length >= |raw|
    ensures PatchedBytes(raw, x, y) == NotFound
  {
  }
}
