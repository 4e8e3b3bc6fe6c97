/** Length-prefixed frames as written for recovery, and the scans that find them again: a
    frame is an 8-byte little-endian size, counting itself, followed by the payload. */
module WalFrames {
  import opened Types

  const HEADER: nat := 8
  const MAX_FRAME: nat := 64 * 1024 * 1024

  // ---------------------------------------------------------------------------
  // Little-endian integers
  // ---------------------------------------------------------------------------

  function ToLe(n: nat, width: nat): (b: Bytes)
    ensures |b| == width
  {
    if width == 0 then [] else [n % 256] + ToLe(n / 256, width - 1)
  }

  function FromLe(b: Bytes): nat {
    if b == [] then 0 else b[0] + 256 * FromLe(b[1..])
  }

  function Limit(width: nat): nat {
    if width == 0 then 1 else 256 * Limit(width - 1)
  }

  lemma {:induction false} FromToLe(n: nat, width: nat)
    requires n < Limit(width)
    ensures FromLe(ToLe(n, width)) == n
  {
    if width > 0 {
      FromToLe(n / 256, width - 1);
      assert ToLe(n, width)[1..] == ToLe(n / 256, width - 1);
    }
  }

  lemma LowByte(low: byte, high: nat)
    ensures (low + 256 * high) % 256 == low && (low + 256 * high) / 256 == high
  {
  }

  lemma {:induction false} ToFromLe(b: Bytes)
    ensures ToLe(FromLe(b), |b|) == b
  {
    if b != [] {
      ToFromLe(b[1..]);
      LowByte(b[0], FromLe(b[1..]));
      assert b == [b[0]] + b[1..];
    }
  }

  lemma LimitOfU64()
    ensures Limit(8) == 0x1_0000_0000_0000_0000
  {
  }

  // ---------------------------------------------------------------------------
  // Writing and reading, as functions
  // ---------------------------------------------------------------------------

  function Frame(payload: Bytes): (b: Bytes)
    ensures |b| == HEADER + |payload|
  {
    ToLe(HEADER + |payload|, HEADER) + payload
  }

  function Encode(payloads: seq<Bytes>): Bytes {
    if payloads == [] then [] else Frame(payloads[0]) + Encode(payloads[1..])
  }

  /** A complete frame of admissible size stands at the head of the buffer. */
  predicate Complete(buffer: Bytes) {
    |buffer| >= HEADER && HEADER <= FromLe(buffer[..HEADER]) <= MAX_FRAME && FromLe(buffer[..HEADER]) <= |buffer|
  }

  /** The sizes of the frames from the head of the buffer to the first defect. */
  function Frames(buffer: Bytes): seq<nat>
    decreases |buffer|
  {
    if Complete(buffer) then
      var size := FromLe(buffer[..HEADER]);
      [size] + Frames(buffer[size..])
    else []
  }

  function Total(sizes: seq<nat>): nat {
    if sizes == [] then 0 else sizes[0] + Total(sizes[1..])
  }

  datatype Segment = Segment(startOffset: nat, endOffset: nat, fileOffset: nat, sizeBytes: nat)

  /** Consecutive logical offsets and adjacent file ranges for frames of these sizes. */
  function Segments(fileStart: nat, logicalStart: nat, sizes: seq<nat>): seq<Segment>
    decreases |sizes|
  {
    if sizes == [] then []
    else [Segment(logicalStart, logicalStart + 1, fileStart, sizes[0])]
         + Segments(fileStart + sizes[0], logicalStart + 1, sizes[1..])
  }

  lemma {:induction false} TotalSnoc(sizes: seq<nat>, size: nat)
    ensures Total(sizes + [size]) == Total(sizes) + size
    decreases |sizes|
  {
    if sizes == [] {
      assert sizes + [size] == [size] && [size][1..] == [];
    } else {
      TotalSnoc(sizes[1..], size);
      assert (sizes + [size])[1..] == sizes[1..] + [size];
    }
  }

  lemma {:induction false} SegmentsSnoc(fileStart: nat, logicalStart: nat, sizes: seq<nat>, size: nat)
    ensures |Segments(fileStart, logicalStart, sizes)| == |sizes|
    ensures Segments(fileStart, logicalStart, sizes + [size]) ==
            Segments(fileStart, logicalStart, sizes)
            + [Segment(logicalStart + |sizes|, logicalStart + |sizes| + 1, fileStart + Total(sizes), size)]
    decreases |sizes|
  {
    if sizes == [] {
      assert sizes + [size] == [size];
      assert [size][1..] == [];
    } else {
      SegmentsSnoc(fileStart + sizes[0], logicalStart + 1, sizes[1..], size);
      assert (sizes + [size])[1..] == sizes[1..] + [size];
      assert Segments(fileStart, logicalStart, sizes + [size])
          == [Segment(logicalStart, logicalStart + 1, fileStart, sizes[0])]
             + Segments(fileStart + sizes[0], logicalStart + 1, sizes[1..] + [size]);
    }
  }

  /** A complete frame of this size begins at `pos`. */
  ghost predicate FrameAt(buffer: Bytes, pos: nat, size: nat) {
    pos <= |buffer| && Complete(buffer[pos..]) && size == FromLe(buffer[pos..][..HEADER])
  }

  /** The frames cut the buffer at these sizes from its start, every size is the one in
      its header, and what follows is no complete admissible frame. */
  ghost predicate IsScan(buffer: Bytes, sizes: seq<nat>) {
    && Total(sizes) <= |buffer|
    && (forall i :: 0 <= i < |sizes| ==> FrameAt(buffer, Total(sizes[..i]), sizes[i]))
    && !Complete(buffer[Total(sizes)..])
  }

  lemma FrameAtShifts(buffer: Bytes, skip: nat, pos: nat, size: nat)
    requires skip <= |buffer|
    ensures FrameAt(buffer[skip..], pos, size) <==> FrameAt(buffer, skip + pos, size)
  {
  }

  lemma AllShift(buffer: Bytes, rest: Bytes, sizes: seq<nat>)
    requires sizes != [] && FrameAt(buffer, Total(sizes[..0]), sizes[0])
    requires forall i :: 0 <= i < |sizes| - 1 ==>
               (FrameAt(rest, Total(sizes[1..][..i]), sizes[1..][i])
                <==> FrameAt(buffer, Total(sizes[..i + 1]), sizes[i + 1]))
    ensures (forall i :: 0 <= i < |sizes| ==> FrameAt(buffer, Total(sizes[..i]), sizes[i]))
       <==> (forall i :: 0 <= i < |sizes| - 1 ==> FrameAt(rest, Total(sizes[1..][..i]), sizes[1..][i]))
  {
    if forall i :: 0 <= i < |sizes| - 1 ==> FrameAt(rest, Total(sizes[1..][..i]), sizes[1..][i]) {
      forall i | 0 <= i < |sizes| ensures FrameAt(buffer, Total(sizes[..i]), sizes[i]) {
        if i > 0 {
          assert FrameAt(rest, Total(sizes[1..][..i - 1]), sizes[1..][i - 1]);
          assert i - 1 + 1 == i;
        }
      }
    }
    if forall i :: 0 <= i < |sizes| ==> FrameAt(buffer, Total(sizes[..i]), sizes[i]) {
      forall i | 0 <= i < |sizes| - 1 ensures FrameAt(rest, Total(sizes[1..][..i]), sizes[1..][i]) {
        assert FrameAt(buffer, Total(sizes[..i + 1]), sizes[i + 1]);
      }
    }
  }

  lemma TotalTail(sizes: seq<nat>, i: nat)
    requires i < |sizes|
    ensures Total(sizes[..i + 1]) == sizes[0] + Total(sizes[1..][..i])
  {
    assert sizes[..i + 1][1..] == sizes[1..][..i];
  }

  lemma ScanTail(buffer: Bytes, sizes: seq<nat>)
    requires Complete(buffer) && sizes != [] && sizes[0] == FromLe(buffer[..HEADER])
    ensures IsScan(buffer, sizes) <==> IsScan(buffer[sizes[0]..], sizes[1..])
  {
    var size, rest, tail := sizes[0], buffer[sizes[0]..], sizes[1..];
    forall i | 0 <= i < |tail|
      ensures FrameAt(rest, Total(tail[..i]), tail[i]) <==> FrameAt(buffer, Total(sizes[..i + 1]), sizes[i + 1])
    {
      TotalTail(sizes, i);
      FrameAtShifts(buffer, size, Total(tail[..i]), tail[i]);
    }
    assert FrameAt(buffer, Total(sizes[..0]), sizes[0]) by {
      assert sizes[..0] == [] && buffer[0..] == buffer;
    }
    if Total(sizes) <= |buffer| {
      assert rest[Total(tail)..] == buffer[Total(sizes)..];
    }
    AllShift(buffer, rest, sizes);
  }

  /** Exactly one list of sizes is a scan of a given buffer. */
  lemma {:induction false} FramesIsTheScan(buffer: Bytes, sizes: seq<nat>)
    ensures IsScan(buffer, sizes) <==> sizes == Frames(buffer)
    decreases |buffer|
  {
    assert buffer[0..] == buffer;
    if Complete(buffer) {
      var size := FromLe(buffer[..HEADER]);
      if sizes == [] {
        assert !IsScan(buffer, sizes);
      } else {
        if IsScan(buffer, sizes) {
          assert sizes[..0] == [];
          assert FrameAt(buffer, Total(sizes[..0]), sizes[0]);
        }
        if sizes[0] == size {
          ScanTail(buffer, sizes);
          FramesIsTheScan(buffer[size..], sizes[1..]);
        }
      }
    } else if sizes != [] {
      assert sizes[..0] == [];
      assert !FrameAt(buffer, Total(sizes[..0]), sizes[0]);
    }
  }

  // ---------------------------------------------------------------------------
  // The three scanning loops
  // ---------------------------------------------------------------------------

  lemma DropTwice(buffer: Bytes, pos: nat, size: nat)
    requires pos + size <= |buffer|
    ensures buffer[pos..][size..] == buffer[pos + size..]
  {
  }

  lemma ConcatAssoc(done: seq<nat>, size: nat, rest: seq<nat>)
    ensures done + ([size] + rest) == done + [size] + rest
  {
  }

  /** The frames before `pos` are done. */
  ghost predicate Scanned(buffer: Bytes, pos: nat, done: seq<nat>) {
    pos <= |buffer| && pos == Total(done) && Frames(buffer) == done + Frames(buffer[pos..])
  }

  lemma ScanBegins(buffer: Bytes)
    ensures Scanned(buffer, 0, [])
  {
    assert buffer[0..] == buffer;
  }

  lemma ScanEnds(buffer: Bytes, pos: nat, done: seq<nat>)
    requires Scanned(buffer, pos, done) && !Complete(buffer[pos..])
    ensures Frames(buffer) == done
  {
    assert done + [] == done;
  }

  lemma NextFrame(buffer: Bytes, size: nat)
    requires Complete(buffer) && FromLe(buffer[..HEADER]) == size
    ensures Frames(buffer) == [size] + Frames(buffer[size..])
  {
  }

  /** One more frame was found at `pos`. */
  lemma ScanOneMore(buffer: Bytes, pos: nat, done: seq<nat>)
    requires Scanned(buffer, pos, done) && Complete(buffer[pos..])
    ensures var size := FromLe(buffer[pos..][..HEADER]); Scanned(buffer, pos + size, done + [size])
  {
    var size := FromLe(buffer[pos..][..HEADER]);
    DropTwice(buffer, pos, size);
    NextFrame(buffer[pos..], size);
    TotalSnoc(done, size);
    ConcatAssoc(done, size, Frames(buffer[pos + size..]));
  }

  /** What is read from the first eight bytes of a buffer is a number if and only if these
      bytes are what is written for it. */
  lemma SizeReadIffWritten(buffer: Bytes, n: nat)
    requires |buffer| >= HEADER && n < Limit(HEADER)
    ensures FromLe(buffer[..HEADER]) == n <==> buffer[..HEADER] == ToLe(n, HEADER)
  {
    ToFromLe(buffer[..HEADER]);
    FromToLe(n, HEADER);
  }

  method ReadRecordSize(buffer: Bytes) returns (r: Option<nat>)
    ensures r == if |buffer| < HEADER then None else Some(FromLe(buffer[..HEADER]))
  {
    if |buffer| < HEADER {
      return None;
    }
    return Some(FromLe(buffer[..HEADER]));
  }

  /** `parse_records_branched` */
  method ParseRecordsBranched(buffer: Bytes, fileStart: nat, logicalStart: nat) returns (segments: seq<Segment>)
    ensures segments == Segments(fileStart, logicalStart, Frames(buffer))
  {
    segments := [];
    var pos := 0;
    var logical := logicalStart;
    ghost var done: seq<nat> := [];
    ScanBegins(buffer);
    while pos < |buffer|
      invariant Scanned(buffer, pos, done) && logical == logicalStart + |done|
      invariant segments == Segments(fileStart, logicalStart, done)
      decreases |buffer| - pos
    {
      if pos + HEADER > |buffer| {
        break;
      }
      var size := ReadRecordSize(buffer[pos..]);
      if size.None? {
        break;
      }
      if size.value < HEADER || size.value > MAX_FRAME {
        break;
      }
      if pos + size.value > |buffer| {
        break;
      }
      ScanOneMore(buffer, pos, done);
      SegmentsSnoc(fileStart, logicalStart, done, size.value);
      segments := segments + [Segment(logical, logical + 1, fileStart + pos, size.value)];
      logical := logical + 1;
      pos := pos + size.value;
      done := done + [size.value];
    }
    ScanEnds(buffer, pos, done);
  }

  /** `traditional_parsing` of the second benchmark counts the same frames. */
  method CountFrames(buffer: Bytes) returns (count: nat)
    ensures count == |Frames(buffer)|
  {
    count := 0;
    var pos := 0;
    ghost var done: seq<nat> := [];
    ScanBegins(buffer);
    while pos + HEADER <= |buffer|
      invariant Scanned(buffer, pos, done) && count == |done|
      decreases |buffer| - pos
    {
      assert buffer[pos..pos + HEADER] == buffer[pos..][..HEADER];
      var size := FromLe(buffer[pos..pos + HEADER]);
      if size < HEADER || size > MAX_FRAME {
        break;
      }
      if pos + size > |buffer| {
        break;
      }
      ScanOneMore(buffer, pos, done);
      count := count + 1;
      pos := pos + size;
      done := done + [size];
    }
    ScanEnds(buffer, pos, done);
  }

  /** The size of an admissible frame that fits, and 0 for any other. */
  method EffectiveSize(size: nat, remaining: nat) returns (effective: nat)
    ensures effective == if HEADER <= size <= MAX_FRAME && size <= remaining then size else 0
  {
    var sizeValid := Bit(size >= HEADER) * Bit(size <= MAX_FRAME);
    var sizeFits := Bit(size <= remaining);
    effective := size * sizeValid * sizeFits;
  }

  /** `parse_batch_scalar_branchless`: the checks are multiplied instead of branched on. */
  method ParseBatchBranchless(buffer: Bytes, fileStart: nat, logicalStart: nat) returns (segments: seq<Segment>)
    ensures segments == Segments(fileStart, logicalStart, Frames(buffer))
  {
    segments := [];
    var pos := 0;
    var logical := logicalStart;
    ghost var done: seq<nat> := [];
    ScanBegins(buffer);
    while pos + HEADER <= |buffer|
      invariant Scanned(buffer, pos, done) && logical == logicalStart + |done|
      invariant segments == Segments(fileStart, logicalStart, done)
      decreases |buffer| - pos
    {
      assert buffer[pos..pos + HEADER] == buffer[pos..][..HEADER];
      var size := FromLe(buffer[pos..pos + HEADER]);
      var effective := EffectiveSize(size, |buffer| - pos);
      if effective > 0 {
        ScanOneMore(buffer, pos, done);
        SegmentsSnoc(fileStart, logicalStart, done, size);
        segments := segments + [Segment(logical, logical + 1, fileStart + pos, effective)];
        logical := logical + 1;
        pos := pos + effective;
        done := done + [size];
      } else {
        break;
      }
    }
    ScanEnds(buffer, pos, done);
  }

  // ---------------------------------------------------------------------------
  // Round trips
  // ---------------------------------------------------------------------------

  function Sizes(payloads: seq<Bytes>): seq<nat> {
    seq(|payloads|, i requires 0 <= i < |payloads| => HEADER + |payloads[i]|)
  }

  ghost predicate Admissible(payloads: seq<Bytes>) {
    forall i :: 0 <= i < |payloads| ==> HEADER + |payloads[i]| <= MAX_FRAME
  }

  lemma FrameIsComplete(payload: Bytes, rest: Bytes)
    requires HEADER + |payload| <= MAX_FRAME
    ensures var buffer := Frame(payload) + rest;
            Complete(buffer) && FromLe(buffer[..HEADER]) == |Frame(payload)| && buffer[|Frame(payload)|..] == rest
  {
    LimitOfU64();
    FromToLe(HEADER + |payload|, HEADER);
    assert (Frame(payload) + rest)[..HEADER] == ToLe(HEADER + |payload|, HEADER);
  }

  lemma FrameFirst(payload: Bytes, rest: Bytes)
    requires HEADER + |payload| <= MAX_FRAME
    ensures Frames(Frame(payload) + rest) == [HEADER + |payload|] + Frames(rest)
  {
    FrameIsComplete(payload, rest);
    NextFrame(Frame(payload) + rest, HEADER + |payload|);
  }

  lemma SizesFirst(payloads: seq<Bytes>)
    requires payloads != []
    ensures Sizes(payloads) == [HEADER + |payloads[0]|] + Sizes(payloads[1..])
  {
  }

  /** Frames written before anything else are found, whatever follows. */
  lemma {:induction false} ScanFindsWritten(payloads: seq<Bytes>, rest: Bytes)
    requires Admissible(payloads)
    ensures Frames(Encode(payloads) + rest) == Sizes(payloads) + Frames(rest)
    decreases |payloads|
  {
    if payloads == [] {
      assert Encode(payloads) + rest == rest;
      assert Sizes(payloads) == [];
    } else {
      var more := Encode(payloads[1..]) + rest;
      assert Encode(payloads) + rest == Frame(payloads[0]) + more;
      FrameFirst(payloads[0], more);
      ScanFindsWritten(payloads[1..], rest);
      SizesFirst(payloads);
    }
  }

  /** The bytes a segment points at, without the header. */
  function PayloadAt(buffer: Bytes, s: Segment): Bytes {
    if HEADER <= s.sizeBytes && s.fileOffset + s.sizeBytes <= |buffer|
    then buffer[s.fileOffset + HEADER..s.fileOffset + s.sizeBytes] else []
  }

  lemma FirstPayload(before: Bytes, payload: Bytes, rest: Bytes)
    ensures (before + Frame(payload) + rest)[|before| + HEADER..|before| + |Frame(payload)|] == payload
  {
  }

  lemma {:induction false} SegmentsPointAtPayloads(before: Bytes, payloads: seq<Bytes>, logical: nat, i: nat)
    requires i < |payloads|
    ensures var segments := Segments(|before|, logical, Sizes(payloads));
            && |segments| == |payloads|
            && segments[i].startOffset == logical + i
            && PayloadAt(before + Encode(payloads), segments[i]) == payloads[i]
    decreases |payloads|
  {
    var sizes := Sizes(payloads);
    SegmentsSnoc(|before|, logical, sizes, 0);
    assert sizes[1..] == Sizes(payloads[1..]);
    var first := Frame(payloads[0]);
    assert before + Encode(payloads) == before + first + Encode(payloads[1..]);
    if i == 0 {
      FirstPayload(before, payloads[0], Encode(payloads[1..]));
    } else {
      SegmentsPointAtPayloads(before + first, payloads[1..], logical + 1, i - 1);
      assert |before + first| == |before| + sizes[0];
    }
  }

  lemma {:induction false} SegmentEnd(fileStart: nat, logicalStart: nat, sizes: seq<nat>, i: nat)
    requires i < |sizes|
    ensures |Segments(fileStart, logicalStart, sizes)| == |sizes|
    ensures Segments(fileStart, logicalStart, sizes)[i].endOffset == logicalStart + i + 1
    decreases |sizes|
  {
    SegmentsSnoc(fileStart, logicalStart, sizes, 0);
    if i > 0 {
      SegmentEnd(fileStart + sizes[0], logicalStart + 1, sizes[1..], i - 1);
    }
  }

  /** Scanning what was written gives one segment per payload, in order, with consecutive
      logical offsets, each pointing at exactly its payload. */
  lemma ScanOfEncode(payloads: seq<Bytes>, logicalStart: nat, i: nat)
    requires Admissible(payloads) && i < |payloads|
    ensures var segments := Segments(0, logicalStart, Frames(Encode(payloads)));
            && |segments| == |payloads|
            && segments[i].startOffset == logicalStart + i && segments[i].endOffset == logicalStart + i + 1
            && PayloadAt(Encode(payloads), segments[i]) == payloads[i]
  {
    ScanFindsWritten(payloads, []);
    assert Encode(payloads) + [] == Encode(payloads) && Sizes(payloads) + Frames([]) == Sizes(payloads);
    SegmentsPointAtPayloads([], payloads, logicalStart, i);
    assert [] + Encode(payloads) == Encode(payloads);
    SegmentEnd(0, logicalStart, Sizes(payloads), i);
  }

  /** How many of the frames lie wholly within the first `cut` bytes. */
  function Whole(payloads: seq<Bytes>, cut: nat): nat {
    if payloads == [] || HEADER + |payloads[0]| > cut then 0
    else 1 + Whole(payloads[1..], cut - HEADER - |payloads[0]|)
  }

  lemma {:induction false} WholeIsMaximal(payloads: seq<Bytes>, cut: nat)
    ensures Whole(payloads, cut) <= |payloads|
    ensures |Encode(payloads[..Whole(payloads, cut)])| <= cut
    ensures Whole(payloads, cut) < |payloads| ==> cut < |Encode(payloads[..Whole(payloads, cut) + 1])|
    decreases |payloads|
  {
    if payloads != [] {
      var rest := payloads[1..];
      assert payloads[..1][1..] == [];
      if HEADER + |payloads[0]| <= cut {
        var k := Whole(rest, cut - HEADER - |payloads[0]|);
        WholeIsMaximal(rest, cut - HEADER - |payloads[0]|);
        assert payloads[..k + 1][1..] == rest[..k];
        if k < |rest| {
          assert payloads[..k + 2][1..] == rest[..k + 1];
        }
      }
    }
  }

  /** A proper prefix of a frame is not a frame. */
  lemma CutFrameIsIncomplete(payload: Bytes, cut: nat)
    requires HEADER + |payload| <= MAX_FRAME && cut < |Frame(payload)|
    ensures !Complete(Frame(payload)[..cut])
  {
    if cut >= HEADER {
      LimitOfU64();
      FromToLe(HEADER + |payload|, HEADER);
      assert Frame(payload)[..cut][..HEADER] == ToLe(HEADER + |payload|, HEADER);
    }
  }

  lemma CutOfConcat(first: Bytes, rest: Bytes, cut: nat)
    requires cut <= |first| + |rest|
    ensures (first + rest)[..cut] == if cut < |first| then first[..cut] else first + rest[..cut - |first|]
  {
  }

  /** A cut behind the first frame leaves that one and what the cut leaves of the others. */
  lemma CutBehindFirst(payloads: seq<Bytes>, cut: nat, k: nat)
    requires Admissible(payloads) && payloads != [] && |Frame(payloads[0])| <= cut <= |Encode(payloads)|
    requires k < |payloads|
    requires Frames(Encode(payloads[1..])[..cut - |Frame(payloads[0])|]) == Sizes(payloads[1..][..k])
    ensures Frames(Encode(payloads)[..cut]) == Sizes(payloads[..k + 1])
  {
    var first, rest := Frame(payloads[0]), Encode(payloads[1..]);
    CutOfConcat(first, rest, cut);
    FrameFirst(payloads[0], rest[..cut - |first|]);
    SizesFirst(payloads[..k + 1]);
    assert payloads[..k + 1][1..] == payloads[1..][..k];
  }

  /** Cutting off what was written anywhere, as a crash does, loses exactly the frames
      that do not lie wholly before the cut. */
  lemma {:induction false} ScanOfTruncation(payloads: seq<Bytes>, cut: nat)
    requires Admissible(payloads) && cut <= |Encode(payloads)|
    ensures Whole(payloads, cut) <= |payloads|
    ensures Frames(Encode(payloads)[..cut]) == Sizes(payloads[..Whole(payloads, cut)])
    decreases |payloads|
  {
    WholeIsMaximal(payloads, cut);
    if payloads == [] {
      assert Encode(payloads)[..cut] == [];
      assert Sizes(payloads[..0]) == [];
    } else if |Frame(payloads[0])| > cut {
      CutOfConcat(Frame(payloads[0]), Encode(payloads[1..]), cut);
      CutFrameIsIncomplete(payloads[0], cut);
      assert Sizes(payloads[..0]) == [];
    } else {
      var less := cut - |Frame(payloads[0])|;
      ScanOfTruncation(payloads[1..], less);
      CutBehindFirst(payloads, cut, Whole(payloads[1..], less));
    }
  }

  lemma {:induction false} EncodeSnoc(payloads: seq<Bytes>, last: Bytes)
    ensures Encode(payloads + [last]) == Encode(payloads) + Frame(last)
    decreases |payloads|
  {
    if payloads == [] {
      assert payloads + [last] == [last];
      assert [last][1..] == [];
    } else {
      EncodeSnoc(payloads[1..], last);
      assert (payloads + [last])[1..] == payloads[1..] + [last];
    }
  }

  /** `generate_test_buffer`: the frames of equal size that the benchmarks scan. */
  method GenerateTestBuffer(records: nat, size: nat) returns (buffer: Bytes)
    requires HEADER <= size
    ensures buffer == Encode(seq(records, i => seq(size - HEADER, _ => i % 256)))
  {
    buffer := [];
    var i := 0;
    ghost var payloads: seq<Bytes> := [];
    while i < records
      invariant 0 <= i <= records
      invariant payloads == seq(i, k => seq(size - HEADER, _ => k % 256))
      invariant buffer == Encode(payloads)
    {
      var data: Bytes := seq(size - HEADER, _ => i % 256);
      EncodeSnoc(payloads, data);
      buffer := buffer + ToLe(size, HEADER);
      buffer := buffer + data;
      assert buffer == Encode(payloads) + Frame(data);
      payloads := payloads + [data];
      i := i + 1;
    }
  }
}
