/** Conversions between the broker's records and their protobuf messages. */
module WireConversion {
  import opened Types

  // --- Machine integers ----------------------------------------------------------

  const TWO_31 := 0x8000_0000
  const TWO_32 := 0x1_0000_0000
  const TWO_63 := 0x8000_0000_0000_0000
  const TWO_64 := 0x1_0000_0000_0000_0000

  type int32 = x: int | -TWO_31 <= x < TWO_31
  type int64 = x: int | -TWO_63 <= x < TWO_63

  /** Two's complement wrap-around to 32 and to 64 bits */
  function WrapTo32(x: int): int32 {
    var r := x % TWO_32;
    if r >= TWO_31 then r - TWO_32 else r
  }

  function WrapTo64(x: int): int64 {
    var r := x % TWO_64;
    if r >= TWO_63 then r - TWO_64 else r
  }

  /** Division that rounds toward zero, and its remainder, which has the sign of `a` */
  function Quotient(a: int, b: int): int
    requires b > 0
  {
    if a >= 0 then a / b else -(-a / b)
  }

  function Remainder(a: int, b: int): int
    requires b > 0
  {
    if a >= 0 then a % b else -(-a % b)
  }

  // --- Timestamps ----------------------------------------------------------------

  datatype Timestamp = Timestamp(seconds: int64, nanos: int32)
  {
    /** The nanoseconds of a google.protobuf.Timestamp count forward in time. */
    predicate WellFormed() {
      0 <= nanos <= 999_999_999
    }
  }

  /** `timestamp_to_proto` */
  function TimestampToProto(millis: int64): Timestamp {
    Timestamp(Quotient(millis, 1000), WrapTo32(WrapTo64(Remainder(millis, 1000) * 1_000_000)))
  }

  /** `timestamp_from_proto` */
  function TimestampFromProto(t: Timestamp): int64 {
    WrapTo64(WrapTo64(t.seconds * 1000) + Quotient(t.nanos, 1_000_000))
  }

  /** No operation wraps around, and nothing is lost. */
  lemma ToProtoIsExact(millis: int64)
    ensures var t := TimestampToProto(millis);
            && t.nanos == Remainder(millis, 1000) * 1_000_000
            && t.seconds * 1000 + Remainder(millis, 1000) == millis
            && -TWO_63 <= t.seconds * 1000 < TWO_63
  {
  }

  lemma NanosToMillis(r: int)
    ensures Quotient(r * 1_000_000, 1_000_000) == r
  {
  }

  lemma NoWrap(x: int)
    requires -TWO_63 <= x < TWO_63
    ensures WrapTo64(x) == x
  {
  }

  /** Every millisecond count comes back, negative ones included. */
  lemma TimestampRoundTrip(millis: int64)
    ensures TimestampFromProto(TimestampToProto(millis)) == millis
  {
    ToProtoIsExact(millis);
    var t := TimestampToProto(millis);
    NanosToMillis(Remainder(millis, 1000));
    NoWrap(t.seconds * 1000);
    NoWrap(millis);
  }

  /** The message is a proper Timestamp exactly when the count is not a negative fraction
      of a second. */
  lemma TimestampWellFormedIff(millis: int64)
    ensures TimestampToProto(millis).WellFormed() <==> millis >= 0 || millis % 1000 == 0
  {
  }

  lemma FromProtoIsExact(t: Timestamp)
    requires t.WellFormed() && -TWO_63 <= t.seconds * 1000 < TWO_63 - 1000
    ensures TimestampFromProto(t) == t.seconds * 1000 + t.nanos / 1_000_000
  {
  }

  /** Splitting milliseconds toward zero gives these seconds and this rest exactly when
      the two do not have opposite signs. */
  lemma SplitIff(seconds: int, rest: int)
    requires 0 <= rest < 1000
    ensures (Quotient(seconds * 1000 + rest, 1000) == seconds && Remainder(seconds * 1000 + rest, 1000) == rest)
            <==> seconds >= 0 || rest == 0
  {
  }

  /** A proper Timestamp survives the opposite trip exactly when it counts whole
      milliseconds and does not combine negative seconds with a fraction. */
  lemma ProtoRoundTripIff(t: Timestamp)
    requires t.WellFormed() && -TWO_63 <= t.seconds * 1000 < TWO_63 - 1000
    ensures TimestampToProto(TimestampFromProto(t)) == t
            <==> t.nanos % 1_000_000 == 0 && (t.seconds >= 0 || t.nanos == 0)
  {
    var rest := t.nanos / 1_000_000;
    FromProtoIsExact(t);
    SplitIff(t.seconds, rest);
    ToProtoIsExact(t.seconds * 1000 + rest);
    assert t.nanos % 1_000_000 == 0 <==> rest * 1_000_000 == t.nanos;
  }

  // --- Records and replication requests --------------------------------------------

  datatype WalRecord = WalRecord(topicPartition: TopicPartition, offset: nat, record: Record, crc32: nat)

  datatype ReplicateDataRequest = ReplicateDataRequest(leaderEpoch: nat, topicPartition: TopicPartition,
                                                       records: seq<WalRecord>, leaderId: string)

  datatype ProtoTopicPartition = ProtoTopicPartition(topic: string, partition: nat)

  datatype ProtoHeader = ProtoHeader(key: string, value: Bytes)

  datatype ProtoRecord = ProtoRecord(key: Bytes, value: Bytes, headers: seq<ProtoHeader>, timestamp: Option<Timestamp>)

  datatype ProtoWalRecord = ProtoWalRecord(topicPartition: Option<ProtoTopicPartition>, offset: nat,
                                           record: Option<ProtoRecord>, crc32: nat, version: nat)

  datatype ProtoRequest = ProtoRequest(leaderEpoch: nat, topicPartition: Option<ProtoTopicPartition>,
                                       records: seq<ProtoWalRecord>, leaderId: string, leaderHighWatermark: nat,
                                       requestId: nat, metadata: Option<Bytes>, batchBaseOffset: nat,
                                       batchRecordCount: nat, batchSizeBytes: nat, compression: int32)

  datatype ConversionError = MissingTopicPartition | MissingRecord

  type Converted<+T> = Result<T, ConversionError>

  function TopicPartitionToProto(tp: TopicPartition): ProtoTopicPartition {
    ProtoTopicPartition(tp.topic, tp.partition)
  }

  function TopicPartitionFromProto(tp: ProtoTopicPartition): TopicPartition {
    TopicPartition(tp.topic, tp.partition)
  }

  function HeadersToProto(headers: seq<Header>): seq<ProtoHeader> {
    if headers == [] then [] else [ProtoHeader(headers[0].key, headers[0].value)] + HeadersToProto(headers[1..])
  }

  function HeadersFromProto(headers: seq<ProtoHeader>): seq<Header> {
    if headers == [] then [] else [Header(headers[0].key, headers[0].value)] + HeadersFromProto(headers[1..])
  }

  /** The record's timestamp is a machine integer. */
  predicate Typed(r: Record) {
    -TWO_63 <= r.timestamp < TWO_63
  }

  function RecordToProto(r: Record): Converted<ProtoRecord>
    requires Typed(r)
  {
    Ok(ProtoRecord(if r.key.Some? then r.key.value else [], r.value, HeadersToProto(r.headers),
                   Some(TimestampToProto(r.timestamp))))
  }

  /** `now` replaces a timestamp that is missing. */
  function RecordFromProto(r: ProtoRecord, now: int64): Converted<Record> {
    var timestamp := if r.timestamp.Some? then TimestampFromProto(r.timestamp.value) else now;
    Ok(Record(if r.key == [] then None else Some(r.key), r.value, HeadersFromProto(r.headers), timestamp))
  }

  function WalRecordToProto(w: WalRecord): Converted<ProtoWalRecord>
    requires Typed(w.record)
  {
    var record := RecordToProto(w.record);
    if record.Err? then Err(record.error)
    else Ok(ProtoWalRecord(Some(TopicPartitionToProto(w.topicPartition)), w.offset, Some(record.value), w.crc32, 1))
  }

  function WalRecordFromProto(w: ProtoWalRecord, now: int64): Converted<WalRecord> {
    if w.topicPartition.None? then Err(MissingTopicPartition)
    else if w.record.None? then Err(MissingRecord)
    else
      var record := RecordFromProto(w.record.value, now);
      if record.Err? then Err(record.error)
      else Ok(WalRecord(TopicPartitionFromProto(w.topicPartition.value), w.offset, record.value, w.crc32))
  }

  /** All conversions in order, or the first error. */
  function AllToProto(records: seq<WalRecord>): Converted<seq<ProtoWalRecord>>
    requires forall i :: 0 <= i < |records| ==> Typed(records[i].record)
  {
    if records == [] then Ok([])
    else
      var first := WalRecordToProto(records[0]);
      if first.Err? then Err(first.error)
      else
        var rest := AllToProto(records[1..]);
        if rest.Err? then rest else Ok([first.value] + rest.value)
  }

  function AllFromProto(records: seq<ProtoWalRecord>, now: int64): Converted<seq<WalRecord>> {
    if records == [] then Ok([])
    else
      var first := WalRecordFromProto(records[0], now);
      if first.Err? then Err(first.error)
      else
        var rest := AllFromProto(records[1..], now);
        if rest.Err? then rest else Ok([first.value] + rest.value)
  }

  predicate TypedRequest(r: ReplicateDataRequest) {
    forall i :: 0 <= i < |r.records| ==> Typed(r.records[i].record)
  }

  function RequestToProto(r: ReplicateDataRequest): Converted<ProtoRequest>
    requires TypedRequest(r)
  {
    var records := AllToProto(r.records);
    if records.Err? then Err(records.error)
    else Ok(ProtoRequest(r.leaderEpoch, Some(TopicPartitionToProto(r.topicPartition)), records.value, r.leaderId,
                         0, 0, None, 0, 0, 0, 0))
  }

  function RequestFromProto(r: ProtoRequest, now: int64): Converted<ReplicateDataRequest> {
    if r.topicPartition.None? then Err(MissingTopicPartition)
    else
      var records := AllFromProto(r.records, now);
      if records.Err? then Err(records.error)
      else Ok(ReplicateDataRequest(r.leaderEpoch, TopicPartitionFromProto(r.topicPartition.value), records.value,
                                   r.leaderId))
  }

  // --- Round trips -----------------------------------------------------------------

  /** The wire cannot tell an empty key from no key. */
  function Plain(r: Record): Record {
    if r.key == Some([]) then r.(key := None) else r
  }

  function PlainAll(records: seq<WalRecord>): (plain: seq<WalRecord>)
    ensures |plain| == |records|
    ensures forall i :: 0 <= i < |records| ==> plain[i] == records[i].(record := Plain(records[i].record))
  {
    seq(|records|, i requires 0 <= i < |records| => records[i].(record := Plain(records[i].record)))
  }

  function PlainRequest(r: ReplicateDataRequest): ReplicateDataRequest {
    r.(records := PlainAll(r.records))
  }

  lemma {:induction false} HeadersRoundTrip(headers: seq<Header>)
    ensures HeadersFromProto(HeadersToProto(headers)) == headers
  {
    if headers != [] {
      HeadersRoundTrip(headers[1..]);
      assert HeadersToProto(headers)[1..] == HeadersToProto(headers[1..]);
    }
  }

  lemma WalRecordRoundTrip(w: WalRecord, now: int64)
    requires Typed(w.record)
    ensures WalRecordToProto(w).Ok?
    ensures WalRecordFromProto(WalRecordToProto(w).value, now) == Ok(w.(record := Plain(w.record)))
  {
    HeadersRoundTrip(w.record.headers);
    TimestampRoundTrip(w.record.timestamp);
  }

  lemma {:induction false} AllRoundTrip(records: seq<WalRecord>, now: int64)
    requires forall i :: 0 <= i < |records| ==> Typed(records[i].record)
    ensures AllToProto(records).Ok?
    ensures AllFromProto(AllToProto(records).value, now) == Ok(PlainAll(records))
  {
    if records != [] {
      WalRecordRoundTrip(records[0], now);
      AllRoundTrip(records[1..], now);
      var proto := AllToProto(records).value;
      assert proto[1..] == AllToProto(records[1..]).value;
      assert PlainAll(records) == [records[0].(record := Plain(records[0].record))] + PlainAll(records[1..]);
    } else {
      assert PlainAll(records) == [];
    }
  }

  /** A request comes back as it was, records in order, except that an empty key is gone. */
  lemma RequestRoundTrip(r: ReplicateDataRequest, now: int64)
    requires TypedRequest(r)
    ensures RequestToProto(r).Ok?
    ensures RequestFromProto(RequestToProto(r).value, now) == Ok(PlainRequest(r))
  {
    AllRoundTrip(r.records, now);
  }

  /** A second trip changes nothing any more. */
  lemma SecondTripIsIdentity(r: ReplicateDataRequest, now: int64)
    requires TypedRequest(r)
    ensures TypedRequest(PlainRequest(r)) && RequestToProto(PlainRequest(r)).Ok?
    ensures RequestFromProto(RequestToProto(PlainRequest(r)).value, now) == Ok(PlainRequest(r))
  {
    RequestRoundTrip(PlainRequest(r), now);
    assert PlainAll(PlainAll(r.records)) == PlainAll(r.records);
  }

  lemma {:induction false} PlainHasSameWire(records: seq<WalRecord>)
    requires forall i :: 0 <= i < |records| ==> Typed(records[i].record)
    ensures forall i :: 0 <= i < |records| ==> Typed(PlainAll(records)[i].record)
    ensures AllToProto(PlainAll(records)) == AllToProto(records)
  {
    if records != [] {
      PlainHasSameWire(records[1..]);
      assert PlainAll(records)[1..] == PlainAll(records[1..]);
    } else {
      assert PlainAll(records) == [];
    }
  }

  /** Two requests have the same wire form exactly when they agree up to empty keys. */
  lemma SameWireIff(a: ReplicateDataRequest, b: ReplicateDataRequest)
    requires TypedRequest(a) && TypedRequest(b)
    ensures RequestToProto(a) == RequestToProto(b) <==> PlainRequest(a) == PlainRequest(b)
  {
    RequestRoundTrip(a, 0);
    RequestRoundTrip(b, 0);
    if PlainRequest(a) == PlainRequest(b) {
      PlainHasSameWire(a.records);
      PlainHasSameWire(b.records);
    }
  }

  predicate Complete(w: ProtoWalRecord) {
    w.topicPartition.Some? && w.record.Some?
  }

  lemma {:induction false} AllFromProtoFailsIff(records: seq<ProtoWalRecord>, now: int64)
    ensures AllFromProto(records, now).Ok? <==> forall i :: 0 <= i < |records| ==> Complete(records[i])
    ensures AllFromProto(records, now).Ok? ==> |AllFromProto(records, now).value| == |records|
  {
    if records != [] {
      AllFromProtoFailsIff(records[1..], now);
      assert forall i :: 1 <= i < |records| ==> records[i] == records[1..][i - 1];
    }
  }

  /** A message is refused exactly when it, or one of its records, lacks a part. */
  lemma RequestRefusedIff(r: ProtoRequest, now: int64)
    ensures RequestFromProto(r, now).Err?
        <==> r.topicPartition.None? || exists i :: 0 <= i < |r.records| && !Complete(r.records[i])
  {
    AllFromProtoFailsIff(r.records, now);
  }
}
