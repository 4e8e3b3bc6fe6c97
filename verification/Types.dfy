/** Value types shared by the broker, storage and wire models. */
module Types {

  type byte = b: int | 0 <= b < 256
  type Bytes = seq<byte>

  datatype Option<+T> = None | Some(value: T)

  datatype Result<+T, +E> = Ok(value: T) | Err(error: E)

  datatype TopicPartition = TopicPartition(topic: string, partition: nat)

  datatype Header = Header(key: string, value: Bytes)

  datatype Record = Record(key: Option<Bytes>, value: Bytes, headers: seq<Header>, timestamp: int)

  datatype AcknowledgmentLevel = NoAcks | Leader | Majority | All | Custom(count: nat)
  {
    /** The levels for which a produce call replicates before it answers. */
    predicate Replicates() {
      Majority? || All? || Custom?
    }
  }

  function Max(a: nat, b: nat): nat {
    if a < b then b else a
  }

  function Bit(b: bool): nat {
    if b then 1 else 0
  }

  /** Time from one clock reading to another, which is zero if it runs backwards */
  function Elapsed(from: real, to: real): real {
    if to < from then 0.0 else to - from
  }

  ghost predicate Distinct<T(!new)>(s: seq<T>) {
    forall i, j :: 0 <= i < j < |s| ==> s[i] != s[j]
  }

  function HeaderBytes(headers: seq<Header>): nat {
    if headers == [] then 0
    else |headers[0].key| + |headers[0].value| + HeaderBytes(headers[1..])
  }

  /** In-memory footprint estimate of a record; `structBytes` is the platform's
      size of the record structure itself. */
  function MemSize(record: Record, structBytes: nat): nat {
    structBytes + |record.value| + (if record.key.Some? then |record.key.value| else 0)
    + HeaderBytes(record.headers)
  }
}
