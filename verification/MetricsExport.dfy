/** The message counter exported by the metrics collector, which adds up differences
    between readings of the broker's own counter. */
module MetricsExport {
  import opened BrokerSteps

  function SaturatingSub(a: nat, b: nat): nat {
    if a < b then 0 else a - b
  }

  datatype Exported = Exported(last: nat, messages: nat)

  function Collect(e: Exported, current: nat): Exported {
    Exported(current, e.messages + SaturatingSub(current, e.last))
  }

  class MetricsCollector {
    var lastMessageCount: nat
    var messageRate: nat

    ghost function Abs(): Exported
      reads this
    {
      Exported(lastMessageCount, messageRate)
    }

    constructor (current: nat)
      ensures Abs() == Exported(current, 0)
    {
      lastMessageCount, messageRate := current, 0;
    }

    /** The message part of `collect_and_report` */
    method CollectAndReport(current: nat) returns (perSecond: nat)
      modifies this
      ensures Abs() == Collect(old(Abs()), current)
      ensures perSecond == (messageRate - old(messageRate)) / 10
    {
      var delta := SaturatingSub(current, lastMessageCount);
      perSecond := delta / 10;
      lastMessageCount := current;
      if delta > 0 {
        messageRate := messageRate + delta;
      }
    }
  }

  function CollectAll(e: Exported, readings: seq<nat>): Exported {
    if readings == [] then e
    else Collect(CollectAll(e, readings[..|readings| - 1]), readings[|readings| - 1])
  }

  function Previous(first: nat, readings: seq<nat>, i: nat): nat
    requires i <= |readings|
  {
    if i == 0 then first else readings[i - 1]
  }

  ghost predicate NeverFalls(first: nat, readings: seq<nat>) {
    forall i :: 0 <= i < |readings| ==> Previous(first, readings, i) <= readings[i]
  }

  lemma PreviousOfPrefix(first: nat, readings: seq<nat>)
    requires readings != []
    ensures var n := |readings| - 1; forall i :: 0 <= i <= n ==>
              Previous(first, readings[..n], i) == Previous(first, readings, i)
  {
  }

  /** The differences add up to the whole distance exactly when no reading falls. */
  lemma {:induction false} TelescopesIff(e: Exported, readings: seq<nat>)
    ensures CollectAll(e, readings).last == if readings == [] then e.last else readings[|readings| - 1]
    ensures CollectAll(e, readings).messages + e.last >= e.messages + CollectAll(e, readings).last
    ensures CollectAll(e, readings).messages + e.last == e.messages + CollectAll(e, readings).last
        <==> NeverFalls(e.last, readings)
    decreases |readings|
  {
    if readings != [] {
      var n := |readings| - 1;
      TelescopesIff(e, readings[..n]);
      PreviousOfPrefix(e.last, readings);
      assert NeverFalls(e.last, readings)
        <==> NeverFalls(e.last, readings[..n]) && Previous(e.last, readings, n) <= readings[n];
    }
  }

  /** Readings taken after each stretch of a broker's run. */
  ghost function Readings(s: State, stretches: seq<seq<Action>>): seq<nat>
    decreases |stretches|
  {
    if stretches == [] then []
    else
      var s' := Run(s, stretches[0]);
      [s'.core.total] + Readings(s', stretches[1..])
  }

  ghost function RunAll(s: State, stretches: seq<seq<Action>>): State
    decreases |stretches|
  {
    if stretches == [] then s else RunAll(Run(s, stretches[0]), stretches[1..])
  }

  lemma {:induction false} ReadingsNeverFall(s: State, stretches: seq<seq<Action>>)
    ensures NeverFalls(s.core.total, Readings(s, stretches))
    ensures |Readings(s, stretches)| == |stretches|
    ensures stretches != [] ==> Readings(s, stretches)[|stretches| - 1] == RunAll(s, stretches).core.total
    decreases |stretches|
  {
    if stretches != [] {
      var s' := Run(s, stretches[0]);
      CounterNeverFalls(s, stretches[0]);
      ReadingsNeverFall(s', stretches[1..]);
      var rest, all := Readings(s', stretches[1..]), Readings(s, stretches);
      forall i | 0 <= i < |all| ensures Previous(s.core.total, all, i) <= all[i] {
        if i > 0 {
          assert Previous(s'.core.total, rest, i - 1) <= rest[i - 1];
        }
      }
    }
  }

  /** The exported counter is the broker's counter at the last tick less its value when the
      collector was built, whatever the broker did in between. */
  lemma ExportedIsProcessedSince(s: State, stretches: seq<seq<Action>>)
    ensures CollectAll(Exported(s.core.total, 0), Readings(s, stretches)).messages
         == RunAll(s, stretches).core.total - s.core.total
  {
    ReadingsNeverFall(s, stretches);
    TelescopesIff(Exported(s.core.total, 0), Readings(s, stretches));
  }
}
