/** Which cold ranges of a partition a compaction cycle merges. */
module CompactionPlan {
  import opened ColdIndex

  datatype Candidate = Candidate(key: Key, sizeBytes: nat)

  datatype CompactionConfig = CompactionConfig(smallThresholdBytes: nat, targetBytes: nat, maxSources: nat)

  /** Part of the candidates from `start` up to `end` */
  datatype Span = Span(start: nat, end: nat)

  function TotalSize(candidates: seq<Candidate>): nat {
    if candidates == [] then 0 else TotalSize(candidates[..|candidates| - 1]) + candidates[|candidates| - 1].sizeBytes
  }

  /** Adjacent small ranges, and no more bytes than the target once there are three. */
  ghost predicate Mergeable(run: seq<Candidate>, c: CompactionConfig) {
    && (forall i :: 0 <= i < |run| ==> run[i].sizeBytes < c.smallThresholdBytes)
    && (forall i :: 0 <= i < |run| - 1 ==> run[i].key.end == run[i + 1].key.start)
    && (|run| >= 3 ==> TotalSize(run) <= c.targetBytes)
  }

  /** The plans are separate parts of the candidates in order, each worth merging. */
  ghost predicate Planned(segments: seq<Candidate>, plans: seq<Span>, c: CompactionConfig, upTo: nat) {
    && (forall p :: 0 <= p < |plans| ==>
          && plans[p].start < plans[p].end <= upTo <= |segments| && Mergeable(segments[plans[p].start..plans[p].end], c)
          && (c.maxSources >= 2 ==> 2 <= plans[p].end - plans[p].start <= c.maxSources))
    && (forall p :: 0 <= p < |plans| - 1 ==> plans[p].end <= plans[p + 1].start)
  }

  /** A small range followed by an adjacent small one */
  ghost predicate Wanted(segments: seq<Candidate>, c: CompactionConfig, k: nat) {
    && k + 1 < |segments| && segments[k].sizeBytes < c.smallThresholdBytes
    && segments[k + 1].sizeBytes < c.smallThresholdBytes && segments[k].key.end == segments[k + 1].key.start
  }

  ghost predicate InPlans(plans: seq<Span>, k: nat) {
    exists p :: 0 <= p < |plans| && plans[p].start <= k < plans[p].end
  }

  ghost predicate AllPlanned(segments: seq<Candidate>, plans: seq<Span>, c: CompactionConfig, upTo: nat) {
    forall k: nat :: k < upTo && Wanted(segments, c, k) ==> InPlans(plans, k)
  }

  lemma AllPlannedOneMore(segments: seq<Candidate>, plans: seq<Span>, c: CompactionConfig, span: Span)
    requires AllPlanned(segments, plans, c, span.start)
    ensures AllPlanned(segments, plans + [span], c, span.end)
  {
    forall k: nat | k < span.end && Wanted(segments, c, k) ensures InPlans(plans + [span], k) {
      if k < span.start {
        var p :| 0 <= p < |plans| && plans[p].start <= k < plans[p].end;
        assert (plans + [span])[p] == plans[p];
      } else {
        assert (plans + [span])[|plans|] == span;
      }
    }
  }

  /** The plans before `from` are made, and the current run reaches from there to `i`. */
  ghost predicate Scanning(segments: seq<Candidate>, plans: seq<Span>, c: CompactionConfig, from: nat, i: nat,
                           runSize: nat) {
    && from <= i <= |segments| && Planned(segments, plans, c, from) && AllPlanned(segments, plans, c, from)
    && Mergeable(segments[from..i], c) && runSize == TotalSize(segments[from..i])
    && (c.maxSources >= 2 ==> i - from < c.maxSources)
  }

  /** The current run becomes a plan. */
  lemma PlanOneMore(segments: seq<Candidate>, plans: seq<Span>, c: CompactionConfig, from: nat, end: nat)
    requires from < end <= |segments| && Planned(segments, plans, c, from) && AllPlanned(segments, plans, c, from)
    requires Mergeable(segments[from..end], c) && (c.maxSources >= 2 ==> 2 <= end - from <= c.maxSources)
    ensures Planned(segments, plans + [Span(from, end)], c, end)
    ensures AllPlanned(segments, plans + [Span(from, end)], c, end)
  {
    AllPlannedOneMore(segments, plans, c, Span(from, end));
  }

  /** A run of one range that has no small neighbour is dropped. */
  lemma DropRun(segments: seq<Candidate>, plans: seq<Span>, c: CompactionConfig, from: nat, to: nat)
    requires from <= to <= |segments| && Planned(segments, plans, c, from) && AllPlanned(segments, plans, c, from)
    requires forall k: nat :: from <= k < to ==> !Wanted(segments, c, k)
    ensures Planned(segments, plans, c, to) && AllPlanned(segments, plans, c, to)
  {
  }

  lemma EmptyRun(segments: seq<Candidate>, plans: seq<Span>, c: CompactionConfig, i: nat)
    requires i <= |segments| && Planned(segments, plans, c, i) && AllPlanned(segments, plans, c, i)
    ensures Scanning(segments, plans, c, i, i, 0)
  {
  }

  lemma NewRun(segments: seq<Candidate>, plans: seq<Span>, c: CompactionConfig, i: nat)
    requires i < |segments| && segments[i].sizeBytes < c.smallThresholdBytes
    requires Planned(segments, plans, c, i) && AllPlanned(segments, plans, c, i)
    ensures Scanning(segments, plans, c, i, i + 1, segments[i].sizeBytes)
  {
  }

  lemma RunOneMore(segments: seq<Candidate>, from: nat, i: nat, c: CompactionConfig)
    requires from < i < |segments| && Mergeable(segments[from..i], c)
    requires segments[i].sizeBytes < c.smallThresholdBytes && segments[i - 1].key.end == segments[i].key.start
    requires i - from >= 2 ==> TotalSize(segments[from..i]) + segments[i].sizeBytes <= c.targetBytes
    ensures Mergeable(segments[from..i + 1], c)
    ensures TotalSize(segments[from..i + 1]) == TotalSize(segments[from..i]) + segments[i].sizeBytes
  {
    var run, longer := segments[from..i], segments[from..i + 1];
    assert longer[..|longer| - 1] == run;
    assert forall k :: 0 <= k < |run| ==> longer[k] == run[k];
    forall k | 0 <= k < |longer| - 1 ensures longer[k].key.end == longer[k + 1].key.start {
      if k < |run| - 1 {
        assert run[k].key.end == run[k + 1].key.start;
      }
    }
  }

  lemma RunOfOne(segments: seq<Candidate>, i: nat, c: CompactionConfig)
    requires i < |segments| && segments[i].sizeBytes < c.smallThresholdBytes
    ensures Mergeable(segments[i..i + 1], c) && TotalSize(segments[i..i + 1]) == segments[i].sizeBytes
  {
  }

  /** The range ends the current run: a small one begins the next. */
  method EndRun(segments: seq<Candidate>, c: CompactionConfig, plans: seq<Span>, from: nat, i: nat, ghost runSize: nat)
    returns (plans': seq<Span>, from': nat, runSize': nat)
    requires Scanning(segments, plans, c, from, i, runSize) && i < |segments|
    requires || segments[i].sizeBytes >= c.smallThresholdBytes
             || (from < i && segments[i - 1].key.end != segments[i].key.start)
             || i - from >= 2
    ensures Scanning(segments, plans', c, from', i + 1, runSize')
  {
    plans' := plans;
    if i - from >= 2 {
      PlanOneMore(segments, plans, c, from, i);
      plans' := plans + [Span(from, i)];
    } else {
      DropRun(segments, plans, c, from, i);
    }
    if segments[i].sizeBytes < c.smallThresholdBytes {
      NewRun(segments, plans', c, i);
      from', runSize' := i, segments[i].sizeBytes;
    } else {
      DropRun(segments, plans', c, i, i + 1);
      EmptyRun(segments, plans', c, i + 1);
      from', runSize' := i + 1, 0;
    }
  }

  /** The range joins the current run, which is planned when it is long enough. */
  method ExtendRun(segments: seq<Candidate>, c: CompactionConfig, plans: seq<Span>, from: nat, i: nat, runSize: nat)
    returns (plans': seq<Span>, from': nat, runSize': nat)
    requires Scanning(segments, plans, c, from, i, runSize) && i < |segments|
    requires segments[i].sizeBytes < c.smallThresholdBytes
    requires from < i ==> segments[i - 1].key.end == segments[i].key.start
    requires i - from >= 2 ==> runSize + segments[i].sizeBytes <= c.targetBytes
    ensures Scanning(segments, plans', c, from', i + 1, runSize')
  {
    plans', from', runSize' := plans, from, runSize + segments[i].sizeBytes;
    if from == i {
      RunOfOne(segments, i, c);
    } else {
      RunOneMore(segments, from, i, c);
    }
    if i + 1 - from >= c.maxSources {
      PlanOneMore(segments, plans, c, from, i + 1);
      plans', from', runSize' := plans + [Span(from, i + 1)], i + 1, 0;
      EmptyRun(segments, plans', c, i + 1);
    }
  }

  /** `plan_partition_compaction`; `from` is where the current run begins. */
  method PlanPartition(segments: seq<Candidate>, c: CompactionConfig) returns (plans: seq<Span>)
    ensures Planned(segments, plans, c, |segments|) && AllPlanned(segments, plans, c, |segments|)
  {
    plans := [];
    var from: nat, runSize: nat := 0, 0;
    for i := 0 to |segments|
      invariant Scanning(segments, plans, c, from, i, runSize)
    {
      var isSmall := segments[i].sizeBytes < c.smallThresholdBytes;
      var isContiguous := from == i || segments[i - 1].key.end == segments[i].key.start;
      if !isSmall || !isContiguous {
        plans, from, runSize := EndRun(segments, c, plans, from, i, runSize);
      } else if runSize + segments[i].sizeBytes > c.targetBytes && i - from >= 2 {
        plans, from, runSize := EndRun(segments, c, plans, from, i, runSize);
      } else {
        plans, from, runSize := ExtendRun(segments, c, plans, from, i, runSize);
      }
    }
    if |segments| - from >= 2 {
      PlanOneMore(segments, plans, c, from, |segments|);
      plans := plans + [Span(from, |segments|)];
    } else {
      DropRun(segments, plans, c, from, |segments|);
    }
  }
}
