/** A consumer of one partition that polls while the broker runs: exactly when what it was
    handed out is a run of the log. */
module ConsumerRuns {
  import opened Types
  import opened PartitionLog
  import opened BrokerSteps
  import opened SerialRuns
  import opened Consumer

  /** The broker takes a step, or the consumer polls: the store ends the read after `more`
      further records, or the read fails. */
  datatype Event = Do(action: Action) | Poll(more: nat, failure: Option<FetchError>)

  /** The broker, the consumer's position, and all it was handed out */
  datatype Watch = Watch(state: State, at: nat, out: seq<ConsumeRecord>)

  function Finds(tp: TopicPartition, s: State, e: Event): Moment
    requires e.Poll?
  {
    Moment(s.core.store, map[tp := e.more], if e.failure.Some? then map[tp := e.failure.value] else map[])
  }

  function Next(tp: TopicPartition, w: Watch, e: Event): Watch {
    match e
    case Do(a) => w.(state := Step(w.state, a))
    case Poll(more, failure) =>
      var p := PollAll(Finds(tp, w.state, e), map[tp := w.at], [tp]);
      Watch(if failure.Some? then w.state else Step(w.state, Fetch(tp, w.at, more)), p.positions[tp],
            w.out + if p.error.Some? then [] else p.records)
  }

  function Follow(tp: TopicPartition, w: Watch, events: seq<Event>): Watch
    decreases |events|
  {
    if events == [] then w
    else Next(tp, Follow(tp, w, events[..|events| - 1]), events[|events| - 1])
  }

  /** The action writes, or takes away, the record at an offset of the partition. */
  ghost predicate Writes(s: State, a: Action, tp: TopicPartition, o: nat) {
    (a.Insert? || a.WalFail?) && Enabled(s, a) && s.calls[a.id].tp == tp && s.calls[a.id].Offset() == o
  }

  ghost predicate HandedOut(w: Watch, start: nat, o: nat) {
    start <= o < start + |w.out|
  }

  /** A record that was handed out is rolled back, or another one is written over it. */
  ghost predicate Spoils(tp: TopicPartition, start: nat, w: Watch, e: Event, o: nat) {
    && HandedOut(w, start, o) && e.Do? && Writes(w.state, e.action, tp, o)
    && (e.action.WalFail?
        || var c := w.state.calls[e.action.id]; c.records[c.Index()] != w.out[o - start].record)
  }

  /** The record that was handed out is written there again. */
  ghost predicate Restores(tp: TopicPartition, start: nat, w: Watch, e: Event, o: nat) {
    && HandedOut(w, start, o) && e.Do? && Writes(w.state, e.action, tp, o) && e.action.Insert?
    && var c := w.state.calls[e.action.id]; c.records[c.Index()] == w.out[o - start].record
  }

  /** A whole session, as far as its first `k` events */
  datatype Session = Session(tp: TopicPartition, start: nat, s: State, events: seq<Event>)
  {
    function After(k: nat): Watch
      requires k <= |events|
    {
      Follow(tp, Watch(s, start, []), events[..k])
    }

    ghost predicate SpoilsAt(k: nat, o: nat)
      requires k < |events|
    {
      Spoils(tp, start, After(k), events[k], o)
    }

    ghost predicate RestoresAt(k: nat, o: nat)
      requires k < |events|
    {
      Restores(tp, start, After(k), events[k], o)
    }

    /** Event `k` spoils the record at `o`, and it is not restored before event `n`. */
    ghost predicate SpoiledFrom(k: nat, n: nat, o: nat)
      requires n <= |events|
    {
      k < n && SpoilsAt(k, o) && forall j :: k < j < n ==> !RestoresAt(j, o)
    }

    ghost predicate Spoiled(n: nat, o: nat)
      requires n <= |events|
    {
      exists k: nat :: SpoiledFrom(k, n, o)
    }

    /** What was handed out so far is a run of the log as it is now. */
    ghost predicate IsRun(n: nat)
      requires n <= |events|
    {
      LabelledRun(After(n).out, tp, start, After(n).state.core.LogOf(tp))
    }

    ghost predicate MatchesAt(n: nat, o: nat)
      requires n <= |events| && HandedOut(After(n), start, o)
    {
      Matches(After(n).out[o - start], tp, o, After(n).state.core.LogOf(tp))
    }
  }

  lemma AfterNext(x: Session, n: nat)
    requires n < |x.events|
    ensures x.After(n + 1) == Next(x.tp, x.After(n), x.events[n])
  {
    assert x.events[..n + 1][..n] == x.events[..n];
  }

  lemma EntryStep(s: State, a: Action, tp: TopicPartition, o: nat)
    ensures Writes(s, a, tp, o) && a.WalFail? ==> o !in Step(s, a).core.LogOf(tp).entries
    ensures Writes(s, a, tp, o) && a.Insert? ==>
              && o in Step(s, a).core.LogOf(tp).entries
              && Step(s, a).core.LogOf(tp).entries[o] == s.calls[a.id].records[s.calls[a.id].Index()]
    ensures !Writes(s, a, tp, o) ==>
              && (o in Step(s, a).core.LogOf(tp).entries <==> o in s.core.LogOf(tp).entries)
              && (o in s.core.LogOf(tp).entries ==> Step(s, a).core.LogOf(tp).entries[o] == s.core.LogOf(tp).entries[o])
  {
  }

  lemma PollNext(tp: TopicPartition, w: Watch, e: Event)
    requires e.Poll?
    ensures var w' := Next(tp, w, e);
            && w'.out == w.out + Given(tp, w.at, Finds(tp, w.state, e))
            && w'.at == w.at + |w'.out| - |w.out|
            && w'.state.core.LogOf(tp) == w.state.core.LogOf(tp)
            && LabelledRun(Given(tp, w.at, Finds(tp, w.state, e)), tp, w.at, w.state.core.LogOf(tp))
  {
    SinglePoll(tp, w.at, Finds(tp, w.state, e));
    GivenIsRun(tp, w.at, Finds(tp, w.state, e));
  }

  /** The position is right behind what was handed out, and nothing is taken back. */
  lemma {:induction false} Position(x: Session, n: nat)
    requires n <= |x.events|
    ensures x.After(n).at == x.start + |x.After(n).out|
    ensures n > 0 ==> x.After(n - 1).out <= x.After(n).out
  {
    if n > 0 {
      Position(x, n - 1);
      AfterNext(x, n - 1);
      if x.events[n - 1].Poll? {
        PollNext(x.tp, x.After(n - 1), x.events[n - 1]);
      }
    }
  }

  lemma {:induction false} OutGrows(x: Session, k: nat, n: nat)
    requires k <= n <= |x.events|
    ensures x.After(k).out <= x.After(n).out
    decreases n
  {
    if k < n {
      OutGrows(x, k, n - 1);
      Position(x, n);
    }
  }

  lemma StillSpoiled(x: Session, n: nat, o: nat)
    requires n < |x.events| && !x.RestoresAt(n, o) && x.Spoiled(n, o)
    ensures x.Spoiled(n + 1, o)
  {
    var k: nat :| x.SpoiledFrom(k, n, o);
    assert x.SpoiledFrom(k, n + 1, o);
  }

  lemma SpoiledBefore(x: Session, n: nat, o: nat)
    requires n < |x.events| && !x.SpoilsAt(n, o) && x.Spoiled(n + 1, o)
    ensures x.Spoiled(n, o)
  {
    var k: nat :| x.SpoiledFrom(k, n + 1, o);
    assert x.SpoiledFrom(k, n, o);
  }

  /** An event that neither spoils nor restores a record leaves it spoiled or not. */
  lemma SpoiledStays(x: Session, n: nat, o: nat)
    requires n < |x.events| && !x.SpoilsAt(n, o) && !x.RestoresAt(n, o)
    ensures x.Spoiled(n + 1, o) <==> x.Spoiled(n, o)
  {
    if x.Spoiled(n, o) {
      StillSpoiled(x, n, o);
    }
    if x.Spoiled(n + 1, o) {
      SpoiledBefore(x, n, o);
    }
  }

  lemma SpoiledNow(x: Session, n: nat, o: nat)
    requires n < |x.events| && x.SpoilsAt(n, o)
    ensures x.Spoiled(n + 1, o)
  {
    assert x.SpoiledFrom(n, n + 1, o);
  }

  lemma RestoredNow(x: Session, n: nat, o: nat)
    requires n < |x.events| && x.RestoresAt(n, o) && !x.SpoilsAt(n, o)
    ensures !x.Spoiled(n + 1, o)
  {
  }

  lemma SpoiledNext(x: Session, n: nat, o: nat)
    requires n < |x.events|
    ensures x.Spoiled(n + 1, o) <==> x.SpoilsAt(n, o) || (x.Spoiled(n, o) && !x.RestoresAt(n, o))
  {
    if x.SpoilsAt(n, o) {
      SpoiledNow(x, n, o);
    } else if x.RestoresAt(n, o) {
      RestoredNow(x, n, o);
    } else {
      SpoiledStays(x, n, o);
    }
  }

  /** A record just handed out was not spoiled before. */
  lemma NotYetSpoiled(x: Session, n: nat, o: nat)
    requires n < |x.events| && !HandedOut(x.After(n), x.start, o)
    ensures !x.Spoiled(n + 1, o)
  {
    var end := n + 1;
    forall k: nat ensures !x.SpoiledFrom(k, end, o) {
      if k <= n {
        OutGrows(x, k, n);
      }
    }
  }

  /** Whether the log still has the record at `o` that was handed out, after a step */
  lemma MatchStep(tp: TopicPartition, start: nat, w: Watch, a: Action, o: nat)
    requires HandedOut(w, start, o) && w.out[o - start].tp == tp && w.out[o - start].offset == o
    ensures Matches(w.out[o - start], tp, o, Step(w.state, a).core.LogOf(tp))
       <==> !Spoils(tp, start, w, Do(a), o)
            && (Restores(tp, start, w, Do(a), o) || Matches(w.out[o - start], tp, o, w.state.core.LogOf(tp)))
  {
    EntryStep(w.state, a, tp, o);
  }

  lemma StepVerdict(x: Session, n: nat, o: nat)
    requires n < |x.events| && x.events[n].Do? && HandedOut(x.After(n), x.start, o)
    requires x.After(n).out[o - x.start].tp == x.tp && x.After(n).out[o - x.start].offset == o
    ensures HandedOut(x.After(n + 1), x.start, o)
    ensures x.MatchesAt(n + 1, o) <==> !x.SpoilsAt(n, o) && (x.RestoresAt(n, o) || x.MatchesAt(n, o))
  {
    AfterNext(x, n);
    MatchStep(x.tp, x.start, x.After(n), x.events[n].action, o);
  }

  lemma MatchesAfterStep(x: Session, n: nat, o: nat)
    requires n < |x.events| && x.events[n].Do? && HandedOut(x.After(n), x.start, o)
    requires x.MatchesAt(n, o) <==> !x.Spoiled(n, o)
    requires x.After(n).out[o - x.start].tp == x.tp && x.After(n).out[o - x.start].offset == o
    ensures HandedOut(x.After(n + 1), x.start, o) && (x.MatchesAt(n + 1, o) <==> !x.Spoiled(n + 1, o))
  {
    StepVerdict(x, n, o);
    SpoiledNext(x, n, o);
  }

  lemma GivenMatches(tp: TopicPartition, start: nat, w: Watch, e: Event, o: nat)
    requires e.Poll? && w.at == start + |w.out| && !HandedOut(w, start, o) && HandedOut(Next(tp, w, e), start, o)
    ensures Matches(Next(tp, w, e).out[o - start], tp, o, Next(tp, w, e).state.core.LogOf(tp))
  {
    PollNext(tp, w, e);
    var given := Given(tp, w.at, Finds(tp, w.state, e));
    assert Next(tp, w, e).out[o - start] == given[o - w.at];
    assert Matches(given[o - w.at], tp, w.at + (o - w.at), w.state.core.LogOf(tp));
  }

  /** What a poll has just handed out is what the log has. */
  lemma MatchesWhenGiven(x: Session, n: nat, o: nat)
    requires n < |x.events| && HandedOut(x.After(n + 1), x.start, o) && !HandedOut(x.After(n), x.start, o)
    ensures x.MatchesAt(n + 1, o)
  {
    AfterNext(x, n);
    Position(x, n);
    var w, e := x.After(n), x.events[n];
    if e.Poll? {
      GivenMatches(x.tp, x.start, w, e, o);
    }
  }

  lemma MatchesAfterPoll(x: Session, n: nat, o: nat)
    requires n < |x.events| && x.events[n].Poll? && HandedOut(x.After(n), x.start, o)
    requires x.MatchesAt(n, o) <==> !x.Spoiled(n, o)
    ensures HandedOut(x.After(n + 1), x.start, o) && (x.MatchesAt(n + 1, o) <==> !x.Spoiled(n + 1, o))
  {
    AfterNext(x, n);
    PollNext(x.tp, x.After(n), x.events[n]);
    SpoiledStays(x, n, o);
  }

  /** A record keeps the label under which it was handed out. */
  lemma {:induction false} LabelStays(x: Session, n: nat, o: nat)
    requires n <= |x.events| && HandedOut(x.After(n), x.start, o)
    ensures x.After(n).out[o - x.start].tp == x.tp && x.After(n).out[o - x.start].offset == o
    decreases n
  {
    if n > 0 {
      if HandedOut(x.After(n - 1), x.start, o) {
        LabelStays(x, n - 1, o);
        Position(x, n);
      } else {
        MatchesWhenGiven(x, n - 1, o);
      }
    }
  }

  lemma {:induction false} MatchesIff(x: Session, n: nat, o: nat)
    requires n <= |x.events| && HandedOut(x.After(n), x.start, o)
    ensures x.MatchesAt(n, o) <==> !x.Spoiled(n, o)
    decreases n
  {
    if n > 0 {
      AfterNext(x, n - 1);
      if !HandedOut(x.After(n - 1), x.start, o) {
        MatchesWhenGiven(x, n - 1, o);
        NotYetSpoiled(x, n - 1, o);
      } else {
        MatchesIff(x, n - 1, o);
        LabelStays(x, n - 1, o);
        if x.events[n - 1].Do? {
          MatchesAfterStep(x, n - 1, o);
        } else {
          MatchesAfterPoll(x, n - 1, o);
        }
      }
    }
  }

  /** However polls, failing reads and steps of the broker interleave, the position of a
      consumer of one partition is right behind what it was handed out, and what it was
      handed out is a gap-free and duplicate-free run of the log, each record under its own
      offset, if and only if no record handed out was rolled back or overwritten with
      another one since, without being written there again. */
  lemma SinglePartitionSession(x: Session, n: nat)
    requires n <= |x.events|
    ensures x.After(n).at == x.start + |x.After(n).out|
    ensures x.IsRun(n) <==> forall o: nat :: HandedOut(x.After(n), x.start, o) ==> !x.Spoiled(n, o)
  {
    var w := x.After(n);
    Position(x, n);
    forall o: nat | HandedOut(w, x.start, o) ensures x.MatchesAt(n, o) <==> !x.Spoiled(n, o) {
      MatchesIff(x, n, o);
    }
    if x.IsRun(n) {
      forall o: nat | HandedOut(w, x.start, o) ensures !x.Spoiled(n, o) {
        assert Matches(w.out[o - x.start], x.tp, x.start + (o - x.start), w.state.core.LogOf(x.tp));
        assert x.MatchesAt(n, o);
      }
    }
    if forall o: nat :: HandedOut(w, x.start, o) ==> !x.Spoiled(n, o) {
      forall i | 0 <= i < |w.out| ensures Matches(w.out[i], x.tp, x.start + i, w.state.core.LogOf(x.tp)) {
        assert HandedOut(w, x.start, x.start + i);
        assert x.MatchesAt(n, x.start + i);
      }
    }
  }

  /** It is a run of the log after every event if and only if no event spoils a record. */
  lemma AlwaysRunIffNeverSpoiled(x: Session)
    ensures (forall n :: 0 <= n <= |x.events| ==> x.IsRun(n))
       <==> (forall k, o: nat :: 0 <= k < |x.events| ==> !x.SpoilsAt(k, o))
  {
    if forall n :: 0 <= n <= |x.events| ==> x.IsRun(n) {
      forall k, o: nat | 0 <= k < |x.events| ensures !x.SpoilsAt(k, o) {
        assert x.IsRun(k + 1);
        SinglePartitionSession(x, k + 1);
        OutGrows(x, k, k + 1);
        if x.SpoilsAt(k, o) {
          SpoiledNow(x, k, o);
        }
      }
    }
    if forall k, o: nat :: 0 <= k < |x.events| ==> !x.SpoilsAt(k, o) {
      forall n | 0 <= n <= |x.events| ensures x.IsRun(n) {
        SinglePartitionSession(x, n);
        forall o: nat ensures !x.Spoiled(n, o) {
        }
      }
    }
  }

  // ---------------------------------------------------------------------------
  // Serial runs
  // ---------------------------------------------------------------------------

  ghost predicate CalmStep(tp: TopicPartition, s: State, a: Action) {
    Exclusive(s, a) && !(a.WalFail? && Enabled(s, a) && s.calls[a.id].tp == tp)
  }

  /** The operations on each partition do not overlap, and no append to `tp` fails. */
  ghost predicate Calm(x: Session) {
    forall k :: 0 <= k < |x.events| && x.events[k].Do? ==> CalmStep(x.tp, x.After(k).state, x.events[k].action)
  }

  ghost predicate Claims(s: State, id: Id, tp: TopicPartition, o: nat) {
    id in s.calls && s.calls[id].tp == tp && o < s.calls[id].base + s.calls[id].Claimed()
  }

  /** Everything stored at or above the watermark was put there by a call under way. */
  ghost predicate TopClaimed(s: State, tp: TopicPartition) {
    tp in s.core.partitions ==>
      forall o: nat :: o in s.core.LogOf(tp).entries && s.core.partitions[tp].highWatermark <= o ==>
        exists id :: Claims(s, id, tp, o)
  }

  lemma ClaimStays(s: State, tp: TopicPartition, a: Action, id: Id, o: nat)
    requires Claims(s, id, tp, o) && CalmStep(tp, s, a) && Enabled(s, a) && CallsOnTop(s) && !a.Commit?
    ensures Claims(Step(s, a), id, tp, o)
  {
    assert CallOnTop(s, s.calls[id]);
  }

  lemma TopAfterInsert(s: State, tp: TopicPartition, id: Id)
    requires SerialInv(s) && TopClaimed(s, tp) && Enabled(s, Insert(id))
    ensures TopClaimed(Step(s, Insert(id)), tp)
  {
    var s', c := Step(s, Insert(id)), s.calls[id];
    assert CallOnTop(s, c);
    forall o: nat | && tp in s'.core.partitions && o in s'.core.LogOf(tp).entries
                    && s'.core.partitions[tp].highWatermark <= o
      ensures exists i :: Claims(s', i, tp, o)
    {
      if c.tp == tp && o == c.Offset() {
        assert Claims(s', id, tp, o);
      } else {
        EntryStep(s, Insert(id), tp, o);
        var i :| Claims(s, i, tp, o);
        ClaimStays(s, tp, Insert(id), i, o);
      }
    }
  }

  lemma TopAfterCommit(s: State, tp: TopicPartition, id: Id)
    requires SerialInv(s) && TopClaimed(s, tp) && Enabled(s, Commit(id))
    ensures TopClaimed(Step(s, Commit(id)), tp)
  {
    var s', c := Step(s, Commit(id)), s.calls[id];
    assert CallOnTop(s, c);
    forall o: nat | && tp in s'.core.partitions && o in s'.core.LogOf(tp).entries
                    && s'.core.partitions[tp].highWatermark <= o
      ensures exists i :: Claims(s', i, tp, o)
    {
      var i :| Claims(s, i, tp, o);
      assert Claims(s', i, tp, o);
    }
  }

  lemma TopAfterAdd(s: State, tp: TopicPartition, id: Id)
    requires SerialInv(s) && TopClaimed(s, tp) && Enabled(s, AddWrite(id))
    ensures TopClaimed(Step(s, AddWrite(id)), tp)
  {
    var s' := Step(s, AddWrite(id));
    assert s'.core.LogOf(tp) == s.core.LogOf(tp) && s'.calls == s.calls;
    if s.adds[id].tp != tp {
      forall o: nat | && tp in s'.core.partitions && o in s'.core.LogOf(tp).entries
                      && s'.core.partitions[tp].highWatermark <= o
        ensures exists i :: Claims(s', i, tp, o)
      {
        var i :| Claims(s, i, tp, o);
        assert Claims(s', i, tp, o);
      }
    } else {
      assert s.core.LogOf(tp).Valid();
    }
  }

  lemma TopOtherwise(s: State, tp: TopicPartition, a: Action)
    requires SerialInv(s) && TopClaimed(s, tp) && CalmStep(tp, s, a) && Enabled(s, a)
    requires !a.Insert? && !a.Commit? && !a.AddWrite?
    ensures TopClaimed(Step(s, a), tp)
  {
    var s' := Step(s, a);
    forall o: nat | && tp in s'.core.partitions && o in s'.core.LogOf(tp).entries
                    && s'.core.partitions[tp].highWatermark <= o
      ensures exists i :: Claims(s', i, tp, o)
    {
      var i :| Claims(s, i, tp, o);
      ClaimStays(s, tp, a, i, o);
    }
  }

  lemma TopStep(s: State, tp: TopicPartition, a: Action)
    requires SerialInv(s) && TopClaimed(s, tp) && CalmStep(tp, s, a)
    ensures TopClaimed(Step(s, a), tp)
  {
    if Enabled(s, a) {
      if a.Insert? {
        TopAfterInsert(s, tp, a.id);
      } else if a.Commit? {
        TopAfterCommit(s, tp, a.id);
      } else if a.AddWrite? {
        TopAfterAdd(s, tp, a.id);
      } else {
        TopOtherwise(s, tp, a);
      }
    }
  }

  ghost predicate CalmInv(s: State, tp: TopicPartition) {
    SerialInv(s) && TopClaimed(s, tp)
  }

  lemma CalmNext(tp: TopicPartition, w: Watch, e: Event)
    requires CalmInv(w.state, tp) && (e.Do? ==> CalmStep(tp, w.state, e.action))
    ensures CalmInv(Next(tp, w, e).state, tp)
  {
    var a := if e.Do? then e.action else Fetch(tp, w.at, e.more);
    SerialStep(w.state, a);
    TopStep(w.state, tp, a);
  }

  lemma AfterNone(x: Session)
    ensures x.After(0) == Watch(x.s, x.start, [])
  {
  }

  lemma CalmEvent(x: Session, k: nat)
    requires Calm(x) && k < |x.events|
    ensures x.events[k].Do? ==> CalmStep(x.tp, x.After(k).state, x.events[k].action)
  {
  }

  lemma CalmOneMore(x: Session, n: nat)
    requires Calm(x) && n < |x.events| && CalmInv(x.After(n).state, x.tp)
    ensures CalmInv(x.After(n + 1).state, x.tp)
  {
    var w, e := x.After(n), x.events[n];
    CalmEvent(x, n);
    CalmNext(x.tp, w, e);
    AfterNext(x, n);
  }

  lemma {:induction false} CalmAlong(x: Session, n: nat)
    requires CalmInv(x.s, x.tp) && Calm(x) && n <= |x.events|
    ensures CalmInv(x.After(n).state, x.tp)
  {
    if n == 0 {
      AfterNone(x);
    } else {
      CalmAlong(x, n - 1);
      CalmOneMore(x, n - 1);
    }
  }

  /** A write at an offset that holds a record writes the same record again. */
  lemma CalmWrite(s: State, tp: TopicPartition, a: Action, o: nat)
    requires CalmInv(s, tp) && CalmStep(tp, s, a) && Writes(s, a, tp, o) && o in s.core.LogOf(tp).entries
    ensures a.Insert? && s.calls[a.id].records[s.calls[a.id].Index()] == s.core.LogOf(tp).entries[o]
  {
    var c := s.calls[a.id];
    assert CallOnTop(s, c);
    var id :| Claims(s, id, tp, o);
    assert id == a.id;
  }

  lemma CalmStepSpoils(tp: TopicPartition, start: nat, w: Watch, e: Event, o: nat)
    requires CalmInv(w.state, tp) && (e.Do? ==> CalmStep(tp, w.state, e.action)) && HandedOut(w, start, o)
    requires Matches(w.out[o - start], tp, o, w.state.core.LogOf(tp))
    ensures !Spoils(tp, start, w, e, o)
  {
    if e.Do? && Writes(w.state, e.action, tp, o) {
      CalmWrite(w.state, tp, e.action, o);
    }
  }

  lemma CalmAt(x: Session, k: nat, o: nat)
    requires Calm(x) && k < |x.events| && CalmInv(x.After(k).state, x.tp) && !x.Spoiled(k, o)
    ensures !x.SpoilsAt(k, o)
  {
    if HandedOut(x.After(k), x.start, o) {
      MatchesIff(x, k, o);
      CalmStepSpoils(x.tp, x.start, x.After(k), x.events[k], o);
    }
  }

  lemma NotSpoiled(x: Session, n: nat, o: nat)
    requires n <= |x.events| && forall j: nat :: j < n ==> !x.SpoilsAt(j, o)
    ensures !x.Spoiled(n, o)
  {
  }

  lemma {:induction false} CalmNeverSpoils(x: Session, k: nat, o: nat)
    requires CalmInv(x.s, x.tp) && Calm(x) && k < |x.events|
    ensures !x.SpoilsAt(k, o)
    decreases k
  {
    forall j: nat | j < k ensures !x.SpoilsAt(j, o) {
      CalmNeverSpoils(x, j, o);
    }
    NotSpoiled(x, k, o);
    CalmAlong(x, k);
    CalmAt(x, k, o);
  }

  /** While the operations on each partition do not overlap and no append to this one fails,
      what a consumer is handed out is always a run of the log, even though it may be handed
      out before it is acknowledged. */
  lemma CalmSession(core: Core, tp: TopicPartition, start: nat, events: seq<Event>)
    requires Fresh(core) && Calm(Session(tp, start, Init(core), events))
    ensures var x := Session(tp, start, Init(core), events);
            forall n :: 0 <= n <= |events| ==> x.IsRun(n)
  {
    var x := Session(tp, start, Init(core), events);
    forall k, o: nat | 0 <= k < |events| ensures !x.SpoilsAt(k, o) {
      CalmNeverSpoils(x, k, o);
    }
    AlwaysRunIffNeverSpoiled(x);
  }

  // ---------------------------------------------------------------------------
  // A session that goes wrong
  // ---------------------------------------------------------------------------

  function OnEmptyBroker(events: seq<Event>): Session {
    Session(TP, 0, Init(NO_CORE), events)
  }

  ghost predicate SerialSession(x: Session) {
    forall k :: 0 <= k < |x.events| && x.events[k].Do? ==> Exclusive(x.After(k).state, x.events[k].action)
  }

  /** A serial session on a broker without partitions at first leads here. */
  ghost predicate Comes(events: seq<Event>, w: Watch) {
    SerialSession(OnEmptyBroker(events)) && OnEmptyBroker(events).After(|events|) == w
  }

  lemma Come(events: seq<Event>, w: Watch, e: Event) returns (events': seq<Event>, w': Watch)
    requires Comes(events, w) && (e.Do? ==> Exclusive(w.state, e.action))
    ensures Comes(events', w') && w' == Next(TP, w, e)
  {
    events', w' := events + [e], Next(TP, w, e);
    var x, x' := OnEmptyBroker(events), OnEmptyBroker(events');
    assert events[..|events|] == events && events'[..|events|] == events && events'[..|events'|] == events';
    AfterNext(x', |events|);
    forall k | 0 <= k < |events'| && events'[k].Do? ensures Exclusive(x'.After(k).state, events'[k].action) {
      if k < |events| {
        assert events'[..k] == events[..k];
        assert Exclusive(x.After(k).state, events[k].action);
      }
    }
  }

  lemma Acts(events: seq<Event>, w: Watch, a: Action) returns (events': seq<Event>, w': Watch)
    requires Comes(events, w) && Exclusive(w.state, a)
    ensures Comes(events', w') && w' == w.(state := Step(w.state, a))
  {
    events', w' := Come(events, w, Do(a));
  }

  /** A leader partition is added, and a call of one record begins. */
  lemma FirstBegun() returns (events: seq<Event>, w: Watch)
    ensures Comes(events, w) && w.at == 0 && w.out == [] && w.state.core == Core(map[TP := LEADER], map[], 0)
    ensures w.state.adds == map[] && w.state.calls == map[0 := Call(TP, [Rec(1)], Leader, 0, 0, false)]
    ensures w.state.history.acked == []
  {
    events, w := [], Watch(Init(NO_CORE), 0, []);
    events, w := Acts(events, w, AddRead(0, TP, LEADER));
    events, w := Acts(events, w, AddWrite(0));
    assert w.state.core == Core(map[TP := LEADER], map[], 0);
    events, w := Acts(events, w, Begin(0, TP, [Rec(1)], Leader));
  }

  /** Its record becomes visible, */
  lemma FirstInserted() returns (events: seq<Event>, w: Watch)
    ensures Comes(events, w) && w.at == 0 && w.out == []
    ensures w.state.core.partitions == map[TP := LEADER] && w.state.core.LogOf(TP).entries == map[0 := Rec(1)]
    ensures w.state.adds == map[] && w.state.calls == map[0 := Call(TP, [Rec(1)], Leader, 0, 0, true)]
    ensures w.state.history.acked == []
  {
    events, w := FirstBegun();
    events, w := Acts(events, w, Insert(0));
  }

  lemma PollKeeps(w: Watch, more: nat)
    ensures var s, s' := w.state, Next(TP, w, Poll(more, None)).state;
            && s'.core.partitions == s.core.partitions && s'.calls == s.calls && s'.adds == s.adds
            && s'.history.acked == s.history.acked
  {
  }

  lemma FirstPoll(w: Watch)
    requires w.at == 0 && w.out == [] && w.state.core.LogOf(TP).entries == map[0 := Rec(1)]
    ensures var w' := Next(TP, w, Poll(0, None));
            && w'.at == 1 && w'.out == [ConsumeRecord(TP, 0, Rec(1))]
            && w'.state.core.LogOf(TP) == w.state.core.LogOf(TP)
  {
    PollNext(TP, w, Poll(0, None));
    assert w.state.core.LogOf(TP).Read(0, 0) == [Rec(1)];
  }

  /** and is handed out. */
  lemma FirstHandedOut() returns (events: seq<Event>, w: Watch)
    ensures Comes(events, w) && w.at == 1 && w.out == [ConsumeRecord(TP, 0, Rec(1))]
    ensures w.state.core.partitions == map[TP := LEADER] && w.state.core.LogOf(TP).entries == map[0 := Rec(1)]
    ensures w.state.adds == map[] && w.state.calls == map[0 := Call(TP, [Rec(1)], Leader, 0, 0, true)]
    ensures w.state.history.acked == []
  {
    events, w := FirstInserted();
    var before := w;
    events, w := Come(events, w, Poll(0, None));
    FirstPoll(before);
    PollKeeps(before, 0);
  }

  /** The append fails, and another call begins at the same offset. */
  lemma SecondBegun() returns (events: seq<Event>, w: Watch)
    ensures Comes(events, w) && w.at == 1 && w.out == [ConsumeRecord(TP, 0, Rec(1))]
    ensures w.state.core.partitions == map[TP := LEADER] && w.state.core.LogOf(TP).entries == map[]
    ensures w.state.calls == map[1 := Call(TP, [Rec(2)], Leader, 0, 0, false)]
    ensures w.state.history.acked == []
  {
    events, w := FirstHandedOut();
    events, w := Acts(events, w, WalFail(0));
    assert w.state.calls == map[] && w.state.adds == map[];
    events, w := Acts(events, w, Begin(1, TP, [Rec(2)], Leader));
  }

  lemma SecondInserted() returns (events: seq<Event>, w: Watch)
    ensures Comes(events, w) && w.at == 1 && w.out == [ConsumeRecord(TP, 0, Rec(1))]
    ensures w.state.core.partitions == map[TP := LEADER] && w.state.core.LogOf(TP).entries == map[0 := Rec(2)]
    ensures w.state.calls == map[1 := Call(TP, [Rec(2)], Leader, 0, 0, true)]
    ensures w.state.history.acked == []
  {
    events, w := SecondBegun();
    events, w := Acts(events, w, Insert(1));
  }

  lemma SecondWritten() returns (events: seq<Event>, w: Watch)
    ensures Comes(events, w) && w.at == 1 && w.out == [ConsumeRecord(TP, 0, Rec(1))]
    ensures w.state.core.partitions == map[TP := LEADER] && w.state.core.LogOf(TP).entries == map[0 := Rec(2)]
    ensures w.state.calls == map[1 := Call(TP, [Rec(2)], Leader, 0, 1, false)]
    ensures w.state.history.acked == []
  {
    events, w := SecondInserted();
    events, w := Acts(events, w, WalOk(1, 0));
  }

  lemma SecondAcknowledged() returns (events: seq<Event>, w: Watch)
    ensures Comes(events, w) && w.at == 1 && w.out == [ConsumeRecord(TP, 0, Rec(1))]
    ensures w.state.core.LogOf(TP).entries == map[0 := Rec(2)]
    ensures w.state.history.acked == [Batch(TP, 0, [Rec(2)])]
  {
    events, w := SecondWritten();
    CommitEffect(w.state, 1);
    events, w := Acts(events, w, Commit(1));
  }

  /** The operations do not overlap, yet the consumer is left with a record that was never
      acknowledged; the acknowledged record at its offset, it never sees. */
  lemma RolledBackRecordStays() returns (events: seq<Event>, w: Watch)
    ensures Comes(events, w) && w.at == 1 && w.out == [ConsumeRecord(TP, 0, Rec(1))]
    ensures w.state.history.acked == [Batch(TP, 0, [Rec(2)])] && w.state.core.LogOf(TP).entries == map[0 := Rec(2)]
    ensures !OnEmptyBroker(events).IsRun(|events|)
  {
    events, w := SecondAcknowledged();
    var before := w;
    events, w := Come(events, w, Poll(0, None));
    PollNext(TP, before, Poll(0, None));
    assert before.state.core.LogOf(TP).Read(1, 0) == [];
    assert !Matches(w.out[0], TP, 0 + 0, w.state.core.LogOf(TP));
  }
}
