/** Starting and stopping a broker. */
module Lifecycle {
  import opened Types

  datatype BrokerState = Created | Starting | Running | Stopping | Stopped
  {
    function Rank(): nat {
      match this
      case Created => 0
      case Starting => 1
      case Running => 2
      case Stopping => 3
      case Stopped => 4
    }
  }

  datatype Task = QuicServer | GrpcServer | Heartbeat | MetricsCollector | Tiering | Compaction

  /** What the outside can see of a start or a stop, in order */
  datatype Event = Entered(state: BrokerState) | Spawned(task: Task) | GrpcSignalled | Aborted(task: Task)
                 | StoreShutdown | ReplicationDrained

  datatype LifecycleError = InvalidState(state: BrokerState) | QuicServerAlreadyStarted

  datatype HealthStatus = HealthStatus(isHealthy: bool, state: BrokerState, quicServerRunning: bool,
                                       grpcServerRunning: bool, backgroundTasksRunning: nat)

  const ALL_TASKS := [QuicServer, GrpcServer, Heartbeat, MetricsCollector, Tiering, Compaction]

  const START_EVENTS := [Entered(Starting), Spawned(QuicServer), Spawned(GrpcServer), Spawned(Heartbeat),
                         Spawned(MetricsCollector), Spawned(Tiering), Spawned(Compaction), Entered(Running)]

  function Aborts(tasks: seq<Task>): (events: seq<Event>)
    ensures |events| == |tasks| && forall i :: 0 <= i < |tasks| ==> events[i] == Aborted(tasks[i])
  {
    if tasks == [] then [] else Aborts(tasks[..|tasks| - 1]) + [Aborted(tasks[|tasks| - 1])]
  }

  function StopEvents(): seq<Event> {
    [Entered(Stopping), GrpcSignalled] + Aborts(ALL_TASKS) + [StoreShutdown, ReplicationDrained, Entered(Stopped)]
  }

  function Next(state: BrokerState, op: Op): BrokerState {
    if op == Start && state == Created then Running
    else if op == Stop && state == Running then Stopped
    else state
  }

  predicate Succeeds(state: BrokerState, op: Op) {
    (op == Start && state == Created) || (op == Stop && state == Running)
  }

  class Broker {
    var state: BrokerState
    var quicServer: bool
    var grpcShutdown: bool
    var backgroundTasks: seq<Task>
    ghost var events: seq<Event>

    /** The five fields of a broker between calls, one combination per state */
    ghost predicate Valid()
      reads this
    {
      match state
      case Created => quicServer && !grpcShutdown && backgroundTasks == [] && events == []
      case Running => !quicServer && grpcShutdown && backgroundTasks == ALL_TASKS && events == START_EVENTS
      case Stopped => !quicServer && !grpcShutdown && backgroundTasks == [] && events == START_EVENTS + StopEvents()
      case _ => false
    }

    constructor ()
      ensures Valid() && state == Created
    {
      state, quicServer, grpcShutdown, backgroundTasks, events := Created, true, false, [], [];
    }

    method Spawn(task: Task)
      modifies this`backgroundTasks, this`events
      ensures backgroundTasks == old(backgroundTasks) + [task] && events == old(events) + [Spawned(task)]
    {
      backgroundTasks := backgroundTasks + [task];
      events := events + [Spawned(task)];
    }

    method Enter(next: BrokerState)
      modifies this`state, this`events
      ensures state == next && events == old(events) + [Entered(next)]
    {
      state := next;
      events := events + [Entered(next)];
    }

    /** `start`; it succeeds exactly from Created, so its second error never occurs */
    method Start() returns (r: Result<(), LifecycleError>)
      requires Valid()
      modifies this
      ensures Valid()
      ensures r == if old(state) == Created then Ok(()) else Err(InvalidState(old(state)))
      ensures state == Next(old(state), Op.Start) && (r.Ok? <==> Succeeds(old(state), Op.Start))
    {
      if state != Created {
        return Err(InvalidState(state));
      }
      Enter(Starting);
      if !quicServer {
        return Err(QuicServerAlreadyStarted);
      }
      quicServer := false;
      Spawn(QuicServer);
      grpcShutdown := true;
      Spawn(GrpcServer);
      Spawn(Heartbeat);
      Spawn(MetricsCollector);
      Spawn(Tiering);
      Spawn(Compaction);
      Enter(Running);
      return Ok(());
    }

    method AbortTasks()
      modifies this`backgroundTasks, this`events
      ensures backgroundTasks == [] && events == old(events) + Aborts(old(backgroundTasks))
    {
      ghost var tasks, before, done := backgroundTasks, events, 0;
      while backgroundTasks != []
        invariant done <= |tasks| && backgroundTasks == tasks[done..]
        invariant events == before + Aborts(tasks[..done])
        decreases |backgroundTasks|
      {
        events := events + [Aborted(backgroundTasks[0])];
        assert tasks[..done + 1][..done] == tasks[..done];
        backgroundTasks := backgroundTasks[1..];
        done := done + 1;
      }
      assert tasks[..done] == tasks;
    }

    /** `stop`; both shutdown attempts go on to the next step when they fail or time out */
    method Stop() returns (r: Result<(), LifecycleError>)
      requires Valid()
      modifies this
      ensures Valid()
      ensures r == if old(state) == Running then Ok(()) else Err(InvalidState(old(state)))
      ensures state == Next(old(state), Op.Stop) && (r.Ok? <==> Succeeds(old(state), Op.Stop))
    {
      if state != Running {
        return Err(InvalidState(state));
      }
      Enter(Stopping);
      if grpcShutdown {
        grpcShutdown := false;
        events := events + [GrpcSignalled];
      }
      AbortTasks();
      events := events + [StoreShutdown];
      events := events + [ReplicationDrained];
      Enter(Stopped);
      return Ok(());
    }

    /** `health_check`: once started, the QUIC server is reported as running for good */
    method HealthCheck() returns (h: HealthStatus)
      requires Valid()
      ensures h.state == state && (h.isHealthy <==> state == Running)
      ensures h.isHealthy ==> h.quicServerRunning && h.grpcServerRunning && h.backgroundTasksRunning == 6
      ensures h.quicServerRunning <==> state != Created
      ensures state == Stopped ==> !h.grpcServerRunning && h.backgroundTasksRunning == 0
    {
      h := HealthStatus(state == Running, state, !quicServer, grpcShutdown, |backgroundTasks|);
    }

    /** Once a broker has stopped: every task that was spawned was aborted later, the store
        was shut down after the last abort, replication was drained after that, and the
        transition to Stopped came last and once. */
    lemma ShutdownOrder()
      requires Valid() && state == Stopped
      ensures exists store, drain ::
                && 0 <= store < drain < |events| - 1
                && events[store] == StoreShutdown && events[drain] == ReplicationDrained
                && events[|events| - 1] == Entered(Stopped)
                && (forall i :: 0 <= i < |events| && events[i] == Entered(Stopped) ==> i == |events| - 1)
                && (forall i :: 0 <= i < |events| && events[i].Aborted? ==> i < store)
      ensures forall i :: 0 <= i < |events| && events[i].Spawned? ==>
                exists j :: i < j < |events| && events[j] == Aborted(events[i].task)
    {
      assert |events| == 19 && events[16] == StoreShutdown && events[17] == ReplicationDrained;
      forall i | 0 <= i < |events| && events[i].Spawned?
        ensures exists j :: i < j < |events| && events[j] == Aborted(events[i].task)
      {
        assert 1 <= i <= 6 && events[i].task == ALL_TASKS[i - 1];
        assert events[9 + i] == Aborted(ALL_TASKS[i - 1]);
      }
    }
  }

  // --- Any sequence of calls -------------------------------------------------------

  datatype Op = Start | Stop

  function StateAfter(ops: seq<Op>): BrokerState {
    if ops == [] then Created else Next(StateAfter(ops[..|ops| - 1]), ops[|ops| - 1])
  }

  /** A start precedes the first `n` calls. */
  ghost predicate StartedBefore(ops: seq<Op>, n: nat)
    requires n <= |ops|
  {
    exists i :: 0 <= i < n && ops[i] == Start
  }

  /** A stop that follows a start precedes the first `n` calls. */
  ghost predicate StoppedBefore(ops: seq<Op>, n: nat)
    requires n <= |ops|
  {
    exists i :: 0 <= i < n && ops[i] == Stop && StartedBefore(ops, i)
  }

  lemma {:induction false} StateByCalls(ops: seq<Op>, n: nat)
    requires n <= |ops|
    ensures StateAfter(ops[..n]) == if !StartedBefore(ops, n) then Created
                                    else if !StoppedBefore(ops, n) then Running else Stopped
  {
    if n > 0 {
      StateByCalls(ops, n - 1);
      assert ops[..n][..n - 1] == ops[..n - 1];
      assert StartedBefore(ops, n) <==> StartedBefore(ops, n - 1) || ops[n - 1] == Start;
      assert StoppedBefore(ops, n) <==> StoppedBefore(ops, n - 1) || (ops[n - 1] == Stop && StartedBefore(ops, n - 1));
    }
  }

  /** Of any sequence of calls, exactly the first start and the first stop after it succeed. */
  lemma SuccessIff(ops: seq<Op>, n: nat)
    requires n < |ops|
    ensures Succeeds(StateAfter(ops[..n]), ops[n]) <==>
            if ops[n] == Start then !StartedBefore(ops, n) else StartedBefore(ops, n) && !StoppedBefore(ops, n)
    ensures StateAfter(ops[..n]).Rank() <= StateAfter(ops[..n + 1]).Rank()
  {
    StateByCalls(ops, n);
    assert ops[..n + 1][..n] == ops[..n];
  }
}
