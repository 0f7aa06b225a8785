/**
 The stations and the arrival generator of an open queueing network. A server is a
 loop that sleeps while its queue is empty and otherwise serves the head job, then
 passes a copy of the job to one downstream server or, at a sink, drops it. The
 generator feeds new jobs to one server until it reaches its cap.

 The scheduler is not modelled: each step method is called at the virtual time
 `now` at which the loop resumes, the service duration has already elapsed when
 `Complete` is called, and the routing draw is the index `idx`. Time never runs
 backwards, so every step requires `now` to be at least the last time the object saw.
 A `Ready` server looks at its queue at the instant it resumed, so no time passes
 while it is `Ready`: nothing reaches it, and `Step` runs, at any later time.
 */
module Simulation {
  import opened Statistics

  /** A job: its identity and the virtual time it entered its current queue. */
  datatype Job = Job(id: int, arrTime: real)

  /** Where a server's loop stands. */
  datatype Phase =
    | Ready                             // resumed, about to look at its queue
    | Asleep(since: real)               // queue was empty; idle since `since`
    | InService(job: Job, start: real)  // serving `job`, whose service began at `start`

  /** A first-in-first-out service station with its running statistics. */
  class Server {
    const mu: real          // service rate, read only by the exponential draw
    var jobs: seq<Job>
    var phase: Phase
    var waitingTime: real
    var responseTime: real
    var idleTime: real
    ghost var clock: real   // the latest virtual time this server has seen

    /** The waiting time already charged for the job in service. */
    function PendingWait(): real
      reads this
    {
      if phase.InService? then phase.start - phase.job.arrTime else 0.0
    }

    /** Total time spent serving the jobs completed so far (response minus waiting). */
    function ServiceTime(): real
      reads this
    {
      responseTime - (waitingTime - PendingWait())
    }

    /** When the current phase began. */
    ghost function PhaseStart(): real
      reads this
    {
      match phase
      case Ready => clock
      case Asleep(t) => t
      case InService(_, s) => s
    }

    /**
     Queued jobs arrived in the past; a sleeping server has an empty queue; a job's
     service starts no earlier than its arrival; the response time covers the
     waiting time of every completed job; and the idle periods and the service
     periods recorded so far fit before the start of the current phase.
     */
    ghost predicate Valid()
      reads this
    {
      && (forall j :: j in jobs ==> j.arrTime <= clock)
      && (phase.Asleep? ==> jobs == [])
      && (phase.InService? ==> phase.job.arrTime <= phase.start)
      && PhaseStart() <= clock
      && 0.0 <= idleTime
      && PendingWait() <= waitingTime
      && 0.0 <= ServiceTime()
      && idleTime + ServiceTime() <= PhaseStart()
    }

    /** A fresh server at virtual time 0: empty queue, zero statistics. */
    constructor (mu: real)
      ensures Valid()
      ensures this.mu == mu && jobs == [] && phase == Ready && clock == 0.0
      ensures waitingTime == 0.0 && responseTime == 0.0 && idleTime == 0.0
    {
      this.mu := mu;
      jobs := [];
      phase := Ready;
      waitingTime, responseTime, idleTime := 0.0, 0.0, 0.0;
      clock := 0.0;
    }

    /**
     The top of the loop. With an empty queue the server goes to sleep at `now`;
     otherwise it removes the head job, charges its waiting time and starts serving it.
     The loop looks at its queue at the very instant it resumes, so `now` is the
     time the server last saw.
     */
    method Step(now: real)
      requires Valid() && phase.Ready? && clock == now
      modifies this
      ensures Valid() && clock == now
      ensures phase.Asleep? <==> old(jobs) == []
      ensures phase.InService? <==> old(jobs) != []
      ensures old(jobs) == [] ==> phase == Asleep(now) && jobs == [] && waitingTime == old(waitingTime)
      ensures old(jobs) != [] ==>
        && phase == InService(old(jobs)[0], now)
        && jobs == old(jobs)[1..]
        && waitingTime == old(waitingTime) + (now - old(jobs)[0].arrTime)
      ensures old(waitingTime) <= waitingTime
      ensures responseTime == old(responseTime) && idleTime == old(idleTime)
    {
      clock := now;
      if |jobs| == 0 {
        phase := Asleep(now);
      } else {
        var j := jobs[0];
        jobs := jobs[1..];
        waitingTime := waitingTime + (now - j.arrTime);
        phase := InService(j, now);
      }
    }

    /**
     A job with identity `id` arrives at `now`: it joins the tail of the queue, and a
     sleeping server is woken and charges the idle period that just ended.
     */
    method Receive(id: int, now: real)
      requires Valid() && clock <= now
      requires phase.Ready? ==> clock == now
      modifies this
      ensures Valid() && clock == now
      ensures jobs == old(jobs) + [Job(id, now)]
      ensures phase == if old(phase).Asleep? then Ready else old(phase)
      ensures idleTime == old(idleTime) + (if old(phase).Asleep? then now - old(phase).since else 0.0)
      ensures old(idleTime) <= idleTime
      ensures waitingTime == old(waitingTime) && responseTime == old(responseTime)
    {
      clock := now;
      jobs := jobs + [Job(id, now)];
      if phase.Asleep? {
        idleTime := idleTime + (now - phase.since);
        phase := Ready;
      }
    }

    /**
     The service of the current job ends at `now`: its response time is charged, and
     a job with the same identity stamped `now` is passed to `dests[idx]`. A server
     with no destinations is a sink and drops the job.
     */
    method Complete(now: real, dests: seq<Server>, idx: int)
      requires Valid() && phase.InService? && clock <= now
      requires |dests| > 0 ==> 0 <= idx < |dests|
      requires forall d :: d in dests ==> d.Valid() && d.clock <= now
      requires forall d :: d in dests && d != this && d.phase.Ready? ==> d.clock == now
      modifies this, dests
      ensures Valid() && phase == Ready && clock == now
      ensures responseTime == old(responseTime) + (now - old(phase).job.arrTime)
      ensures responseTime - old(responseTime) >= old(PendingWait())
      ensures waitingTime == old(waitingTime) && idleTime == old(idleTime)
      ensures forall d :: d in dests ==> d.Valid() && d.clock <= now
      ensures |dests| == 0 ==> jobs == old(jobs)
      ensures |dests| > 0 ==>
        && dests[idx].jobs == old(dests[idx].jobs) + [Job(old(phase).job.id, now)]
        && !dests[idx].phase.Asleep?
      ensures |dests| > 0 && dests[idx] != this ==>
        && jobs == old(jobs)
        && dests[idx].phase == (if old(dests[idx].phase).Asleep? then Ready else old(dests[idx].phase))
        && dests[idx].waitingTime == old(dests[idx].waitingTime)
        && dests[idx].responseTime == old(dests[idx].responseTime)
        && dests[idx].idleTime == old(dests[idx].idleTime)
             + (if old(dests[idx].phase).Asleep? then now - old(dests[idx].phase).since else 0.0)
      ensures |dests| > 0 ==> forall d :: d in dests && d != dests[idx] && d != this ==> unchanged(d)
    {
      var j := phase.job;
      responseTime := responseTime + (now - j.arrTime);
      phase := Ready;
      clock := now;
      if |dests| > 0 {
        var next := dests[idx];
        next.Receive(j.id, now);
      }
    }

    /** The statistics as they stand, which is what a replicate records at its end. */
    function Snapshot(): (s: Stats)
      reads this
      requires Valid()
      ensures s.waitingTime == waitingTime && s.responseTime == responseTime && s.idleTime == idleTime
      ensures 0.0 <= s.waitingTime && 0.0 <= s.responseTime && 0.0 <= s.idleTime
      ensures !phase.InService? ==> s.waitingTime <= s.responseTime
      ensures s.idleTime + ServiceTime() <= clock
    {
      Stats(waitingTime, responseTime, idleTime)
    }

    /**
     The statistics at the horizon with the idle period still open at the horizon
     charged as idle time.
     */
    function SnapshotAt(horizon: real): (s: Stats)
      reads this
      requires Valid() && clock <= horizon
      ensures s.waitingTime == waitingTime && s.responseTime == responseTime
      ensures idleTime <= s.idleTime
      ensures phase.Asleep? ==> s.idleTime == idleTime + (horizon - phase.since)
      ensures !phase.Asleep? ==> s.idleTime == idleTime
      ensures 0.0 <= s.idleTime && s.idleTime + ServiceTime() <= horizon
    {
      var open := if phase.Asleep? then horizon - phase.since else 0.0;
      Stats(waitingTime, responseTime, idleTime + open)
    }
  }

  /** Feeds new jobs to one server, at most `maxNJobs` of them. */
  class JobGenerator {
    const target: Server
    const maxNJobs: int
    const lam: real          // arrival rate, read only by the exponential draw
    var nJobs: int
    ghost var issued: seq<Job>  // the jobs produced so far, in order
    ghost var clock: real

    /** The count never passes the cap, and the jobs issued are numbered 0, 1, 2, ... in time order. */
    ghost predicate Valid()
      reads this
    {
      && 0 <= nJobs
      && (nJobs <= maxNJobs || nJobs == 0)
      && |issued| == nJobs
      && (forall i :: 0 <= i < |issued| ==> issued[i].id == i && issued[i].arrTime <= clock)
      && (forall i, k :: 0 <= i < k < |issued| ==> issued[i].arrTime <= issued[k].arrTime)
    }

    constructor (server: Server, maxJobs: int, lam: real)
      ensures Valid()
      ensures target == server && maxNJobs == maxJobs && this.lam == lam
      ensures nJobs == 0 && issued == [] && clock == 0.0
    {
      target := server;
      maxNJobs := maxJobs;
      this.lam := lam;
      nJobs := 0;
      issued := [];
      clock := 0.0;
    }

    /**
     An arrival at `now`: below the cap, job `nJobs` stamped `now` joins the target's
     queue, the count goes up and the target is woken; at the cap nothing happens.
     */
    method Arrive(now: real) returns (produced: bool)
      requires Valid() && target.Valid() && clock <= now && target.clock <= now
      requires nJobs < maxNJobs && target.phase.Ready? ==> target.clock == now
      modifies this, target
      ensures Valid() && target.Valid() && clock == now && target.clock <= now
      ensures produced <==> old(nJobs) < maxNJobs
      ensures old(nJobs) <= nJobs
      ensures produced ==>
        && nJobs == old(nJobs) + 1
        && issued == old(issued) + [Job(old(nJobs), now)]
        && target.jobs == old(target.jobs) + [Job(old(nJobs), now)]
        && target.phase == (if old(target.phase).Asleep? then Ready else old(target.phase))
        && target.waitingTime == old(target.waitingTime)
        && target.responseTime == old(target.responseTime)
        && target.idleTime == old(target.idleTime)
             + (if old(target.phase).Asleep? then now - old(target.phase).since else 0.0)
      ensures !produced ==> nJobs == old(nJobs) && issued == old(issued) && unchanged(target)
    {
      clock := now;
      produced := nJobs < maxNJobs;
      if produced {
        target.Receive(nJobs, now);
        issued := issued + [Job(nJobs, now)];
        nJobs := nJobs + 1;
      }
    }
  }

  /**
   A server that goes to sleep at time 0 and is never woken before a horizon of 500:
   the recorded idle time stays 0, so the utilisation computed from it is 1, while
   charging the open idle period gives the utilisation 0 it actually had.
   */
  method NeverWokenServer() returns (asRecorded: real, atHorizon: real)
    ensures asRecorded == 1.0 && atHorizon == 0.0
  {
    var server := new Server(1.0);
    server.Step(0.0);
    var horizon := 500.0;
    asRecorded := Utilization(server.Snapshot().idleTime, horizon);
    atHorizon := Utilization(server.SnapshotAt(horizon).idleTime, horizon);
  }

  /**
   Two arrivals at a station that routes to a second one: the jobs are served in
   the order they arrived, the second waits until the first is done, and the routed
   copy keeps its identity and carries the completion time.
   */
  method TwoJobsThroughOneStation() returns (served: seq<int>, waited: real, downstream: seq<Job>)
    ensures served == [0, 1] && waited == 0.5 && downstream == [Job(0, 2.0)]
  {
    var cpu := new Server(25.0);
    var disk := new Server(20.0);
    disk.Step(0.0);
    var gen := new JobGenerator(cpu, 2, 2.0);
    cpu.Step(0.0);
    var produced := gen.Arrive(1.0);
    cpu.Step(1.0);
    served := [cpu.phase.job.id];
    produced := gen.Arrive(1.5);
    cpu.Complete(2.0, [disk], 0);
    assert cpu.jobs == [Job(1, 1.5)] && disk.jobs == [Job(0, 2.0)];
    cpu.Step(2.0);
    served := served + [cpu.phase.job.id];
    waited := cpu.waitingTime;
    downstream := disk.jobs;
  }

  /**
   With a cap of one job the first arrival produces job 0, which the woken server
   starts at once, and the next arrival produces nothing.
   */
  method CapStopsArrivals() returns (first: bool, second: bool, serving: Job, queue: seq<Job>)
    ensures first && !second && serving == Job(0, 1.0) && queue == []
  {
    var server := new Server(25.0);
    var gen := new JobGenerator(server, 1, 2.0);
    server.Step(0.0);
    first := gen.Arrive(1.0);
    server.Step(1.0);
    second := gen.Arrive(2.0);
    serving := server.phase.job;
    queue := server.jobs;
  }
}
