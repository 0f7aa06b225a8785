# Queueing network simulation: stations, arrivals and replicate statistics

This project models the bookkeeping of a discrete-event simulation of an open queueing
network (CPU, printer, disk and I/O device stations, plus a sink). It covers the
service stations, the capped job generator, and the per-station report built from
several replicates.

- `simulation.dfy`, module `Simulation`:
  - `Job` is a job's identity and the time it entered its current queue.
  - `Server` is a first-in-first-out station. It has a queue, the position of its
    service loop (`Ready`, `Asleep(since)`, `InService(job, start)`) and the three
    accumulators `waitingTime`, `responseTime` and `idleTime`.
  - `JobGenerator` feeds new jobs to one station until it reaches its cap.
  - Each resumption point of the two loops is a method. `Step` is the top of the
    server loop. `Complete` is the end of a service. `Receive` is a job joining a queue
    and waking a sleeping station. `Arrive` is one arrival at the generator.
  - The virtual time `now`, the elapsed service duration and the routing choice `idx`
    are parameters. Each object keeps a ghost `clock`, and every step requires
    `now >= clock`, because virtual time never runs backwards. No time passes
    while a station is `Ready`, because the loop looks at its queue at the instant it
    resumes: `Step`, and any job reaching a `Ready` station, happen at its `clock`.
  - `Server.Valid()` holds after every step. It says that queued jobs arrived in the
    past, that a sleeping station has an empty queue, and that the response time
    covers the waiting time of every completed job. It also says that the recorded
    idle periods and service periods fit before the start of the current phase.
- `statistics.dfy`, module `Statistics`:
  - the replicate snapshot `Stats`;
  - the per-metric column across replicates and its arithmetic mean;
  - utilisation `U = 1 - idleTime / horizon`;
  - per-job averages;
  - the overall system utilisation.
  Floating-point values are modelled as `real`.

## Model

| member | source | states |
|---|---|---|
| `Simulation.Server.constructor` | simulation.py:27-37 | A new station has an empty queue, all three accumulators at 0, and has not yet looked at its queue. |
| `Simulation.Server.Step` | simulation.py:45-61 | Runs at the instant the loop resumed. The station sleeps exactly when its queue is empty, and serves exactly when the queue is non-empty. Serving takes the head job and leaves the old queue minus its first element, in order. `waitingTime` grows by `now - arrTime`, which is non-negative. The other accumulators are unchanged, and `Valid()` is kept. |
| `Simulation.Server.Receive` | simulation.py:70-72 | The job stamped `now` is appended at the tail of the queue. A sleeping station is woken and adds the idle period `now - since` that just ended (line 50). A busy station only queues the job, and a `Ready` station receives only at the instant it resumed. `idleTime` never decreases, and `Valid()` is kept. |
| `Simulation.Server.Complete` | simulation.py:64-72 | `responseTime` grows by `now - arrTime`, which is at least the wait charged for the same job. With destinations, exactly `dests[idx]` gets `Job(id, now)` with the same id appended and is left awake. A woken destination's `idleTime` grows by exactly `now - since`. Every other destination is unchanged. A sink (no destinations) enqueues nothing anywhere. |
| `Simulation.Server.Snapshot` | simulation.py:173-177 | The replicate's record holds the accumulators as they stand. They are non-negative, response covers waiting when no job is in service, and idle time plus the service time of the completed jobs fits in the elapsed time. |
| `Simulation.Server.SnapshotAt` | simulation.py:46-50 | Corrected record at the horizon. An idle period still open at the horizon is added in full: the idle time becomes `idleTime + (horizon - since)`, and is unchanged otherwise. Idle time plus service time never exceeds the horizon, so U lies in [0, 1]. |
| `Simulation.NeverWokenServer` | simulation.py:45-50 | A station asleep from time 0 and never woken before horizon 500 has a recorded U of 1. Once the open idle period is charged, U is 0. |
| `Simulation.JobGenerator.constructor` | simulation.py:87-93 | A new generator is bound to its target and cap, and has produced no jobs. |
| `Simulation.JobGenerator.Arrive` | simulation.py:102-115 | An arrival produces a job exactly when `nJobs < maxNJobs`. It then appends `Job(nJobs, now)` to the target's queue, increments `nJobs` and wakes the target, whose `idleTime` grows by exactly `now - since` if it was asleep. Otherwise nothing changes. `nJobs` never decreases or passes the cap, and the issued ids are `0, 1, 2, ...` in time order. |
| `Simulation.TwoJobsThroughOneStation` | simulation.py:52-72 | Two arrivals are served in arrival order, and the second waits 0.5 for the first. The routed copy keeps id 0 and is stamped with the completion time. |
| `Simulation.CapStopsArrivals` | simulation.py:102-115 | With a cap of one, the first arrival produces job 0, which the woken station starts at once, and the second arrival produces nothing. |
| `Statistics.Column` | simulation.py:199-201 | A metric's column has one value per replicate, in replicate order. |
| `Statistics.Mean` | simulation.py:199-226 | The mean exists exactly for a non-empty column, and the mean times the count is the sum. |
| `Statistics.MeanWithin` | simulation.py:199-226 | The mean of values in `[lo, hi]` lies in `[lo, hi]`. |
| `Statistics.Utilization` | simulation.py:237 | `U * horizon = horizon - idle`, and `0 <= U <= 1` exactly when `0 <= idle <= horizon`. |
| `Statistics.PerJob` | simulation.py:234-236 | A per-job average exists exactly when the job count is non-zero, and the average times the count is the total. With a zero count (an infinity or NaN in the source's floating-point division) there is no average. |
| `Statistics.PerJobOfMean` | simulation.py:234-236 | When every replicate produced the same job count, the mean total divided by that count equals the mean of the replicates' own per-job averages. This is the case in which dividing by one generator's count loses nothing. |
| `Statistics.Summarize` | simulation.py:195-237 | A station's report exists exactly when there is at least one replicate. Each metric is the mean of its column, and U comes from the mean idle time. U lies in [0, 1] when every replicate's idle time lies in `[0, horizon]`. |
| `Statistics.SummaryUtilizationIsMeanUtilization` | simulation.py:237 | The report's U, taken from the mean idle time, equals the mean of the replicates' own utilisations. |
| `Statistics.SystemUtilization` | simulation.py:245 | The overall U exists exactly for a non-empty set of stations, and `U * horizon * n = horizon * n - total idle`. |
| `Statistics.SystemUtilizationIsMeanUtilization` | simulation.py:245 | The overall U equals the mean of the stations' utilisations. |

## Left out

- The discrete-event scheduler is not modelled: the environment, processes, timeouts and the interrupt mechanism (simulation.py:1, 46-48, 71-79, 111-112). Time is the `now` parameter, and the interrupt that wakes a sleeping station is `Receive`. The woken station's idle accounting is done at the same instant.
- The random draws (simulation.py:63, 69, 98) are not modelled. The service duration is the time between `Step` and `Complete`, and the routing choice is the index `idx`. The routing probabilities, and their convergence, are not modelled. `mu` and `lam` are only stored.
- The routing probability lists are not checked. The library draw would reject a malformed distribution, and the model never looks at one.
- The "infinite" timeouts (simulation.py:5, 77, 115) are the `Asleep` phase and a generator at its cap.
- Shortest-job-first and `sjf` (simulation.py:17-18, 53-54) are left out. They sort by a `duration` attribute that `Job` never has, so only the first-in-first-out discipline is modelled, and the `strategy` field is dropped.
- Log files, `log`, `Job.__str__` and the printing itself (simulation.py:13-14, 57-58, 81-83, 104-107, 139-143, 169-171, 229-246) are I/O. The values printed at lines 234, 236, 237 and 245 are modelled by `PerJob`, `Utilization`, `Summarize` and `SystemUtilization`. The overall sums and per-job averages printed at lines 241-244 are not modelled separately.
- The constants and the replicate loop with its seeding (simulation.py:118-171) are configuration and driver code. `Summarize` takes any sequence of snapshots, and the horizon is a parameter (500 at line 119).
- Floating-point rounding is not modelled: all times and statistics are `real`.
- Simulation.Server.Receive: in the source, waking a station before its loop has run once fails, because its sleep handle is still unset. The model lets a fresh station receive jobs, and such a station stays `Ready`.
- Simulation.Server.Complete: the source's "no routing" is a missing destination list. It is modelled as an empty `dests`. An explicitly empty list, which the source would pass to the random draw and fail on, is treated as a sink.
- Statistics.PerJob: the source divides by the job count of the last replicate's generator. The model takes the count as a parameter.
- Statistics.SystemUtilization: the source divides by the literal station count 4 (simulation.py:245). The model divides by the number of idle times given, and returns None for an empty list, a case the source never has.

## Findings

| source | as written | input that shows it | evidently intended | confidence | as-written member | corrected member |
|---|---|---|---|---|---|---|
| simulation.py:45-50 | A station's idle period is added to `idleTime` only when it is woken. An idle period still open when the run stops at the horizon is never added, and line 237 computes U from that `idleTime`. | A station that goes to sleep at time 0 and receives no job before horizon 500 (every station when the arrival cap is 0) records `idleTime` 0 and U = 1. | The open idle period counts up to the horizon: `idleTime` 500, U = 0. Idle time plus busy time never exceeds the horizon. | not executed; high | `Simulation.Server.Snapshot`, exhibited by `Simulation.NeverWokenServer` | `Simulation.Server.SnapshotAt` |
