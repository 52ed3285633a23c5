/** Per-worker quotas (wings_control/proxy/proxy_config.py) and what they bound across workers. */
module ProxyConfig {
  import opened GateOrder
  import opened Queueing

  /** Floor division and remainder, as in the source, for positive `workers`. */
  function SplitStrict(total: int, workers: int, idx: int): int {
    if workers <= 0 then total
    else total / workers + (if 0 <= idx < workers && idx < total % workers then 1 else 0)
  }

  ghost function QuotaSum(total: int, workers: int, n: nat): int {
    if n == 0 then 0 else QuotaSum(total, workers, n - 1) + SplitStrict(total, workers, n - 1)
  }

  lemma {:induction false} PartialQuota(total: int, workers: int, n: nat)
    requires 0 < workers && n <= workers
    ensures QuotaSum(total, workers, n)
         == n * (total / workers) + if n < total % workers then n else total % workers
  {
    if n > 0 {
      PartialQuota(total, workers, n - 1);
      assert n * (total / workers) == (n - 1) * (total / workers) + total / workers;
    }
  }

  /** The quotas of workers 0..W-1 add up to exactly the total and differ by at most one. */
  lemma QuotaConservation(total: int, workers: int)
    requires 0 < workers
    ensures QuotaSum(total, workers, workers) == total
    ensures forall i, j :: SplitStrict(total, workers, i) <= SplitStrict(total, workers, j) + 1
  {
    PartialQuota(total, workers, workers);
    assert total == workers * (total / workers) + total % workers;
  }

  /** Which workers get the extra ones: the first; and what a process that is not one of the workers
      gets: the share rounded down, or everything if there are no workers. */
  lemma QuotaOrder(total: int, workers: int, i: int, j: int)
    ensures 0 <= i <= j < workers ==> SplitStrict(total, workers, i) >= SplitStrict(total, workers, j)
    ensures workers > 0 && !(0 <= i < workers) ==>
              SplitStrict(total, workers, i) * workers <= total < (SplitStrict(total, workers, i) + 1) * workers
    ensures workers <= 0 ==> SplitStrict(total, workers, i) == total
  {
    if workers > 0 {
      var q := total / workers;
      assert total == workers * q + total % workers;
      assert (q + 1) * workers == workers * q + workers;
    }
  }

  ghost function UnindexedSum(total: int, workers: int, n: nat): int {
    if n == 0 then 0 else UnindexedSum(total, workers, n - 1) + SplitStrict(total, workers, -1)
  }

  lemma {:induction false} UnindexedIsFlat(total: int, workers: int, n: nat)
    requires 0 < workers
    ensures UnindexedSum(total, workers, n) == n * (total / workers)
  {
    if n > 0 {
      UnindexedIsFlat(total, workers, n - 1);
      assert n * (total / workers) == (n - 1) * (total / workers) + total / workers;
    }
  }

  /** If no worker is told its index (WORKER_INDEX stays -1) the remainder of the division is lost:
      the quotas add up to the total only when the number of workers divides it. */
  lemma UnindexedWorkersLoseRemainder(total: int, workers: int)
    requires 0 < workers
    ensures UnindexedSum(total, workers, workers) == total <==> total % workers == 0
  {
    UnindexedIsFlat(total, workers, workers);
    assert total == workers * (total / workers) + total % workers;
  }

  /** At the default limit of 1024, three workers that do not know their index admit 1023. */
  lemma OneLostOfThree()
    ensures UnindexedSum(1024, 3, 3) == 1023
  {
    UnindexedIsFlat(1024, 3, 3);
  }

  function Max(a: int, b: int): int {
    if a > b then a else b
  }

  /** LOCAL_PASS_THROUGH_LIMIT, GATE0_LOCAL_CAP, GATE1_LOCAL_CAP and LOCAL_QUEUE_MAXSIZE of one
      worker, clamped as `QueueGate.__init__` does. */
  function WorkerConfig(limit: int, queue: int, workers: int, idx: int, dropOldest: bool, block: bool): Config {
    var local := SplitStrict(limit, workers, idx);
    var gate0 := SplitStrict(workers, workers, idx);
    Config(Max(0, gate0), Max(0, Max(0, local - gate0)), SplitStrict(queue, workers, idx), dropOldest, block)
  }

  ghost function CapacitySum(limit: int, queue: int, workers: int, dropOldest: bool, block: bool, n: nat): int {
    if n == 0 then 0
    else var cfg := WorkerConfig(limit, queue, workers, n - 1, dropOldest, block);
         CapacitySum(limit, queue, workers, dropOldest, block, n - 1) + cfg.g0Cap + cfg.g1Cap
  }

  lemma WorkerCapacity(limit: int, queue: int, workers: int, idx: int, dropOldest: bool, block: bool)
    requires 0 <= idx < workers
    ensures var cfg := WorkerConfig(limit, queue, workers, idx, dropOldest, block);
            cfg.g0Cap == 1 && cfg.g0Cap + cfg.g1Cap == Max(1, SplitStrict(limit, workers, idx))
  {
    assert workers / workers == 1 && workers % workers == 0;
  }

  lemma LocalShare(limit: int, workers: int, idx: int)
    requires 0 <= idx < workers
    ensures Max(1, SplitStrict(limit, workers, idx)) == if limit >= workers then SplitStrict(limit, workers, idx) else 1
  {
    if limit >= workers {
      assert limit / workers >= 1;
    } else if limit >= 0 {
      assert limit / workers == 0;
    } else {
      assert limit / workers < 0;
    }
  }

  lemma {:induction false} PartialCapacity(limit: int, queue: int, workers: int, dropOldest: bool, block: bool, n: nat)
    requires 0 < workers && n <= workers
    ensures CapacitySum(limit, queue, workers, dropOldest, block, n)
         == if limit >= workers then QuotaSum(limit, workers, n) else n
  {
    if n > 0 {
      PartialCapacity(limit, queue, workers, dropOldest, block, n - 1);
      WorkerCapacity(limit, queue, workers, n - 1, dropOldest, block);
      LocalShare(limit, workers, n - 1);
    }
  }

  /** Gate capacities over all workers: the global limit, or one per worker if that is more. */
  lemma CapacityConservation(limit: int, queue: int, workers: int, dropOldest: bool, block: bool)
    requires 0 < workers
    ensures CapacitySum(limit, queue, workers, dropOldest, block, workers) == Max(limit, workers)
  {
    PartialCapacity(limit, queue, workers, dropOldest, block, workers);
    QuotaConservation(limit, workers);
  }

  /** Tickets out across the workers, each after its own run: recorded or handed over. */
  ghost function InFlight(limit: int, queue: int, workers: int,
                          dropOldest: bool, block: bool, runs: seq<seq<Event>>): nat {
    if runs == [] then 0
    else
      var i := |runs| - 1;
      var cfg := WorkerConfig(limit, queue, workers, i, dropOldest, block);
      var s := Run(cfg, Init(cfg), runs[i]);
      InFlight(limit, queue, workers, dropOldest, block, runs[..i])
      + |s.holders| + |GrantedOn(s, G0)| + |GrantedOn(s, G1)|
  }

  lemma {:induction false} PartialInFlight(limit: int, queue: int, workers: int,
                                           dropOldest: bool, block: bool, runs: seq<seq<Event>>)
    ensures InFlight(limit, queue, workers, dropOldest, block, runs)
         <= CapacitySum(limit, queue, workers, dropOldest, block, |runs|)
  {
    if runs != [] {
      var i := |runs| - 1;
      PartialInFlight(limit, queue, workers, dropOldest, block, runs[..i]);
      TokenConservation(WorkerConfig(limit, queue, workers, i, dropOldest, block), runs[i]);
    }
  }

  /** Whatever each worker's gate goes through, the pod as a whole never holds more than
      max(GLOBAL_PASS_THROUGH_LIMIT, WORKERS) tickets at once. */
  lemma GlobalInFlightBound(limit: int, queue: int, workers: int, dropOldest: bool, block: bool, runs: seq<seq<Event>>)
    requires 0 < workers == |runs|
    ensures InFlight(limit, queue, workers, dropOldest, block, runs) <= Max(limit, workers)
  {
    PartialInFlight(limit, queue, workers, dropOldest, block, runs);
    CapacityConservation(limit, queue, workers, dropOldest, block);
  }

  ghost function PlacesSum(limit: int, queue: int, workers: int, dropOldest: bool, block: bool, n: nat): int {
    if n == 0 then 0
    else PlacesSum(limit, queue, workers, dropOldest, block, n - 1)
         + WorkerConfig(limit, queue, workers, n - 1, dropOldest, block).maxQ
  }

  lemma {:induction false} PartialPlaces(limit: int, queue: int, workers: int, dropOldest: bool, block: bool, n: nat)
    ensures PlacesSum(limit, queue, workers, dropOldest, block, n) == QuotaSum(queue, workers, n)
  {
    if n > 0 {
      PartialPlaces(limit, queue, workers, dropOldest, block, n - 1);
    }
  }

  /** The queues of all workers together have exactly GLOBAL_QUEUE_MAXSIZE places. */
  lemma PlacesConservation(limit: int, queue: int, workers: int, dropOldest: bool, block: bool)
    requires 0 < workers
    ensures PlacesSum(limit, queue, workers, dropOldest, block, workers) == queue
  {
    PartialPlaces(limit, queue, workers, dropOldest, block, workers);
    QuotaConservation(queue, workers);
  }

  /** A worker that knows its index can leave a request stranded exactly if the policy is not
      drop_oldest, the mode is block and it has a share of the queue: it always has a ticket. */
  lemma WorkerStrandsIff(limit: int, queue: int, workers: int, idx: int, dropOldest: bool, block: bool)
    requires 0 <= idx < workers
    ensures (exists es :: StrandedAfter(WorkerConfig(limit, queue, workers, idx, dropOldest, block), es))
       <==> !dropOldest && block && SplitStrict(queue, workers, idx) > 0
  {
    WorkerCapacity(limit, queue, workers, idx, dropOldest, block);
    StrandingIff(WorkerConfig(limit, queue, workers, idx, dropOldest, block));
  }
}
