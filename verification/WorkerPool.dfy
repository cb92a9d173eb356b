/**
 The test runner's pool of worker threads: a main thread that spawns workers,
 dispatches jobs and poison jobs through one FIFO queue, collects results from
 another and joins the workers, while an interrupt may set a flag at any time.
 Every queue operation and every read of the flag is a step of its own, and
 the properties hold for all interleavings of the steps.
 */
module WorkerPool {
  import opened Wrappers

  /** A job as it is dispatched. */
  datatype Job = Job(id: nat, isSkip: bool)

  datatype Item = Work(job: Job) | Poison

  /** How a worker hands a job back: unrun after an interrupt, skipped, or run to a return code. */
  datatype Outcome = Broken | Skipped | Ran(returncode: int)

  datatype Result = Result(job: Job, outcome: Outcome)

  /** `Holding` is a worker between taking a job and looking at the interrupt flag. */
  datatype Worker = Waiting | Holding(job: Job) | Running(job: Job) | Ended

  datatype Phase = Spawning | Dispatching | Poisoning | Collecting | Joining | Returned(code: int)

  datatype Counters = Counters(passed: nat, skipped: nat, failed: nat, valgrind: nat, crashed: nat)

  /** `taken` counts the jobs that workers took; it is history, no step depends on it. */
  datatype State = State(
    phase: Phase, dispatched: nat, poisoned: nat, joined: nat, taken: nat,
    input: seq<Item>, output: seq<Result>, workers: seq<Worker>, threadExit: bool,
    collected: seq<Result>, counters: Counters)

  /** The jobs to dispatch, in order, and the number of worker threads. */
  datatype Config = Config(jobs: seq<Job>, processors: nat)

  datatype Action = Main | Interrupt | Take(w: nat) | Look(w: nat) | Finish(w: nat, returncode: int)

  function Init(): State {
    State(Spawning, 0, 0, 0, 0, [], [], [], false, [], Counters(0, 0, 0, 0, 0))
  }

  function Count(c: Counters, o: Outcome): Counters {
    match o
    case Broken => c
    case Skipped => c.(skipped := c.skipped + 1)
    case Ran(code) =>
      if code == 0 then c.(passed := c.passed + 1)
      else if code == 1 then c.(failed := c.failed + 1)
      else if code == 2 then c.(valgrind := c.valgrind + 1)
      else c.(crashed := c.crashed + 1)
  }

  function MainStep(cfg: Config, s: State): Option<State> {
    match s.phase
    case Spawning =>
      if |s.workers| < cfg.processors then Some(s.(workers := s.workers + [Waiting]))
      else Some(s.(phase := Dispatching))
    case Dispatching =>
      if s.dispatched < |cfg.jobs|
      then Some(s.(input := s.input + [Work(cfg.jobs[s.dispatched])], dispatched := s.dispatched + 1))
      else Some(s.(phase := Poisoning))
    case Poisoning =>
      if s.poisoned < cfg.processors then Some(s.(input := s.input + [Poison], poisoned := s.poisoned + 1))
      else Some(s.(phase := Collecting))
    case Collecting =>
      if |s.collected| < |cfg.jobs| then
        if s.output == [] then None
        else Some(s.(output := s.output[1..], collected := s.collected + [s.output[0]],
                     counters := Count(s.counters, s.output[0].outcome)))
      else Some(s.(phase := Joining))
    case Joining =>
      if s.joined < |s.workers| then
        if s.workers[s.joined] != Ended then None else Some(s.(joined := s.joined + 1))
      else
        var total := s.dispatched;
        Some(s.(phase := Returned(if s.counters.passed + s.counters.skipped == total then 0 else 1)))
    case Returned(_) => None
  }

  function TakeStep(s: State, w: nat): Option<State>
    requires w < |s.workers|
  {
    if s.workers[w] != Waiting || s.input == [] then None
    else
      match s.input[0]
      case Poison => Some(s.(input := s.input[1..], workers := s.workers[w := Ended]))
      case Work(job) => Some(s.(input := s.input[1..], workers := s.workers[w := Holding(job)], taken := s.taken + 1))
  }

  function HandBack(s: State, w: nat, r: Result): State
    requires w < |s.workers|
  {
    s.(workers := s.workers[w := Waiting], output := s.output + [r])
  }

  function LookStep(s: State, w: nat): Option<State>
    requires w < |s.workers|
  {
    match s.workers[w]
    case Holding(job) =>
      if s.threadExit then Some(HandBack(s, w, Result(job, Broken)))
      else if job.isSkip then Some(HandBack(s, w, Result(job, Skipped)))
      else Some(s.(workers := s.workers[w := Running(job)]))
    case _ => None
  }

  function FinishStep(s: State, w: nat, returncode: int): Option<State>
    requires w < |s.workers|
  {
    match s.workers[w]
    case Running(job) => Some(HandBack(s, w, Result(job, Ran(returncode))))
    case _ => None
  }

  /** The state after an action, or None where the action is not possible (its thread is blocked or elsewhere). */
  function Step(cfg: Config, s: State, a: Action): Option<State> {
    match a
    case Main => MainStep(cfg, s)
    case Interrupt => if s.threadExit then None else Some(s.(threadExit := true))
    case Take(w) => if w < |s.workers| then TakeStep(s, w) else None
    case Look(w) => if w < |s.workers| then LookStep(s, w) else None
    case Finish(w, code) => if w < |s.workers| then FinishStep(s, w, code) else None
  }

  ghost predicate IsRun(cfg: Config, states: seq<State>, actions: seq<Action>) {
    && |states| == |actions| + 1
    && states[0] == Init()
    && forall i :: 0 <= i < |actions| ==> Step(cfg, states[i], actions[i]) == Some(states[i + 1])
  }

  // What is where

  /** The weight of the job a worker has, for any weighing of jobs. */
  ghost function HeldBy(g: Job -> nat): Worker -> nat {
    (w: Worker) => match w { case Holding(job) => g(job) case Running(job) => g(job) case _ => 0 }
  }

  ghost function ResultWeight(rs: seq<Result>, g: Job -> nat): nat {
    if rs == [] then 0 else ResultWeight(rs[..|rs| - 1], g) + g(rs[|rs| - 1].job)
  }

  ghost function JobWeight(jobs: seq<Job>, g: Job -> nat): nat {
    if jobs == [] then 0 else JobWeight(jobs[..|jobs| - 1], g) + g(jobs[|jobs| - 1])
  }

  ghost function Sum(ws: seq<Worker>, f: Worker -> nat): nat {
    if ws == [] then 0 else Sum(ws[..|ws| - 1], f) + f(ws[|ws| - 1])
  }

  ghost function IsEnded(w: Worker): nat {
    if w == Ended then 1 else 0
  }

  /** The steps a worker still has to take for the job it has. */
  ghost function Load(w: Worker): nat {
    match w
    case Holding(_) => 2
    case Running(_) => 1
    case _ => 0
  }

  /** The jobs number `from` to `to` in order, then n poison jobs. */
  ghost predicate IsQueue(q: seq<Item>, jobs: seq<Job>, from: nat, to: nat, n: nat)
    requires from <= to <= |jobs|
  {
    && |q| == (to - from) + n
    && (forall i :: 0 <= i < to - from ==> q[i] == Work(jobs[from + i]))
    && (forall i :: to - from <= i < |q| ==> q[i] == Poison)
  }

  ghost function Tally(rs: seq<Result>): Counters {
    if rs == [] then Counters(0, 0, 0, 0, 0) else Count(Tally(rs[..|rs| - 1]), rs[|rs| - 1].outcome)
  }

  ghost predicate Good(r: Result) {
    r.outcome == Skipped || r.outcome == Ran(0)
  }

  /** An outcome fits its job and the interrupt flag. */
  ghost predicate Fits(r: Result, threadExit: bool) {
    match r.outcome
    case Broken => threadExit
    case Skipped => r.job.isSkip
    case Ran(_) => !r.job.isSkip
  }

  ghost function Rank(p: Phase): nat {
    match p
    case Spawning => 5
    case Dispatching => 4
    case Poisoning => 3
    case Collecting => 2
    case Joining => 1
    case Returned(_) => 0
  }

  ghost predicate PhaseInv(cfg: Config, s: State) {
    && |s.workers| <= cfg.processors && (s.phase != Spawning ==> |s.workers| == cfg.processors)
    && s.dispatched <= |cfg.jobs| && (s.phase == Spawning ==> s.dispatched == 0)
    && (Rank(s.phase) <= 3 ==> s.dispatched == |cfg.jobs|)
    && s.poisoned <= cfg.processors && (Rank(s.phase) >= 4 ==> s.poisoned == 0)
    && (Rank(s.phase) <= 2 ==> s.poisoned == cfg.processors)
    && |s.collected| <= |cfg.jobs| && (Rank(s.phase) >= 3 ==> s.collected == [])
    && (Rank(s.phase) <= 1 ==> |s.collected| == |cfg.jobs|)
    && s.joined <= cfg.processors && (Rank(s.phase) >= 2 ==> s.joined == 0)
    && (Rank(s.phase) == 0 ==> s.joined == cfg.processors)
    && forall w :: 0 <= w < s.joined && w < |s.workers| ==> s.workers[w] == Ended
  }

  /** The input queue holds the untaken jobs in order, then the poison jobs nobody took yet. */
  ghost predicate QueueInv(cfg: Config, s: State) {
    var ended := Sum(s.workers, IsEnded);
    && s.taken <= s.dispatched <= |cfg.jobs|
    && ended <= s.poisoned
    && IsQueue(s.input, cfg.jobs, s.taken, s.dispatched, s.poisoned - ended)
    && (ended > 0 ==> s.taken == |cfg.jobs|)
    && (s.poisoned > 0 ==> s.dispatched == |cfg.jobs|)
  }

  /**
   Every taken job is in exactly one place, with a worker, in the output
   queue or collected: however jobs are weighed, the weights agree.
   */
  ghost predicate JobInv(cfg: Config, s: State, g: Job -> nat) {
    && s.taken <= |cfg.jobs|
    && Sum(s.workers, HeldBy(g)) + ResultWeight(s.output, g) + ResultWeight(s.collected, g)
       == JobWeight(cfg.jobs[..s.taken], g)
  }

  ghost predicate ResultInv(s: State) {
    && (forall i :: 0 <= i < |s.output| ==> Fits(s.output[i], s.threadExit))
    && (forall i :: 0 <= i < |s.collected| ==> Fits(s.collected[i], s.threadExit))
    && (forall w :: 0 <= w < |s.workers| && s.workers[w].Running? ==> !s.workers[w].job.isSkip)
    && s.counters == Tally(s.collected)
    && (s.phase.Returned? ==> s.phase.code == if s.counters.passed + s.counters.skipped == s.dispatched then 0 else 1)
  }

  ghost predicate Inv(cfg: Config, s: State) {
    PhaseInv(cfg, s) && QueueInv(cfg, s) && ResultInv(s)
  }

  // Bookkeeping of the sums

  lemma {:induction false} SumUpdate(ws: seq<Worker>, f: Worker -> nat, w: nat, x: Worker)
    requires w < |ws|
    ensures Sum(ws[w := x], f) + f(ws[w]) == Sum(ws, f) + f(x)
  {
    var last := |ws| - 1;
    if w == last {
      assert ws[w := x][..last] == ws[..last];
    } else {
      assert ws[w := x][..last] == ws[..last][w := x];
      SumUpdate(ws[..last], f, w, x);
    }
  }

  lemma AppendWorker(ws: seq<Worker>, x: Worker, f: Worker -> nat)
    ensures Sum(ws + [x], f) == Sum(ws, f) + f(x)
  {
    assert (ws + [x])[..|ws|] == ws;
  }

  lemma AppendResult(rs: seq<Result>, r: Result, g: Job -> nat)
    ensures ResultWeight(rs + [r], g) == ResultWeight(rs, g) + g(r.job)
    ensures Tally(rs + [r]) == Count(Tally(rs), r.outcome)
  {
    assert (rs + [r])[..|rs|] == rs;
  }

  lemma {:induction false} FirstResult(rs: seq<Result>, g: Job -> nat)
    requires rs != []
    ensures ResultWeight(rs, g) == g(rs[0].job) + ResultWeight(rs[1..], g)
  {
    var last := |rs| - 1;
    if last > 0 {
      FirstResult(rs[..last], g);
      assert rs[..last][1..] == rs[1..][..last - 1];
    }
  }

  lemma {:induction false} BusyExists(ws: seq<Worker>, g: Job -> nat) returns (w: nat)
    requires Sum(ws, HeldBy(g)) > 0
    ensures w < |ws| && (ws[w].Holding? || ws[w].Running?)
  {
    var last := |ws| - 1;
    if ws[last].Holding? || ws[last].Running? {
      w := last;
    } else {
      w := BusyExists(ws[..last], g);
    }
  }

  ghost function One(job: Job): nat {
    1
  }

  lemma {:induction false} OnesCount(rs: seq<Result>, jobs: seq<Job>)
    ensures ResultWeight(rs, One) == |rs| && JobWeight(jobs, One) == |jobs|
    decreases |rs| + |jobs|
  {
    if rs != [] {
      OnesCount(rs[..|rs| - 1], jobs);
    } else if jobs != [] {
      OnesCount(rs, jobs[..|jobs| - 1]);
    }
  }

  ghost function Is(j: Job): Job -> nat {
    (job: Job) => if job == j then 1 else 0
  }

  ghost function JobsOf(rs: seq<Result>): seq<Job> {
    seq(|rs|, i requires 0 <= i < |rs| => rs[i].job)
  }

  lemma {:induction false} OccurrencesOfJob(jobs: seq<Job>, j: Job)
    ensures JobWeight(jobs, Is(j)) == multiset(jobs)[j]
  {
    if jobs != [] {
      var last := |jobs| - 1;
      assert jobs == jobs[..last] + [jobs[last]];
      OccurrencesOfJob(jobs[..last], j);
    }
  }

  lemma {:induction false} WeightOfJobs(rs: seq<Result>, g: Job -> nat)
    ensures ResultWeight(rs, g) == JobWeight(JobsOf(rs), g)
  {
    if rs != [] {
      var last := |rs| - 1;
      WeightOfJobs(rs[..last], g);
      assert JobsOf(rs)[..last] == JobsOf(rs[..last]);
    }
  }

  lemma {:induction false} EndedAtMost(ws: seq<Worker>)
    ensures Sum(ws, IsEnded) <= |ws|
    ensures (forall w :: 0 <= w < |ws| ==> ws[w] == Ended) <==> Sum(ws, IsEnded) == |ws|
  {
    if ws != [] {
      var last := |ws| - 1;
      EndedAtMost(ws[..last]);
      if forall w :: 0 <= w < last ==> ws[..last][w] == Ended {
        assert forall w :: 0 <= w < last ==> ws[w] == ws[..last][w];
      } else {
        var w :| 0 <= w < last && ws[..last][w] != Ended;
        assert ws[w] != Ended;
      }
    }
  }

  // The invariant

  lemma InitInv(cfg: Config)
    ensures Inv(cfg, Init())
  {
  }

  lemma PhaseMain(cfg: Config, s: State, s': State)
    requires PhaseInv(cfg, s) && MainStep(cfg, s) == Some(s')
    ensures PhaseInv(cfg, s')
  {
  }

  lemma PhaseWorker(cfg: Config, s: State, w: nat, s': State)
    requires PhaseInv(cfg, s) && WorkerStep(s, w, s')
    ensures PhaseInv(cfg, s')
  {
  }

  /** Some step of worker w. */
  ghost predicate WorkerStep(s: State, w: nat, s': State) {
    && w < |s.workers|
    && (TakeStep(s, w) == Some(s') || LookStep(s, w) == Some(s') || exists code :: FinishStep(s, w, code) == Some(s'))
  }

  lemma QueueMain(cfg: Config, s: State, s': State)
    requires PhaseInv(cfg, s) && QueueInv(cfg, s) && MainStep(cfg, s) == Some(s')
    ensures QueueInv(cfg, s')
  {
    if s.phase == Spawning && |s.workers| < cfg.processors {
      AppendWorker(s.workers, Waiting, IsEnded);
    }
  }

  lemma QueueTake(cfg: Config, s: State, w: nat, s': State)
    requires QueueInv(cfg, s) && w < |s.workers| && TakeStep(s, w) == Some(s')
    ensures QueueInv(cfg, s')
  {
    SumUpdate(s.workers, IsEnded, w, s'.workers[w]);
  }

  lemma QueueOther(cfg: Config, s: State, w: nat, s': State, x: Worker)
    requires QueueInv(cfg, s) && w < |s.workers| && s.workers[w] != Ended && x != Ended
    requires s' == s.(workers := s.workers[w := x], output := s'.output)
    ensures QueueInv(cfg, s')
  {
    SumUpdate(s.workers, IsEnded, w, x);
  }

  lemma JobMain(cfg: Config, s: State, s': State, g: Job -> nat)
    requires JobInv(cfg, s, g) && MainStep(cfg, s) == Some(s')
    ensures JobInv(cfg, s', g)
  {
    if s.phase == Collecting && |s.collected| < |cfg.jobs| {
      JobCollect(s, g);
    } else if s.phase == Spawning && |s.workers| < cfg.processors {
      JobSpawn(s.workers, g);
    } else {
      assert s'.workers == s.workers && s'.output == s.output && s'.collected == s.collected && s'.taken == s.taken;
    }
  }

  lemma JobCollect(s: State, g: Job -> nat)
    requires s.output != []
    ensures ResultWeight(s.output[1..], g) + ResultWeight(s.collected + [s.output[0]], g)
         == ResultWeight(s.output, g) + ResultWeight(s.collected, g)
  {
    FirstResult(s.output, g);
    AppendResult(s.collected, s.output[0], g);
  }

  lemma JobSpawn(ws: seq<Worker>, g: Job -> nat)
    ensures Sum(ws + [Waiting], HeldBy(g)) == Sum(ws, HeldBy(g))
  {
    AppendWorker(ws, Waiting, HeldBy(g));
  }

  lemma JobTake(cfg: Config, s: State, w: nat, s': State, g: Job -> nat)
    requires QueueInv(cfg, s) && JobInv(cfg, s, g) && w < |s.workers| && TakeStep(s, w) == Some(s')
    ensures JobInv(cfg, s', g)
  {
    SumUpdate(s.workers, HeldBy(g), w, s'.workers[w]);
    if s.input[0].Work? {
      assert s.input[0] == Work(cfg.jobs[s.taken]);
      assert cfg.jobs[..s.taken + 1][..s.taken] == cfg.jobs[..s.taken];
    }
  }

  lemma JobHandBack(cfg: Config, s: State, w: nat, r: Result, g: Job -> nat)
    requires JobInv(cfg, s, g) && w < |s.workers| && HeldBy(g)(s.workers[w]) == g(r.job)
    ensures JobInv(cfg, HandBack(s, w, r), g)
  {
    var s' := HandBack(s, w, r);
    JobReleased(s.workers, w, g);
    AppendResult(s.output, r, g);
    assert s'.workers == s.workers[w := Waiting] && s'.output == s.output + [r];
    assert s'.collected == s.collected && s'.taken == s.taken;
  }

  lemma JobReleased(ws: seq<Worker>, w: nat, g: Job -> nat)
    requires w < |ws|
    ensures Sum(ws[w := Waiting], HeldBy(g)) + HeldBy(g)(ws[w]) == Sum(ws, HeldBy(g))
  {
    SumUpdate(ws, HeldBy(g), w, Waiting);
  }

  lemma JobLook(cfg: Config, s: State, w: nat, s': State, g: Job -> nat)
    requires JobInv(cfg, s, g) && w < |s.workers| && LookStep(s, w) == Some(s')
    ensures JobInv(cfg, s', g)
  {
    var job := s.workers[w].job;
    if s.threadExit {
      JobHandBack(cfg, s, w, Result(job, Broken), g);
    } else if job.isSkip {
      JobHandBack(cfg, s, w, Result(job, Skipped), g);
    } else {
      SumUpdate(s.workers, HeldBy(g), w, Running(job));
    }
  }

  lemma JobStep(cfg: Config, s: State, a: Action, s': State, g: Job -> nat)
    requires QueueInv(cfg, s) && JobInv(cfg, s, g) && Step(cfg, s, a) == Some(s')
    ensures JobInv(cfg, s', g)
  {
    match a
    case Main => JobMain(cfg, s, s', g);
    case Interrupt =>
    case Take(w) => JobTake(cfg, s, w, s', g);
    case Look(w) => JobLook(cfg, s, w, s', g);
    case Finish(w, code) => JobHandBack(cfg, s, w, Result(s.workers[w].job, Ran(code)), g);
  }

  lemma ResultMain(cfg: Config, s: State, s': State)
    requires ResultInv(s) && MainStep(cfg, s) == Some(s')
    ensures ResultInv(s')
  {
    if s.phase == Collecting && |s.collected| < |cfg.jobs| {
      AppendResult(s.collected, s.output[0], One);
    }
  }

  lemma ResultWorker(s: State, w: nat, s': State)
    requires ResultInv(s) && WorkerStep(s, w, s')
    ensures ResultInv(s')
  {
  }

  lemma InvStep(cfg: Config, s: State, a: Action, s': State)
    requires Inv(cfg, s) && Step(cfg, s, a) == Some(s')
    ensures Inv(cfg, s')
  {
    match a
    case Main =>
      PhaseMain(cfg, s, s');
      QueueMain(cfg, s, s');
      ResultMain(cfg, s, s');
    case Interrupt =>
    case Take(w) => TakeInv(cfg, s, w, s');
    case Look(w) => LookInv(cfg, s, w, s');
    case Finish(w, code) => FinishInv(cfg, s, w, code, s');
  }

  lemma TakeInv(cfg: Config, s: State, w: nat, s': State)
    requires Inv(cfg, s) && w < |s.workers| && TakeStep(s, w) == Some(s')
    ensures Inv(cfg, s')
  {
    PhaseWorker(cfg, s, w, s');
    QueueTake(cfg, s, w, s');
    ResultWorker(s, w, s');
  }

  lemma LookInv(cfg: Config, s: State, w: nat, s': State)
    requires Inv(cfg, s) && w < |s.workers| && LookStep(s, w) == Some(s')
    ensures Inv(cfg, s')
  {
    PhaseWorker(cfg, s, w, s');
    QueueOther(cfg, s, w, s', s'.workers[w]);
    ResultWorker(s, w, s');
  }

  lemma FinishInv(cfg: Config, s: State, w: nat, code: int, s': State)
    requires Inv(cfg, s) && w < |s.workers| && FinishStep(s, w, code) == Some(s')
    ensures Inv(cfg, s')
  {
    PhaseWorker(cfg, s, w, s');
    QueueOther(cfg, s, w, s', Waiting);
    ResultWorker(s, w, s');
  }

  // Every run ends

  ghost function Measure(cfg: Config, s: State): int {
    MeasureWith(cfg, s, Sum(s.workers, Load), Sum(s.workers, IsEnded))
  }

  ghost function MeasureWith(cfg: Config, s: State, load: nat, ended: nat): int {
    4 * (|cfg.jobs| - s.dispatched) + 3 * (s.dispatched - s.taken) + load + (|cfg.jobs| - |s.collected|)
    + (cfg.processors - |s.workers|) + 2 * (cfg.processors - s.poisoned) + (s.poisoned - ended)
    + (cfg.processors - s.joined) + Rank(s.phase) + (if s.threadExit then 0 else 1)
  }

  lemma MeasureIsNatural(cfg: Config, s: State)
    requires PhaseInv(cfg, s) && QueueInv(cfg, s)
    ensures Measure(cfg, s) >= 0
  {
  }

  /** Every step, whoever takes it, uses up at least one unit. */
  lemma MeasureStep(cfg: Config, s: State, a: Action, s': State)
    requires Step(cfg, s, a) == Some(s')
    ensures Measure(cfg, s') < Measure(cfg, s)
  {
    match a
    case Main => MeasureMain(cfg, s, s');
    case Interrupt =>
    case Take(w) => MeasureUpdate(s, w, s');
    case Look(w) => MeasureUpdate(s, w, s');
    case Finish(w, _) => MeasureUpdate(s, w, s');
  }

  lemma MeasureMain(cfg: Config, s: State, s': State)
    requires MainStep(cfg, s) == Some(s')
    ensures Measure(cfg, s') < Measure(cfg, s)
  {
    if s.phase == Spawning && |s.workers| < cfg.processors {
      AppendWorker(s.workers, Waiting, IsEnded);
      AppendWorker(s.workers, Waiting, Load);
    } else {
      MeasureMainOnly(cfg, s, s', Sum(s.workers, Load), Sum(s.workers, IsEnded));
    }
  }

  lemma MeasureMainOnly(cfg: Config, s: State, s': State, load: nat, ended: nat)
    requires MainStep(cfg, s) == Some(s') && !(s.phase == Spawning && |s.workers| < cfg.processors)
    ensures s'.workers == s.workers && MeasureWith(cfg, s', load, ended) < MeasureWith(cfg, s, load, ended)
  {
  }

  lemma MeasureUpdate(s: State, w: nat, s': State)
    requires w < |s.workers| && |s'.workers| == |s.workers| && s'.workers == s.workers[w := s'.workers[w]]
    ensures Sum(s'.workers, IsEnded) + IsEnded(s.workers[w]) == Sum(s.workers, IsEnded) + IsEnded(s'.workers[w])
    ensures Sum(s'.workers, Load) + Load(s.workers[w]) == Sum(s.workers, Load) + Load(s'.workers[w])
  {
    SumUpdate(s.workers, IsEnded, w, s'.workers[w]);
    SumUpdate(s.workers, Load, w, s'.workers[w]);
  }

  lemma {:induction false} RunInv(cfg: Config, states: seq<State>, actions: seq<Action>)
    requires IsRun(cfg, states, actions)
    ensures Inv(cfg, states[|actions|])
    ensures |actions| + Measure(cfg, states[|actions|]) <= 5 * |cfg.jobs| + 4 * cfg.processors + 6
    decreases |actions|
  {
    InitInv(cfg);
    if actions != [] {
      var n := |actions| - 1;
      RunInv(cfg, states[..n + 1], actions[..n]);
      InvStep(cfg, states[n], actions[n], states[n + 1]);
      MeasureStep(cfg, states[n], actions[n], states[n + 1]);
    }
  }

  lemma {:induction false} RunJobs(cfg: Config, states: seq<State>, actions: seq<Action>, g: Job -> nat)
    requires IsRun(cfg, states, actions)
    ensures JobInv(cfg, states[|actions|], g)
    decreases |actions|
  {
    if actions != [] {
      var n := |actions| - 1;
      RunJobs(cfg, states[..n + 1], actions[..n], g);
      RunInv(cfg, states[..n + 1], actions[..n]);
      JobStep(cfg, states[n], actions[n], states[n + 1], g);
    }
  }

  /** A bound on the length of every run, whatever the interleaving and the time of the interrupt. */
  lemma RunsAreFinite(cfg: Config, states: seq<State>, actions: seq<Action>)
    requires IsRun(cfg, states, actions)
    ensures |actions| <= 5 * |cfg.jobs| + 4 * cfg.processors + 6
  {
    RunInv(cfg, states, actions);
    MeasureIsNatural(cfg, states[|actions|]);
  }

  // No deadlock

  /** With a worker, or nothing to do, some thread can always go on until the main thread returns. */
  lemma NoDeadlock(cfg: Config, states: seq<State>, actions: seq<Action>) returns (a: Action)
    requires IsRun(cfg, states, actions) && !states[|actions|].phase.Returned? && (cfg.processors > 0 || cfg.jobs == [])
    ensures a != Interrupt && Step(cfg, states[|actions|], a).Some?
  {
    var s := states[|actions|];
    RunInv(cfg, states, actions);
    RunJobs(cfg, states, actions, One);
    a := Main;
    if MainStep(cfg, s) == None {
      if Sum(s.workers, HeldBy(One)) > 0 {
        var w := BusyExists(s.workers, One);
        a := if s.workers[w].Holding? then Look(w) else Finish(w, 0);
      } else {
        var w := BlockedOnWorker(cfg, s);
        a := Take(w);
      }
    }
  }

  lemma BusyWeight(w: Worker)
    requires w.Holding? || w.Running?
    ensures HeldBy(One)(w) == 1
  {
    assert One(w.job) == 1;
  }

  /** When the main thread waits and no worker has a job, an idle worker has something to take. */
  lemma BlockedOnWorker(cfg: Config, s: State) returns (w: nat)
    requires PhaseInv(cfg, s) && QueueInv(cfg, s) && JobInv(cfg, s, One)
    requires !s.phase.Returned? && (cfg.processors > 0 || cfg.jobs == [])
    requires MainStep(cfg, s) == None && Sum(s.workers, HeldBy(One)) == 0
    ensures w < |s.workers| && TakeStep(s, w).Some?
  {
    EndedAtMost(s.workers);
    OnesCount(s.output, cfg.jobs[..s.taken]);
    OnesCount(s.collected, []);
    assert Sum(s.workers, IsEnded) < |s.workers|;
    w :| 0 <= w < |s.workers| && s.workers[w] != Ended;
    if s.workers[w].Holding? || s.workers[w].Running? {
      BusyWeight(s.workers[w]);
      SumUpdate(s.workers, HeldBy(One), w, Waiting);
    }
    assert |s.input| == (s.dispatched - s.taken) + (s.poisoned - Sum(s.workers, IsEnded));
  }

  /** Without a worker thread the main thread waits for the first result for ever. */
  lemma NoWorkersNoResult(cfg: Config, states: seq<State>, actions: seq<Action>)
    requires IsRun(cfg, states, actions) && cfg.processors == 0 && cfg.jobs != []
    ensures !states[|actions|].phase.Returned?
  {
    RunInv(cfg, states, actions);
    RunJobs(cfg, states, actions, One);
    NothingTaken(cfg, states, actions);
    OnesCount(states[|actions|].collected, []);
  }

  lemma {:induction false} NothingTaken(cfg: Config, states: seq<State>, actions: seq<Action>)
    requires IsRun(cfg, states, actions) && cfg.processors == 0
    ensures states[|actions|].taken == 0
    decreases |actions|
  {
    if actions != [] {
      var n := |actions| - 1;
      NothingTaken(cfg, states[..n + 1], actions[..n]);
      RunInv(cfg, states[..n + 1], actions[..n]);
    }
  }

  // What the runner returns

  lemma {:induction false} TallyAtMost(rs: seq<Result>)
    ensures var c := Tally(rs);
            && c.passed + c.skipped <= |rs|
            && (c.passed + c.skipped == |rs| <==> forall i :: 0 <= i < |rs| ==> Good(rs[i]))
  {
    if rs != [] {
      var last := |rs| - 1;
      TallyAtMost(rs[..last]);
      if forall i :: 0 <= i < last ==> Good(rs[..last][i]) {
        assert forall i :: 0 <= i < last ==> rs[i] == rs[..last][i];
      } else {
        var i :| 0 <= i < last && !Good(rs[..last][i]);
        assert !Good(rs[i]);
      }
    }
  }

  /**
   When the main thread returns, every worker has ended, both queues are
   empty, and exactly the dispatched jobs were collected, each once.  The
   result is 0 if and only if every job was skipped or ran to return code 0,
   which an interrupt that reached any job rules out.
   */
  lemma ReturnedMeans(cfg: Config, states: seq<State>, actions: seq<Action>)
    requires IsRun(cfg, states, actions) && states[|actions|].phase.Returned?
    ensures var s := states[|actions|];
            && (forall w :: 0 <= w < |s.workers| ==> s.workers[w] == Ended) && |s.workers| == cfg.processors
            && s.input == [] && s.output == []
            && multiset(JobsOf(s.collected)) == multiset(cfg.jobs)
            && (s.phase.code == 0 <==> forall i :: 0 <= i < |s.collected| ==> Good(s.collected[i]))
            && (forall i :: 0 <= i < |s.collected| ==> Fits(s.collected[i], s.threadExit))
  {
    RunInv(cfg, states, actions);
    RunJobs(cfg, states, actions, One);
    var s := states[|actions|];
    EndedAtMost(s.workers);
    TallyAtMost(s.collected);
    AllTaken(cfg, s);
    forall j: Job
      ensures multiset(JobsOf(s.collected))[j] == multiset(cfg.jobs)[j]
    {
      RunJobs(cfg, states, actions, Is(j));
      EachCollectedOnce(cfg, s, j);
    }
  }

  lemma AllTaken(cfg: Config, s: State)
    requires PhaseInv(cfg, s) && QueueInv(cfg, s) && JobInv(cfg, s, One) && s.phase.Returned?
    ensures s.taken == |cfg.jobs| && s.input == [] && s.output == []
  {
    EndedAtMost(s.workers);
    OnesCount(s.output, cfg.jobs[..s.taken]);
    OnesCount(s.collected, []);
  }

  lemma EachCollectedOnce(cfg: Config, s: State, j: Job)
    requires PhaseInv(cfg, s) && JobInv(cfg, s, Is(j)) && s.phase.Returned? && s.taken == |cfg.jobs| && s.output == []
    ensures multiset(JobsOf(s.collected))[j] == multiset(cfg.jobs)[j]
  {
    if Sum(s.workers, HeldBy(Is(j))) > 0 {
      var w := BusyExists(s.workers, Is(j));
    }
    assert cfg.jobs[..s.taken] == cfg.jobs;
    OccurrencesOfJob(cfg.jobs, j);
    OccurrencesOfJob(JobsOf(s.collected), j);
    WeightOfJobs(s.collected, Is(j));
  }

  /** A run that no thread can extend has returned; only the interrupt itself may still come. */
  lemma StuckMeansReturned(cfg: Config, states: seq<State>, actions: seq<Action>)
    requires IsRun(cfg, states, actions) && (cfg.processors > 0 || cfg.jobs == [])
    requires forall a :: a != Interrupt ==> Step(cfg, states[|actions|], a) == None
    ensures states[|actions|].phase.Returned?
  {
    RunInv(cfg, states, actions);
    if !states[|actions|].phase.Returned? {
      var a := NoDeadlock(cfg, states, actions);
    }
  }

  /** Without an interrupt no job comes back unrun. */
  lemma {:induction false} UninterruptedRunsAll(cfg: Config, states: seq<State>, actions: seq<Action>)
    requires IsRun(cfg, states, actions) && Interrupt !in actions
    ensures !states[|actions|].threadExit
    ensures forall i :: 0 <= i < |states[|actions|].collected| ==> states[|actions|].collected[i].outcome != Broken
    decreases |actions|
  {
    RunInv(cfg, states, actions);
    if actions != [] {
      var n := |actions| - 1;
      UninterruptedRunsAll(cfg, states[..n + 1], actions[..n]);
    }
  }

  /** All results handed back so far, oldest first. */
  ghost function HandedBack(s: State): seq<Result> {
    s.collected + s.output
  }

  /**
   The record that an action leaves: the return code of the finished process,
   a break after the interrupt, or the job as it was if it is to be skipped.
   */
  ghost function ReportOf(s: State, a: Action): seq<Result> {
    match a
    case Finish(w, code) =>
      if w < |s.workers| && s.workers[w].Running? then [Result(s.workers[w].job, Ran(code))] else []
    case Look(w) =>
      if !(w < |s.workers| && s.workers[w].Holding?) then []
      else
        var job := s.workers[w].job;
        if s.threadExit then [Result(job, Broken)] else if job.isSkip then [Result(job, Skipped)] else []
    case _ => []
  }

  ghost function Reports(states: seq<State>, actions: seq<Action>): seq<Result>
    requires |states| == |actions| + 1
  {
    if actions == [] then []
    else
      var n := |actions| - 1;
      Reports(states[..n + 1], actions[..n]) + ReportOf(states[n], actions[n])
  }

  lemma ReportStep(cfg: Config, s: State, a: Action, s': State)
    requires Step(cfg, s, a) == Some(s')
    ensures HandedBack(s') == HandedBack(s) + ReportOf(s, a)
  {
    if a.Finish? || a.Look? {
      if s'.output != s.output {
        assert s.collected + (s.output + ReportOf(s, a)) == HandedBack(s) + ReportOf(s, a);
      }
    }
  }

  /** The records handed back are those of the workers' actions, none lost, changed or out of order. */
  lemma {:induction false} HandedBackIsReported(cfg: Config, states: seq<State>, actions: seq<Action>)
    requires IsRun(cfg, states, actions)
    ensures HandedBack(states[|actions|]) == Reports(states, actions)
    decreases |actions|
  {
    if actions != [] {
      var n := |actions| - 1;
      RunPrefix(cfg, states, actions);
      HandedBackIsReported(cfg, states[..n + 1], actions[..n]);
      ReportStep(cfg, states[n], actions[n], states[n + 1]);
    }
  }

  lemma {:induction false} ReportedOnce(states: seq<State>, actions: seq<Action>, k: nat)
    requires |states| == |actions| + 1 && k < |actions|
    ensures forall r :: r in ReportOf(states[k], actions[k]) ==> r in Reports(states, actions)
    decreases |actions|
  {
    var n := |actions| - 1;
    if k < n {
      ReportedOnce(states[..n + 1], actions[..n], k);
    }
  }

  /** The return code of every process that ends is in the record of its job. */
  lemma FinishIsReported(cfg: Config, states: seq<State>, actions: seq<Action>, k: nat, w: nat, code: int)
    requires IsRun(cfg, states, actions) && k < |actions| && actions[k] == Finish(w, code)
    ensures w < |states[k].workers| && states[k].workers[w].Running?
    ensures Result(states[k].workers[w].job, Ran(code)) in HandedBack(states[|actions|])
  {
    assert Step(cfg, states[k], actions[k]) == Some(states[k + 1]);
    HandedBackIsReported(cfg, states, actions);
    ReportedOnce(states, actions, k);
  }

  /** An action that spoils the result: a process that fails, or a job met after the interrupt. */
  ghost predicate Spoils(s: State, a: Action) {
    (a.Finish? && a.returncode != 0) || (a.Look? && s.threadExit)
  }

  lemma SpoilsIff(cfg: Config, s: State, a: Action, s': State)
    requires Step(cfg, s, a) == Some(s')
    ensures Spoils(s, a) <==> !AllGood(ReportOf(s, a))
  {
    if Spoils(s, a) {
      var r := ReportOf(s, a)[0];
      assert r in ReportOf(s, a) && !Good(r);
    }
  }

  ghost predicate AllGood(rs: seq<Result>) {
    forall r :: r in rs ==> Good(r)
  }

  ghost predicate Unspoilt(states: seq<State>, actions: seq<Action>)
    requires |states| == |actions| + 1
  {
    forall k :: 0 <= k < |actions| ==> !Spoils(states[k], actions[k])
  }

  lemma AllGoodAppend(a: seq<Result>, b: seq<Result>)
    ensures AllGood(a + b) <==> AllGood(a) && AllGood(b)
  {
    if AllGood(a + b) {
      assert forall r :: r in a || r in b ==> r in a + b;
    }
  }

  lemma UnspoiltSnoc(states: seq<State>, actions: seq<Action>)
    requires |states| == |actions| + 1 && actions != []
    ensures var n := |actions| - 1;
            Unspoilt(states, actions) <==> Unspoilt(states[..n + 1], actions[..n]) && !Spoils(states[n], actions[n])
  {
    var n := |actions| - 1;
    assert forall k :: 0 <= k < n ==> states[..n + 1][k] == states[k] && actions[..n][k] == actions[k];
  }

  lemma RunPrefix(cfg: Config, states: seq<State>, actions: seq<Action>)
    requires IsRun(cfg, states, actions) && actions != []
    ensures var n := |actions| - 1;
            IsRun(cfg, states[..n + 1], actions[..n]) && Step(cfg, states[n], actions[n]) == Some(states[n + 1])
  {
  }

  lemma {:induction false} GoodReportsIff(cfg: Config, states: seq<State>, actions: seq<Action>)
    requires IsRun(cfg, states, actions)
    ensures AllGood(Reports(states, actions)) <==> Unspoilt(states, actions)
    decreases |actions|
  {
    if actions != [] {
      var n := |actions| - 1;
      RunPrefix(cfg, states, actions);
      GoodReportsIff(cfg, states[..n + 1], actions[..n]);
      SpoilsIff(cfg, states[n], actions[n], states[n + 1]);
      AllGoodAppend(Reports(states[..n + 1], actions[..n]), ReportOf(states[n], actions[n]));
      UnspoiltSnoc(states, actions);
    }
  }

  lemma AllCollected(cfg: Config, states: seq<State>, actions: seq<Action>)
    requires IsRun(cfg, states, actions) && states[|actions|].phase.Returned?
    ensures var s := states[|actions|];
            && s.collected == Reports(states, actions) && |s.collected| == |cfg.jobs|
            && s.counters == Tally(s.collected)
  {
    var s := states[|actions|];
    RunInv(cfg, states, actions);
    RunJobs(cfg, states, actions, One);
    AllTaken(cfg, s);
    HandedBackIsReported(cfg, states, actions);
    assert HandedBack(s) == s.collected;
  }

  /**
   The runner returns 1 if some process ended with another return code than 0,
   or a worker looked at a job after the interrupt, and 0 otherwise.
   */
  lemma ReturnCodeIs(cfg: Config, states: seq<State>, actions: seq<Action>)
    requires IsRun(cfg, states, actions) && states[|actions|].phase.Returned?
    ensures states[|actions|].phase.code == if Unspoilt(states, actions) then 0 else 1
  {
    var s := states[|actions|];
    RunInv(cfg, states, actions);
    ReturnedMeans(cfg, states, actions);
    AllCollected(cfg, states, actions);
    GoodReportsIff(cfg, states, actions);
    assert AllGood(s.collected) <==> forall i :: 0 <= i < |s.collected| ==> Good(s.collected[i]);
  }

  ghost function Occurrences(rs: seq<Result>, o: Outcome): nat {
    if rs == [] then 0 else Occurrences(rs[..|rs| - 1], o) + (if rs[|rs| - 1].outcome == o then 1 else 0)
  }

  /** Return codes 0, 1 and 2 are passed, failed and a valgrind error, all others crashed. */
  ghost predicate Counts(c: Counters, rs: seq<Result>) {
    && c.passed == Occurrences(rs, Ran(0)) && c.failed == Occurrences(rs, Ran(1))
    && c.valgrind == Occurrences(rs, Ran(2)) && c.skipped == Occurrences(rs, Skipped)
    && c.passed + c.failed + c.valgrind + c.crashed + c.skipped + Occurrences(rs, Broken) == |rs|
  }

  lemma {:induction false} TallyCounts(rs: seq<Result>)
    ensures Counts(Tally(rs), rs)
  {
    if rs != [] {
      TallyCounts(rs[..|rs| - 1]);
    }
  }

  /** On return each counter is the number of the workers' records with its outcome. */
  lemma CountersMean(cfg: Config, states: seq<State>, actions: seq<Action>)
    requires IsRun(cfg, states, actions) && states[|actions|].phase.Returned?
    ensures |Reports(states, actions)| == |cfg.jobs| && Counts(states[|actions|].counters, Reports(states, actions))
  {
    AllCollected(cfg, states, actions);
    TallyCounts(states[|actions|].collected);
  }

  /**
   What the interrupt leaves to happen from s on: only jobs already running are
   finished, all others come back unrun.
   */
  ghost predicate Winding(s: State, later: State) {
    && s.threadExit && later.threadExit && |s.workers| <= |later.workers|
    && HandedBack(s) <= HandedBack(later)
    && (forall w :: 0 <= w < |later.workers| && later.workers[w].Running? ==>
          w < |s.workers| && s.workers[w] == later.workers[w])
    && forall i :: |HandedBack(s)| <= i < |HandedBack(later)| ==>
                     HandedBack(later)[i].outcome == Broken || Running(HandedBack(later)[i].job) in s.workers
  }

  lemma WindingStep(cfg: Config, s: State, m: State, a: Action, m': State)
    requires Winding(s, m) && Step(cfg, m, a) == Some(m')
    ensures Winding(s, m')
  {
    if a == Main {
      assert HandedBack(m') == HandedBack(m);
    } else if m'.output != m.output {
      assert HandedBack(m') == HandedBack(m) + [m'.output[|m.output|]];
    }
  }

  /** Once the interrupt is seen no further job is started. */
  lemma {:induction false} InterruptStopsWork(cfg: Config, states: seq<State>, actions: seq<Action>, i: nat)
    requires IsRun(cfg, states, actions) && i <= |actions| && states[i].threadExit
    ensures Winding(states[i], states[|actions|])
    decreases |actions|
  {
    if i < |actions| {
      var n := |actions| - 1;
      InterruptStopsWork(cfg, states[..n + 1], actions[..n], i);
      WindingStep(cfg, states[i], states[n], actions[n], states[n + 1]);
    }
  }
}
