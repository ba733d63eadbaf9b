// The multi-step drivers interleaved, step by step, with each other and with
// anything else that happens to the job store: each reads a job, decides, and
// performs its operations one by one, the lock released in between.
module DriverRuns {
  import opened Wrappers
  import opened Jobs
  import opened JobRuns
  import opened JobOrder
  import opened JobDrivers

  // markTransferStarted, completeTransferJob, markJobRetryableIfMutable.
  datatype Kind = Starts(transferID: string) | Completes(transferID: string) | Retries(jobID: string, reason: string)

  // Where a driver stands.
  datatype Pc =
    | Reading                                 // about to read its job
    | StartReading                            // completing: about to read it inside markTransferStarted
    | Performing(id: string, todo: seq<JobOp>)
    | Rereading                               // completing: about to read it again
    | Checked(id: string)                     // completing: all checks passed, Complete is next
    | Done(id: string, error: Option<JobError>)

  datatype Driver = Driver(kind: Kind, pc: Pc)

  function Queue(id: string, ops: seq<JobOp>, after: Pc): Pc { if ops == [] then after else Performing(id, ops) }

  function Decide(p: Plan, id: string, after: Pc): Pc {
    if p.Refuse? then Done(id, Some(p.error)) else Queue(id, p.ops, after)
  }

  // completeTransferJob, on the job it has just read and found transferring.
  function Check(job: Job): Pc {
    if job.direction.Send? && job.progressBytes != job.fileSizeBytes then Done(job.id, Some(ProgressOutOfRange))
    else Checked(job.id)
  }

  // What a driver decides from what it reads.
  ghost function Read(s: Store, d: Driver): Pc {
    match d.kind
    case Retries(id, reason) =>
      if reason == "" then Done(id, None)
      else if id !in s.jobs then Done(id, Some(JobNotFound))
      else Decide(RetryPlan(s.jobs[id].status, reason), id, Done(id, None))
    case Starts(t) =>
      var found := FindByTransferID(s, t);
      if found.None? then Done("", Some(if t == "" then TransferIDRequired else JobNotFound))
      else Decide(StartPlan(found.value.status), found.value.id, Done(found.value.id, None))
    case Completes(t) =>
      var found := FindByTransferID(s, t);
      if found.None? then Done("", Some(if t == "" then TransferIDRequired else JobNotFound))
      else if d.pc.StartReading? then Decide(StartPlan(found.value.status), found.value.id, Rereading)
      else if found.value.status.Completed? then Done(found.value.id, None)
      else if found.value.status.Transferring? then Check(found.value)
      else if d.pc.Reading? then StartReading
      else Done(found.value.id, Some(InvalidJobStatus))
  }

  // What follows an operation of a driver.
  function Performed(d: Driver, r: Result<Job, JobError>): Pc
    requires d.pc.Performing? && d.pc.todo != []
  {
    if r.Err? then
      // the plan [Fail] stands for failJobIfMutable, which forgives a terminal job
      Done(d.pc.id, if d.kind.Retries? && d.pc.todo[0].Fail? && r.error == JobTerminal then None else Some(r.error))
    else Queue(d.pc.id, d.pc.todo[1..], if d.kind.Completes? then Rereading else Done(d.pc.id, None))
  }

  // The store operation a driver performs next, if it does not read.
  function NextOp(d: Driver): Option<Step> {
    match d.pc
    case Performing(id, todo) => if todo == [] then None else Some(On(id, todo[0]))
    case Checked(id) => Some(On(id, Complete))
    case _ => None
  }

  // One step of a driver: one read, or one operation.
  ghost function Advanced(s: Store, d: Driver): (Store, Driver) {
    match d.pc
    case Done(_, _) => (s, d)
    case Performing(id, todo) =>
      if todo == [] then (s, d) else var (t, r) := Apply(s, id, todo[0]); (t, d.(pc := Performed(d, r)))
    case Checked(id) => var (t, r) := Apply(s, id, Complete); (t, d.(pc := Done(id, if r.Err? then Some(r.error) else None)))
    case _ => (s, d.(pc := Read(s, d)))
  }

  // ---- Run alone, a driver is the function its method is proved equal to ----

  ghost function Alone(s: Store, d: Driver, n: nat): (Store, Driver) {
    if n == 0 then (s, d) else var (t, e) := Alone(s, d, n - 1); Advanced(t, e)
  }

  lemma {:induction false} AloneTwice(s: Store, d: Driver, m: nat, n: nat)
    ensures Alone(s, d, m + n) == var (t, e) := Alone(s, d, m); Alone(t, e, n)
    decreases n
  {
    hide Advanced;
    if n > 0 { AloneTwice(s, d, m, n - 1); }
  }

  lemma OneStep(s: Store, d: Driver)
    ensures Alone(s, d, 1) == Advanced(s, d)
  {
    hide Advanced;
    assert Alone(s, d, 0) == (s, d);
  }

  // ---- What one step of a driver decides ----

  // A driver whose transfer or job is not there, or that is given nothing to go
  // by, is done at its first read.
  lemma ReadsNothing(s: Store, d: Driver)
    requires d.pc.Reading? || d.pc.StartReading? || d.pc.Rereading?
    ensures d.kind.Retries? ==>
      && (d.kind.reason == "" ==> Read(s, d) == Done(d.kind.jobID, None))
      && (d.kind.reason != "" && d.kind.jobID !in s.jobs ==> Read(s, d) == Done(d.kind.jobID, Some(JobNotFound)))
    ensures !d.kind.Retries? ==>
      && (d.kind.transferID == "" ==> Read(s, d) == Done("", Some(TransferIDRequired)))
      && (d.kind.transferID != "" && (forall id :: id in s.jobs ==> s.jobs[id].transferID != d.kind.transferID) ==>
            Read(s, d) == Done("", Some(JobNotFound)))
  {
  }

  // A completing driver goes on only with a transferring job that has, if it
  // sends, its whole size reported; any other it starts first, but only once.
  lemma CompletingReads(s: Store, d: Driver, id: string)
    requires Valid(s) && d.kind.Completes? && id in s.jobs && s.jobs[id].transferID == d.kind.transferID != ""
    requires d.pc.Reading? || d.pc.Rereading?
    ensures var job := s.jobs[id];
      Read(s, d)
      == if job.status.Completed? then Done(id, None)
         else if job.status.Transferring? then
           if job.direction.Send? && job.progressBytes != job.fileSizeBytes then Done(id, Some(ProgressOutOfRange)) else Checked(id)
         else if d.pc.Reading? then StartReading
         else Done(id, Some(InvalidJobStatus))
  {
    hide Valid;
    FindIsOrderIndependent(s, d.kind.transferID, id, id);
    FoundItself(s, d.kind.transferID);
    FindIsOrderIndependent(s, d.kind.transferID, id, FindByTransferID(s, d.kind.transferID).value.id);
  }

  // A refused operation ends its driver with the error; only a Fail refused by
  // an ended job is forgiven, and only to a retrying driver.
  lemma RefusalsEndDrivers(s: Store, d: Driver, id: string, op: JobOp, rest: seq<JobOp>)
    requires d.pc == Performing(id, [op] + rest) && Apply(s, id, op).1.Err?
    ensures var (t, e) := Advanced(s, d);
      && t == s
      && e.pc == Done(id, if d.kind.Retries? && op.Fail? && Apply(s, id, op).1.error == JobTerminal then None
                          else Some(Apply(s, id, op).1.error))
  {
    hide Mutate, Precheck, FillEvent, Draft;
    assert ([op] + rest)[0] == op;
  }

  lemma FirstOp(s: Store, id: string, ops: seq<JobOp>)
    requires ops != [] && RunOps(s, id, ops).1.None?
    ensures Apply(s, id, ops[0]).1.Ok? && RunOps(s, id, ops) == RunOps(Apply(s, id, ops[0]).0, id, ops[1..])
  {
    hide Apply;
  }

  // A driver whose operations all succeed performs them, and goes on.
  lemma {:induction false} PerformingAlone(s: Store, d: Driver) returns (n: nat)
    requires d.pc.Performing? && d.pc.todo != [] && RunOps(s, d.pc.id, d.pc.todo).1.None?
    ensures Alone(s, d, n)
            == (RunOps(s, d.pc.id, d.pc.todo).0, d.(pc := if d.kind.Completes? then Rereading else Done(d.pc.id, None)))
    decreases |d.pc.todo|
  {
    hide Apply, Alone, RunOps;
    var (t, r) := Apply(s, d.pc.id, d.pc.todo[0]);
    var e := d.(pc := Performed(d, r));
    OneStep(s, d);
    FirstOp(s, d.pc.id, d.pc.todo);
    if |d.pc.todo| == 1 {
      n := 1;
      NothingToDo(t, d.pc.id);
      assert d.pc.todo[1..] == [];
    } else {
      var k := PerformingAlone(t, e);
      AloneTwice(s, d, 1, k);
      n := 1 + k;
    }
  }

  // A driver that has decided on a plan it can walk.
  lemma PlanAlone(s: Store, d: Driver, id: string, ops: seq<JobOp>) returns (n: nat)
    requires Advanced(s, d) == (s, d.(pc := Queue(id, ops, if d.kind.Completes? then Rereading else Done(id, None))))
    requires RunOps(s, id, ops).1.None?
    ensures Alone(s, d, n) == (RunOps(s, id, ops).0, d.(pc := if d.kind.Completes? then Rereading else Done(id, None)))
  {
    hide Advanced, RunOps, Alone;
    OneStep(s, d);
    if ops == [] {
      NothingToDo(s, id);
      n := 1;
    } else {
      var k := PerformingAlone(s, d.(pc := Performing(id, ops)));
      AloneTwice(s, d, 1, k);
      n := 1 + k;
    }
  }

  lemma StartsAlone(s: Store, t: string) returns (n: nat)
    requires Valid(s) && FindByTransferID(s, t).Some?
    ensures var id := FindByTransferID(s, t).value.id;
      && id in s.jobs
      && Alone(s, Driver(Starts(t), Reading), n)
         == (StartOutcome(s, id).0, Driver(Starts(t), Done(id, StartOutcome(s, id).1)))
  {
    hide RunOps, Valid, FindByTransferID;
    FoundItself(s, t);
    var job := FindByTransferID(s, t).value;
    StartReachesTransferring(s, job.id);
    if StartPlan(job.status).Refuse? {
      OneStep(s, Driver(Starts(t), Reading));
      n := 1;
    } else {
      n := PlanAlone(s, Driver(Starts(t), Reading), job.id, StartPlan(job.status).ops);
    }
  }

  lemma FoundItself(s: Store, t: string)
    requires Valid(s) && FindByTransferID(s, t).Some?
    ensures var job := FindByTransferID(s, t).value; job.id in s.jobs && s.jobs[job.id] == job && job.transferID == t
  {
    hide GoodLog;
    var job := FindByTransferID(s, t).value;
    var id :| id in s.jobs && s.jobs[id] == job;
    assert GoodJob(id, job, s.sequence);
  }

  lemma RetriesAlone(s: Store, id: string, reason: string) returns (n: nat)
    requires id in s.jobs
    ensures Alone(s, Driver(Retries(id, reason), Reading), n)
            == (RetryOutcome(s, id, reason).0, Driver(Retries(id, reason), Done(id, RetryOutcome(s, id, reason).1)))
  {
    hide RunOps, Alone, RetryOutcome, Apply, RetryPath, Allowed;
    var d := Driver(Retries(id, reason), Reading);
    RetryByCases(s, id, reason);
    OneStep(s, d);
    n := 1;
    if reason != "" {
      RetryReachesRetryable(s, id, reason);
      var ops := RetryPlan(s.jobs[id].status, reason).ops;
      if s.jobs[id].status.IsTerminal() {
        FailIsRefusedOnTerminal(s, id, reason);
        FailRefused(s, id, reason);
        AloneTwice(s, d, 1, 1);
        OneStep(s, d.(pc := Performing(id, ops)));
        n := 2;
      } else {
        RetryPathIsAllowed(s.jobs[id].status, reason);
        AllowedPathIsWalked(s, id, ops, RetryPath(s.jobs[id].status));
        n := PlanAlone(s, d, id, ops);
      }
    }
  }

  lemma RetryByCases(s: Store, id: string, reason: string)
    requires id in s.jobs
    ensures reason == "" ==> RetryOutcome(s, id, reason) == (s, None)
    ensures reason != "" ==> RetryPlan(s.jobs[id].status, reason).Perform?
    ensures reason != "" && !s.jobs[id].status.IsTerminal() ==>
      RetryOutcome(s, id, reason).0 == RunOps(s, id, RetryPlan(s.jobs[id].status, reason).ops).0
  {
    hide RunOps;
  }

  lemma FailRefused(s: Store, id: string, reason: string)
    requires id in s.jobs && s.jobs[id].status.IsTerminal() && reason != ""
    ensures Apply(s, id, Fail(reason)) == (s, Err(JobTerminal))
  {
  }

  lemma CompletesAlone(s: Store, t: string) returns (n: nat)
    requires Valid(s) && FindByTransferID(s, t).Some? && t != ""
    ensures var id := FindByTransferID(s, t).value.id;
      && id in s.jobs
      && Alone(s, Driver(Completes(t), Reading), n)
         == (CompleteOutcome(s, id).0, Driver(Completes(t), Done(id, CompleteOutcome(s, id).1)))
  {
    hide RunOps, Valid, FindByTransferID, Alone, CompleteOutcome, StartOutcome;
    FoundItself(s, t);
    var job := FindByTransferID(s, t).value;
    var d := Driver(Completes(t), Reading);
    CompleteFrom(s, job.id);
    OneStep(s, d);
    if job.status.Completed? {
      n := 1;
    } else if job.status.Transferring? {
      var k := CheckedAlone(s, d.(pc := Check(job)), job);
      AloneTwice(s, d, 1, k);
      n := 1 + k;
    } else {
      var e := d.(pc := StartReading);
      StartReachesTransferring(s, job.id);
      OneStep(s, e);
      if StartPlan(job.status).Refuse? {
        AloneTwice(s, d, 1, 1);
        n := 2;
      } else {
        StartIsItsPlan(s, job.id);
        var k := PlanAlone(s, e, job.id, StartPlan(job.status).ops);
        var u := StartOutcome(s, job.id).0;
        RunOpsKeepValid(s, job.id, StartPlan(job.status).ops);
        FoundAgain(s, u, t, job.id);
        var f := d.(pc := Rereading);
        OneStep(u, f);
        IDStays(u, job.id);
        var l := CheckedAlone(u, d.(pc := Check(u.jobs[job.id])), u.jobs[job.id]);
        AloneTwice(u, f, 1, l);
        AloneTwice(s, e, k, 1 + l);
        AloneTwice(s, d, 1, k + (1 + l));
        n := 1 + (k + (1 + l));
      }
    }
  }

  lemma StartIsItsPlan(s: Store, id: string)
    requires id in s.jobs && StartPlan(s.jobs[id].status).Perform?
    ensures StartOutcome(s, id) == RunOps(s, id, StartPlan(s.jobs[id].status).ops)
  {
  }

  lemma IDStays(s: Store, id: string)
    requires Valid(s) && id in s.jobs
    ensures s.jobs[id].id == id
  {
    hide GoodLog;
    assert GoodJob(id, s.jobs[id], s.sequence);
  }

  // The last leg of a completion, from a job found transferring.
  function LastLeg(s: Store, id: string): (Store, Option<JobError>)
    requires id in s.jobs
  {
    if s.jobs[id].direction.Send? && s.jobs[id].progressBytes != s.jobs[id].fileSizeBytes then (s, Some(ProgressOutOfRange))
    else RunOps(s, id, [Complete])
  }

  lemma CheckedAlone(s: Store, d: Driver, job: Job) returns (n: nat)
    requires job.id in s.jobs && s.jobs[job.id] == job && job.status.Transferring? && d.kind.Completes? && d.pc == Check(job)
    ensures Alone(s, d, n) == (LastLeg(s, job.id).0, d.(pc := Done(job.id, LastLeg(s, job.id).1)))
  {
    hide Apply;
    if d.pc.Done? {
      n := 0;
    } else {
      OneStep(s, d);
      n := 1;
      var (t, r) := Apply(s, job.id, Complete);
      assert r.Ok? ==> RunOps(t, job.id, []) == (t, None);
    }
  }

  lemma CompleteFrom(s: Store, id: string)
    requires id in s.jobs
    ensures var st := s.jobs[id].status;
      CompleteOutcome(s, id) ==
        if st.Completed? then (s, None)
        else if st.Transferring? then LastLeg(s, id)
        else if StartPlan(st).Refuse? then StartOutcome(s, id)
        else if id in StartOutcome(s, id).0.jobs then LastLeg(StartOutcome(s, id).0, id)
        else CompleteOutcome(s, id)
  {
    hide RunOps, StartOutcome;
    StartReachesTransferring(s, id);
  }

  // ---- Interleavings ----

  // The store, and every driver launched so far.
  datatype Interleaved = Interleaved(store: Store, drivers: seq<Driver>)

  // One atomic move: a driver starts, a driver takes its next step, or any
  // other store step happens: a cancel, a failure, a create, a progress report.
  datatype Move = Launch(kind: Kind) | Advance(which: nat) | Outside(step: Step)

  ghost function MoveOn(w: Interleaved, move: Move): Interleaved {
    match move
    case Launch(kind) => w.(drivers := w.drivers + [Driver(kind, Reading)])
    case Outside(step) => w.(store := Take(w.store, step).0)
    case Advance(n) =>
      if n >= |w.drivers| then w
      else var (t, d) := Advanced(w.store, w.drivers[n]); Interleaved(t, w.drivers[n := d])
  }

  ghost function Schedule(w: Interleaved, moves: seq<Move>): Interleaved {
    if moves == [] then w else MoveOn(Schedule(w, moves[..|moves| - 1]), moves[|moves| - 1])
  }

  ghost predicate FreshMoves(w: Interleaved, moves: seq<Move>) {
    moves != [] ==>
      var before := Schedule(w, moves[..|moves| - 1]);
      var last := moves[|moves| - 1];
      FreshMoves(w, moves[..|moves| - 1]) && (last.Outside? ==> FreshID(before.store, last.step))
  }

  // The store step a move amounts to, if any.
  function StepOf(w: Interleaved, move: Move): seq<Step> {
    match move
    case Launch(_) => []
    case Outside(step) => [step]
    case Advance(n) => if n < |w.drivers| && NextOp(w.drivers[n]).Some? then [NextOp(w.drivers[n]).value] else []
  }

  ghost function StepsOf(w: Interleaved, moves: seq<Move>): seq<Step> {
    if moves == [] then []
    else StepsOf(w, moves[..|moves| - 1]) + StepOf(Schedule(w, moves[..|moves| - 1]), moves[|moves| - 1])
  }

  lemma MoveIsItsStep(w: Interleaved, move: Move)
    requires move.Outside? ==> FreshID(w.store, move.step)
    ensures var steps := StepOf(w, move);
      && |steps| <= 1
      && MoveOn(w, move).store == (if steps == [] then w.store else Take(w.store, steps[0]).0)
      && (steps != [] ==> FreshID(w.store, steps[0]))
  {
    hide Apply, CreateSend, CreateReceive, Read;
  }

  // However drivers and outside steps interleave, the store goes through an
  // ordinary run of store steps.
  lemma {:induction false} InterleavingIsARun(w: Interleaved, moves: seq<Move>)
    requires FreshMoves(w, moves)
    ensures Schedule(w, moves).store == Run(w.store, StepsOf(w, moves))
    ensures FreshIDs(w.store, StepsOf(w, moves))
    decreases |moves|
  {
    hide Take, FreshID, MoveOn, StepOf;
    if moves != [] {
      var before := Schedule(w, moves[..|moves| - 1]);
      var steps := StepsOf(w, moves[..|moves| - 1]);
      InterleavingIsARun(w, moves[..|moves| - 1]);
      MoveIsItsStep(before, moves[|moves| - 1]);
      var more := StepOf(before, moves[|moves| - 1]);
      if more == [] {
        assert steps + more == steps;
      } else {
        assert steps + more == steps + [more[0]];
        assert (steps + [more[0]])[..|steps|] == steps;
      }
    }
  }

  // So no interleaving leaves the lifecycle graph, loses an event, puts
  // progress outside the file, or moves a job that has ended.
  lemma InterleavedDriversStayLegal(w: Interleaved, moves: seq<Move>, id: string)
    requires Valid(w.store) && FreshMoves(w, moves) && id in w.store.jobs
    ensures var t := Schedule(w, moves).store;
      && Valid(t)
      && (w.store.jobs[id].status.IsTerminal() ==>
            id in t.jobs && t.jobs[id] == w.store.jobs[id] && LogOf(t, id) == LogOf(w.store, id))
  {
    hide Schedule, Run, FreshMoves, FreshIDs, Valid, StepsOf;
    InterleavingIsARun(w, moves);
    RunsAreValid(w.store, StepsOf(w, moves));
    if w.store.jobs[id].status.IsTerminal() {
      TerminalJobsAreFrozen(w.store, StepsOf(w, moves), id);
    }
  }

  // ---- What a driver's success means, whatever happened in between ----

  // What a driver still has to do always ends in the status it is for.
  predicate Purposeful(d: Driver) {
    match d.pc
    case Performing(_, todo) =>
      todo != []
      && (match d.kind
          case Retries(_, reason) => todo[|todo| - 1] == MarkRetryable || todo == [Fail(reason)]
          case _ => todo[|todo| - 1] == MarkTransferring)
    case StartReading => d.kind.Completes?
    case Rereading => d.kind.Completes?
    case Checked(_) => d.kind.Completes?
    case _ => true
  }

  lemma StepIsPurposeful(s: Store, d: Driver)
    requires Purposeful(d)
    ensures Purposeful(Advanced(s, d).1) && Advanced(s, d).1.kind == d.kind
  {
    hide Apply, FindByTransferID;
  }

  // The job is where a driver of this kind leaves it.
  predicate Arrived(k: Kind, st: JobStatus) {
    match k
    case Starts(_) => st.Transferring? || st.Completed?
    case Completes(_) => st.Completed?
    case Retries(_, _) => st.Retryable? || st.IsTerminal()
  }

  function TransferOf(k: Kind): string {
    match k
    case Starts(t) => t
    case Completes(t) => t
    case Retries(_, _) => ""
  }

  // The step with which a driver reports success finds or leaves the job there.
  lemma SuccessIsArrival(s: Store, d: Driver)
    requires Valid(s) && Purposeful(d) && !d.pc.Done? && (d.kind.Retries? ==> d.kind.reason != "")
    requires Advanced(s, d).1.pc.Done? && Advanced(s, d).1.pc.error.None?
    ensures var (t, e) := Advanced(s, d);
      e.pc.id in t.jobs && Arrived(d.kind, t.jobs[e.pc.id].status)
  {
    hide Apply, Valid;
    match d.pc
    case Performing(id, todo) => OpArrives(s, id, todo[0]);
    case Checked(id) => OpArrives(s, id, Complete);
    case _ =>
      if FindByTransferID(s, TransferOf(d.kind)).Some? { FoundItself(s, TransferOf(d.kind)); }
  }

  lemma OpArrives(s: Store, id: string, op: JobOp)
    ensures var (t, r) := Apply(s, id, op);
      && (r.Ok? ==> id in t.jobs && t.jobs[id].status == LeadsTo(op, s.jobs[id].status))
      && (r == Err(JobTerminal) ==> t == s && id in s.jobs && s.jobs[id].status.IsTerminal())
  {
    hide FillEvent, Draft;
  }

  ghost predicate AllPurposeful(w: Interleaved) { forall k :: 0 <= k < |w.drivers| ==> Purposeful(w.drivers[k]) }

  // Every completing driver that has reported success points at a job that is
  // Completed.
  ghost predicate CompletionsHold(w: Interleaved) {
    forall k :: 0 <= k < |w.drivers| ==>
      var d := w.drivers[k];
      d.kind.Completes? && d.pc.Done? && d.pc.error.None? ==>
        d.pc.id in w.store.jobs && w.store.jobs[d.pc.id].status.Completed?
  }

  lemma MoveKeepsPurpose(w: Interleaved, move: Move)
    requires AllPurposeful(w)
    ensures AllPurposeful(MoveOn(w, move))
  {
    hide Purposeful, Advanced, Take;
    if move.Advance? && move.which < |w.drivers| { StepIsPurposeful(w.store, w.drivers[move.which]); }
    if move.Launch? { LaunchedIsPurposeful(move.kind); }
  }

  lemma LaunchedIsPurposeful(k: Kind)
    ensures Purposeful(Driver(k, Reading))
  {
  }

  lemma MoveKeepsCompletions(w: Interleaved, move: Move)
    requires Valid(w.store) && AllPurposeful(w) && CompletionsHold(w) && (move.Outside? ==> FreshID(w.store, move.step))
    ensures CompletionsHold(MoveOn(w, move))
  {
    hide Purposeful, Advanced, Take, Valid;
    var t := MoveOn(w, move);
    forall k | 0 <= k < |t.drivers| && t.drivers[k].kind.Completes? && t.drivers[k].pc.Done? && t.drivers[k].pc.error.None?
      ensures t.drivers[k].pc.id in t.store.jobs && t.store.jobs[t.drivers[k].pc.id].status.Completed?
    {
      if move.Advance? && move.which == k && !w.drivers[k].pc.Done? {
        StepIsPurposeful(w.store, w.drivers[k]);
        SuccessIsArrival(w.store, w.drivers[k]);
      } else {
        DoneStays(w, move, k);
        MoveIsItsStep(w, move);
        var steps := StepOf(w, move);
        if steps != [] { TerminalStep(w.store, steps[0], t.drivers[k].pc.id); }
      }
    }
  }

  lemma DoneStays(w: Interleaved, move: Move, k: nat)
    requires k < |MoveOn(w, move).drivers| && MoveOn(w, move).drivers[k].pc.Done?
    requires !(move.Advance? && move.which == k && !w.drivers[k].pc.Done?)
    ensures k < |w.drivers| && MoveOn(w, move).drivers[k] == w.drivers[k]
  {
    hide Read, Apply, Take;
  }

  // So a completion that has succeeded stands, whatever runs beside it and
  // after it.
  lemma {:induction false} CompletionsStand(s: Store, moves: seq<Move>)
    requires Valid(s) && FreshMoves(Interleaved(s, []), moves)
    ensures var w := Schedule(Interleaved(s, []), moves); Valid(w.store) && AllPurposeful(w) && CompletionsHold(w)
    decreases |moves|
  {
    hide MoveOn, Valid, FreshID, Purposeful, StepOf;
    if moves != [] {
      var before := Schedule(Interleaved(s, []), moves[..|moves| - 1]);
      var move := moves[|moves| - 1];
      CompletionsStand(s, moves[..|moves| - 1]);
      MoveKeepsPurpose(before, move);
      MoveKeepsCompletions(before, move);
      MoveIsItsStep(before, move);
      var steps := StepOf(before, move);
      if steps != [] { TakeKeepsValid(before.store, steps[0]); }
    }
  }

  // ---- Completing short ----

  // The last progress successfully reported on a job during these steps.
  function LastReport(s: Store, steps: seq<Step>, id: string): Option<int> {
    if steps == [] then None
    else
      var last := steps[|steps| - 1];
      if last.On? && last.jobID == id && last.op.UpdateProgress? && Take(Run(s, steps[..|steps| - 1]), last).1.Ok?
      then Some(last.op.progressBytes)
      else LastReport(s, steps[..|steps| - 1], id)
  }

  lemma StepMovesProgress(s: Store, step: Step, id: string)
    requires Valid(s) && FreshID(s, step) && id in s.jobs
    ensures var (t, r) := Take(s, step);
      && id in t.jobs && t.jobs[id].fileSizeBytes == s.jobs[id].fileSizeBytes && t.jobs[id].direction == s.jobs[id].direction
      && (s.jobs[id].status.Completed? ==> t.jobs[id].status.Completed?)
      && (t.jobs[id].status.Completed?
          || t.jobs[id].progressBytes == (if step.On? && step.jobID == id && step.op.UpdateProgress? && r.Ok?
                                          then step.op.progressBytes else s.jobs[id].progressBytes))
  {
    hide Valid, Take;
    JobsAfter(s, step);
    if s.jobs[id].status.Completed? { TerminalStep(s, step, id); }
    if step.On? && step.jobID == id { OperationsExactly(s, id, step.op); }
  }

  // A job that has not completed holds the last progress reported on it.
  lemma {:induction false} ProgressIsLastReport(s: Store, steps: seq<Step>, id: string)
    requires Valid(s) && FreshIDs(s, steps) && id in s.jobs
    ensures var t := Run(s, steps);
      && id in t.jobs && t.jobs[id].fileSizeBytes == s.jobs[id].fileSizeBytes && t.jobs[id].direction == s.jobs[id].direction
      && (s.jobs[id].status.Completed? ==> t.jobs[id].status.Completed?)
      && (t.jobs[id].status.Completed?
          || t.jobs[id].progressBytes
             == (if LastReport(s, steps, id).Some? then LastReport(s, steps, id).value else s.jobs[id].progressBytes))
    decreases |steps|
  {
    hide Take, FreshID, Valid;
    if steps != [] {
      ProgressIsLastReport(s, steps[..|steps| - 1], id);
      RunsAreValid(s, steps[..|steps| - 1]);
      StepMovesProgress(Run(s, steps[..|steps| - 1]), steps[|steps| - 1], id);
    }
  }

  lemma {:induction false} OthersLeaveIt(w: Interleaved, moves: seq<Move>, n: nat)
    requires n < |w.drivers| && forall k :: 0 <= k < |moves| ==> moves[k] != Advance(n)
    ensures n < |Schedule(w, moves).drivers| && Schedule(w, moves).drivers[n] == w.drivers[n]
    decreases |moves|
  {
    hide Advanced, Take;
    if moves != [] {
      OthersLeaveIt(w, moves[..|moves| - 1], n);
      assert moves[|moves| - 1] != Advance(n);
    }
  }

  lemma PassedCheck(s: Store, d: Driver)
    requires Valid(s) && !d.pc.Checked? && Purposeful(d) && Advanced(s, d).1.pc.Checked?
    ensures var (t, e) := Advanced(s, d);
      && t == s && e.pc.id in s.jobs && s.jobs[e.pc.id].status.Transferring?
      && (s.jobs[e.pc.id].direction.Send? ==> s.jobs[e.pc.id].progressBytes == s.jobs[e.pc.id].fileSizeBytes)
  {
    hide Apply, Valid;
    if FindByTransferID(s, TransferOf(d.kind)).Some? { FoundItself(s, TransferOf(d.kind)); }
  }

  // A completing driver reads a send job and passes its checks; then anything
  // happens, in any interleaving; then its Complete succeeds. It completes the
  // job short of its size if and only if the last progress reported on the job
  // in between was below the size.
  lemma CompletesShortExactly(w: Interleaved, n: nat, between: seq<Move>)
    requires Valid(w.store) && n < |w.drivers| && Purposeful(w.drivers[n])
    requires !w.drivers[n].pc.Checked? && MoveOn(w, Advance(n)).drivers[n].pc.Checked?
    requires FreshMoves(MoveOn(w, Advance(n)), between)
    requires forall k :: 0 <= k < |between| ==> between[k] != Advance(n)
    requires var checked := MoveOn(w, Advance(n)); var id := checked.drivers[n].pc.id;
             id in w.store.jobs && w.store.jobs[id].direction.Send?
             && Apply(Schedule(checked, between).store, id, Complete).1.Ok?
    ensures var checked := MoveOn(w, Advance(n)); var id := checked.drivers[n].pc.id;
      var atEnd := Schedule(checked, between);
      var report := LastReport(checked.store, StepsOf(checked, between), id);
      && n < |atEnd.drivers| && atEnd.drivers[n].pc == Checked(id)
      && id in atEnd.store.jobs
      && (atEnd.store.jobs[id].progressBytes < atEnd.store.jobs[id].fileSizeBytes
          <==> report.Some? && report.value < w.store.jobs[id].fileSizeBytes)
  {
    hide Advanced, Valid, Schedule, StepsOf, FreshMoves, LastReport, Run, Apply, Purposeful;
    var checked := MoveOn(w, Advance(n));
    var id := checked.drivers[n].pc.id;
    PassedCheck(w.store, w.drivers[n]);
    OthersLeaveIt(checked, between, n);
    InterleavingIsARun(checked, between);
    ProgressIsLastReport(checked.store, StepsOf(checked, between), id);
    CompletesFromTransferring(Schedule(checked, between).store, id);
  }

  lemma CompletesFromTransferring(s: Store, id: string)
    requires Apply(s, id, Complete).1.Ok?
    ensures id in s.jobs && s.jobs[id].status.Transferring?
  {
    hide FillEvent, Draft;
  }

  // Both cases are real: with a report below the size in between, the driver
  // does complete the job it should have refused.
  lemma ShortCompletionHappens(s: Store, t: string, p: int)
    requires Valid(s) && t != "" && FindByTransferID(s, t).Some?
    requires var job := FindByTransferID(s, t).value;
      job.status.Transferring? && job.direction.Send? && job.progressBytes == job.fileSizeBytes && 0 <= p < job.fileSizeBytes
    ensures var id := FindByTransferID(s, t).value.id;
      var w := Schedule(Interleaved(s, []), [Launch(Completes(t)), Advance(0), Outside(On(id, UpdateProgress(p))), Advance(0)]);
      && |w.drivers| == 1 && w.drivers[0].pc == Done(id, None)
      && id in w.store.jobs && w.store.jobs[id].status.Completed?
  {
    hide MoveOn, Schedule, Valid, FindByTransferID;
    FoundItself(s, t);
    var id := FindByTransferID(s, t).value.id;
    FourMoves(Interleaved(s, []), Launch(Completes(t)), Advance(0), Outside(On(id, UpdateProgress(p))), Advance(0));
    ReadsAndChecks(s, t);
    ReportsThenCompletes(s, t, id, p);
  }

  lemma FourMoves(w: Interleaved, a: Move, b: Move, c: Move, d: Move)
    ensures Schedule(w, [a, b, c, d]) == MoveOn(MoveOn(MoveOn(MoveOn(w, a), b), c), d)
  {
    hide MoveOn;
    assert [a][..0] == [] && [a, b][..1] == [a] && [a, b, c][..2] == [a, b] && [a, b, c, d][..3] == [a, b, c];
    assert Schedule(w, [a]) == MoveOn(w, a);
    assert Schedule(w, [a, b]) == MoveOn(MoveOn(w, a), b);
  }

  lemma ReadsAndChecks(s: Store, t: string)
    requires t != "" && FindByTransferID(s, t).Some?
    requires var job := FindByTransferID(s, t).value; job.status.Transferring? && job.progressBytes == job.fileSizeBytes
    ensures MoveOn(MoveOn(Interleaved(s, []), Launch(Completes(t))), Advance(0))
            == Interleaved(s, [Driver(Completes(t), Checked(FindByTransferID(s, t).value.id))])
  {
    hide FindByTransferID, Apply;
    assert MoveOn(Interleaved(s, []), Launch(Completes(t))) == Interleaved(s, [Driver(Completes(t), Reading)]);
  }

  lemma ReportsThenCompletes(s: Store, t: string, id: string, p: int)
    requires id in s.jobs && s.jobs[id].status.Transferring? && 0 <= p <= s.jobs[id].fileSizeBytes
    ensures var w := MoveOn(MoveOn(Interleaved(s, [Driver(Completes(t), Checked(id))]), Outside(On(id, UpdateProgress(p)))), Advance(0));
      && |w.drivers| == 1 && w.drivers[0].pc == Done(id, None)
      && id in w.store.jobs && w.store.jobs[id].status.Completed?
  {
    hide Apply;
    ReportStays(s, id, p);
    var reported := Apply(s, id, UpdateProgress(p)).0;
    CompleteEnds(reported, id);
  }

  lemma ReportStays(s: Store, id: string, p: int)
    requires id in s.jobs && s.jobs[id].status.Transferring? && 0 <= p <= s.jobs[id].fileSizeBytes
    ensures var t := Apply(s, id, UpdateProgress(p)).0; id in t.jobs && t.jobs[id].status.Transferring?
  {
    hide Apply;
    OperationsExactly(s, id, UpdateProgress(p));
  }

  lemma CompleteEnds(s: Store, id: string)
    requires id in s.jobs && s.jobs[id].status.Transferring?
    ensures var (t, r) := Apply(s, id, Complete); r.Ok? && id in t.jobs && t.jobs[id].status.Completed?
  {
    hide Apply;
    OperationsExactly(s, id, Complete);
  }
}
