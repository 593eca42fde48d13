/**
 * The tool-chain executor of one protocol: grid submission with its
 * dry-run counter, the nine guarded stages of a grid run and of a local
 * run, and the dispatch of a single grid sub-task.
 */
module Executor {
  import opened Wrappers
  import opened Partition
  import opened Naming
  import opened Stages
  import opened JobGraph

  /**
   * The grid job manager, working on the shared submission database. Its
   * ids are opaque: the contract of Submit says nothing about them.
   */
  class JobManager {
    var jobs: seq<GridJob>

    constructor ()
      ensures jobs == []
    {
      jobs := [];
    }

    method Submit(job: GridJob) returns (id: int)
      modifies this
      ensures jobs == old(jobs) + [job]
    {
      id := |jobs| + 1;
      jobs := jobs + [job];
    }
  }

  /** A tool-chain operation over the whole list (no indices) or over an index range. */
  datatype Operation = Operation(stage: Stage, indices: Option<(int, int)>)

  /** The tool chain, observed through the operations it has been asked to perform. */
  class ToolChain {
    var calls: seq<Operation>

    constructor ()
      ensures calls == []
    {
      calls := [];
    }

    method Perform(op: Operation)
      modifies this
      ensures calls == old(calls) + [op]
    {
      calls := calls + [op];
    }
  }

  /**
   * The options and the tool facts every executor shares. The list
   * lengths are not among them: each executor has those of its own
   * protocol's file selector.
   */
  datatype Config = Config(
    dryRun: bool,
    skipped: set<Stage>,
    caps: Capabilities,
    chunks: ChunkSizes)

  /** The error a sub-task name outside the nine stages raises. */
  datatype Error = ValueError(message: string)

  /** The message is the format string itself: the sub-task name is never filled in. */
  const UnknownSubTaskMessage: string :=
    "The given subtask '%s' could not be processed. THIS IS A BUG. Please report this to the authors."

  /** The operation a grid sub-task performs: its stage over the slot's index range, if the stage is split. */
  function SubTaskOperation(subTask: string, slot: Option<int>, lens: ListLengths, chunks: ChunkSizes): (r: Result<Operation, Error>)
    ensures r.Success? ==> SubTaskName(r.value.stage) == subTask
    ensures r.Success? ==> (r.value.indices.Some? <==> SlicedList(r.value.stage, lens, chunks).Some?)
    ensures r.Success? && slot.None? && r.value.indices.Some? ==>
              r.value.indices.value == (0, SlicedList(r.value.stage, lens, chunks).value.0)
    ensures r.Failure? ==> r.error == ValueError(UnknownSubTaskMessage)
  {
    match ParseSubTask(subTask)
    case None => Failure(ValueError(UnknownSubTaskMessage))
    case Some(s) =>
      match SlicedList(s, lens, chunks)
      case None => Success(Operation(s, None))
      case Some((items, perJob)) => Success(Operation(s, Some(Indices(slot, items, perJob))))
  }

  /** A sub-task succeeds exactly when it names one of the nine stages. */
  lemma SubTaskKnown(subTask: string, slot: Option<int>, lens: ListLengths, chunks: ChunkSizes)
    ensures SubTaskOperation(subTask, slot, lens, chunks).Success? <==> exists s: Stage :: SubTaskName(s) == subTask
  {
    if s: Stage :| SubTaskName(s) == subTask {
      ParseSubTaskName(s);
    }
  }

  /** The operation of the sub-task that names stage `s`. */
  lemma SubTaskOperationOf(s: Stage, slot: Option<int>, lens: ListLengths, chunks: ChunkSizes)
    ensures SubTaskOperation(SubTaskName(s), slot, lens, chunks)
         == Success(Operation(s, match SlicedList(s, lens, chunks)
                                 case None => None
                                 case Some((items, perJob)) => Some(Indices(slot, items, perJob))))
  {
    ParseSubTaskName(s);
  }

  /** The operations of a local run: each stage over its whole list. */
  function WholeListOperations(plan: seq<Stage>): (ops: seq<Operation>)
    ensures |ops| == |plan|
    ensures forall k :: 0 <= k < |plan| ==> ops[k] == Operation(plan[k], None)
  {
    seq(|plan|, k requires 0 <= k < |plan| => Operation(plan[k], None))
  }

  /**
   * What one call of AddJobsToGrid amounts to, from the transcript `subs0`,
   * dry-run counter `fake0` and manager jobs `jobs0` before it: the
   * submissions it adds are the reference run of `plan` in `ctx` with the
   * ids the jobs got, the returned map is `ctx.inherited` updated with
   * those ids, and a dry run counts the ids up from `fake0 + 1` and leaves
   * the job manager alone, while a real run hands it every job in order.
   */
  ghost predicate RunSubmitted(plan: seq<Stage>, ctx: RunContext, dryRun: bool,
                               subs0: seq<Submitted>, fake0: int, jobs0: seq<GridJob>,
                               subs: seq<Submitted>, fake: int, jobs: seq<GridJob>, jobIds: map<string, int>)
  {
    && ChunksValid(plan, ctx.lens, ctx.chunks)
    && |subs| == |subs0| + |plan|
    && subs[..|subs0|] == subs0
    && var added := subs[|subs0|..];
    && added == ExpectedRun(plan, IdsOf(added), ctx)
    && jobIds == ctx.inherited + StageIdMap(plan, IdsOf(added))
    && (dryRun ==> IdsOf(added) == Consecutive(fake0 + 1, |plan|) && fake == fake0 + |plan| && jobs == jobs0)
    && (!dryRun ==> fake == fake0 && jobs == jobs0 + JobsOf(added))
  }

  class ToolChainExecutor {
    const config: Config
    const protocol: string
    /** The list lengths of the file selector built for `protocol`. */
    const lens: ListLengths
    const toolChain: ToolChain
    const jobManager: JobManager
    var commonParameters: string
    var fakeJobId: int
    /** What the executor reported for each grid submission, in order. */
    ghost var Submissions: seq<Submitted>
    /** The stages a local run took (performed, or announced in a dry run), in order. */
    ghost var LocalSteps: seq<Stage>

    constructor (config: Config, protocol: string, lens: ListLengths, toolChain: ToolChain, jobManager: JobManager)
      ensures this.config == config && this.protocol == protocol && this.lens == lens
      ensures this.toolChain == toolChain && this.jobManager == jobManager
      ensures commonParameters == "" && fakeJobId == 0
      ensures Submissions == [] && LocalSteps == []
    {
      this.config := config;
      this.protocol := protocol;
      this.lens := lens;
      this.toolChain := toolChain;
      this.jobManager := jobManager;
      commonParameters := "";
      fakeJobId := 0;
      Submissions := [];
      LocalSteps := [];
    }

    /** The parameters every grid job is called with, each followed by a space, and the dry-run id start. */
    method SetCommonParameters(parameters: seq<string>, fakeJobId: int)
      modifies this`commonParameters, this`fakeJobId
      ensures commonParameters == JoinedParameters(parameters)
      ensures this.fakeJobId == fakeJobId
    {
      commonParameters := "";
      var i := 0;
      while i < |parameters|
        invariant 0 <= i <= |parameters|
        invariant commonParameters == JoinedParameters(parameters[..i])
      {
        assert parameters[..i + 1][..i] == parameters[..i];
        commonParameters := commonParameters + parameters[i] + " ";
        i := i + 1;
      }
      assert parameters[..i] == parameters;
      this.fakeJobId := fakeJobId;
    }

    /**
     * Submits `command`, split over `listLength` items in slots of
     * `perJob` when a list is given and as a single job otherwise. A dry
     * run only counts: it returns the next fake id and leaves the job
     * manager alone; otherwise the job manager gets the job and returns
     * the id.
     */
    method SubmitGridJob(command: string, listLength: Option<nat>, perJob: int, dependencies: seq<int>, name: Option<string>)
      returns (id: int)
      requires listLength.Some? ==> perJob >= 1
      modifies this`fakeJobId, this`Submissions, jobManager
      ensures var naming := JobNaming(command, name);
        var slots := if listLength.Some? then JobArray(listLength.value, perJob) else SingleJob;
        var job := GridJob(command, commonParameters, dependencies, naming.0, naming.1, slots);
        && Submissions == old(Submissions) + [Submitted(id, job)]
        && (config.dryRun ==> id == old(fakeJobId) + 1 && fakeJobId == id && jobManager.jobs == old(jobManager.jobs))
        && (!config.dryRun ==> fakeJobId == old(fakeJobId) && jobManager.jobs == old(jobManager.jobs) + [job])
    {
      var naming := JobNaming(command, name);
      var slots := SingleJob;
      if listLength.Some? {
        slots := JobArray(listLength.value, perJob);
      }
      var job := GridJob(command, commonParameters, dependencies, naming.0, naming.1, slots);
      if !config.dryRun {
        id := jobManager.Submit(job);
      } else {
        fakeJobId := fakeJobId + 1;
        id := fakeJobId;
      }
      Submissions := Submissions + [Submitted(id, job)];
    }

    /** The context the reference run of this executor uses. */
    ghost function Context(external: seq<int>, inherited: map<string, int>): RunContext
      reads this`commonParameters
    {
      RunContext(protocol, commonParameters, lens, config.chunks, external, inherited)
    }

    /**
     * What holds between the stages of AddJobsToGrid: `plan` are the stages
     * taken among `visited`, submitted with ids `ids` as the reference run
     * prescribes (from the transcript `subs0`, counter `fake0` and job list
     * `jobs0` at the start), and the running dependency lists and id map
     * are those of the reference.
     */
    ghost predicate Built(visited: seq<Stage>, plan: seq<Stage>, ids: seq<int>, deps: seq<int>, trainingDeps: seq<int>,
                          jobIds: map<string, int>, subs: seq<Submitted>, fake: int, jobs: seq<GridJob>,
                          ctx: RunContext, performTraining: bool, subs0: seq<Submitted>, fake0: int, jobs0: seq<GridJob>)
    {
      && plan == SelectFrom(visited, config.skipped, config.caps, performTraining)
      && |plan| == |ids|
      && ChunksValid(plan, ctx.lens, ctx.chunks)
      && deps == ctx.external + ids
      && trainingDeps == ctx.external + (if performTraining then TrainingInputs(plan, ids) else [])
      && jobIds == ctx.inherited + StageIdMap(plan, ids)
      && subs == subs0 + ExpectedRun(plan, ids, ctx)
      && (config.dryRun ==> ids == Consecutive(fake0 + 1, |plan|) && fake == fake0 + |plan| && jobs == jobs0)
      && (!config.dryRun ==> fake == fake0 && jobs == jobs0 + JobsOf(ExpectedRun(plan, ids, ctx)))
    }

    /** Before the first stage nothing is submitted and both dependency lists are the external ones. */
    lemma Started(ctx: RunContext, performTraining: bool, subs0: seq<Submitted>, fake0: int, jobs0: seq<GridJob>)
      ensures Built([], [], [], ctx.external, ctx.external, ctx.inherited, subs0, fake0, jobs0,
                    ctx, performTraining, subs0, fake0, jobs0)
    {
      assert ctx.external + [] == ctx.external;
      assert ctx.inherited + map[] == ctx.inherited;
    }

    /** Submitting a selected stage with the running dependency list keeps Built. */
    lemma SubmittedStep(visited: seq<Stage>, plan: seq<Stage>, ids: seq<int>, deps: seq<int>, trainingDeps: seq<int>,
                        jobIds: map<string, int>, subs: seq<Submitted>, fake: int, jobs: seq<GridJob>,
                        s: Stage, passed: seq<int>, id: int, subs': seq<Submitted>, fake': int, jobs': seq<GridJob>,
                        ctx: RunContext, performTraining: bool, subs0: seq<Submitted>, fake0: int, jobs0: seq<GridJob>)
      requires Built(visited, plan, ids, deps, trainingDeps, jobIds, subs, fake, jobs, ctx, performTraining, subs0, fake0, jobs0)
      requires ChunksValid(Plan(config.skipped, config.caps, performTraining), ctx.lens, ctx.chunks)
      requires Selected(s, config.skipped, config.caps, performTraining)
      requires s.Preprocessing? ==> visited == []
      requires passed == if s.Preprocessing? then deps + (if "preprocessing" in jobIds then [jobIds["preprocessing"]] else [])
                         else if IsTraining(s) then trainingDeps else deps
      requires subs' == subs + [Submitted(id, StageJob(s, passed, ctx))]
      requires config.dryRun ==> id == fake + 1 && fake' == id && jobs' == jobs
      requires !config.dryRun ==> fake' == fake && jobs' == jobs + [StageJob(s, passed, ctx)]
      ensures Built(visited + [s], plan + [s], ids + [id], deps + [id],
                    trainingDeps + (if performTraining && FeedsTraining(s) then [id] else []),
                    jobIds[Key(s) := id], subs', fake', jobs', ctx, performTraining, subs0, fake0, jobs0)
    {
      PlanStep(visited, plan, ids, deps, trainingDeps, jobIds, s, passed, ctx, config.skipped, config.caps, performTraining);
      DepsStep(plan, ids, deps, trainingDeps, jobIds, s, id, ctx, performTraining);
      RecordStep(plan, ids, subs, fake, jobs, s, passed, id, subs', fake', jobs', ctx, config.dryRun, subs0, fake0, jobs0);
    }

    /** The plan after one more selected stage, and the dependencies that stage is submitted with. */
    static lemma PlanStep(visited: seq<Stage>, plan: seq<Stage>, ids: seq<int>, deps: seq<int>, trainingDeps: seq<int>,
                          jobIds: map<string, int>, s: Stage, passed: seq<int>, ctx: RunContext,
                          skipped: set<Stage>, caps: Capabilities, performTraining: bool)
      requires plan == SelectFrom(visited, skipped, caps, performTraining) && |plan| == |ids|
      requires deps == ctx.external + ids
      requires trainingDeps == ctx.external + (if performTraining then TrainingInputs(plan, ids) else [])
      requires jobIds == ctx.inherited + StageIdMap(plan, ids)
      requires ChunksValid(Plan(skipped, caps, performTraining), ctx.lens, ctx.chunks)
      requires Selected(s, skipped, caps, performTraining)
      requires s.Preprocessing? ==> visited == []
      requires passed == if s.Preprocessing? then deps + (if "preprocessing" in jobIds then [jobIds["preprocessing"]] else [])
                         else if IsTraining(s) then trainingDeps else deps
      ensures plan + [s] == SelectFrom(visited + [s], skipped, caps, performTraining)
      ensures ChunksValid(plan + [s], ctx.lens, ctx.chunks)
      ensures passed == StageDependencies(s, plan, ids, ctx)
    {
      SelectFromSnoc(visited, s, skipped, caps, performTraining);
      forall t | t in plan + [s] && SubmittedList(t, ctx.lens, ctx.chunks).Some?
        ensures SubmittedList(t, ctx.lens, ctx.chunks).value.1 >= 1
      {
        assert t in Plan(skipped, caps, performTraining);
      }
      if s.Preprocessing? {
        assert plan == [] && StageIdMap(plan, ids) == map[];
        assert jobIds == ctx.inherited;
      }
    }

    /** The running dependency lists and id map after one more submitted stage. */
    static lemma DepsStep(plan: seq<Stage>, ids: seq<int>, deps: seq<int>, trainingDeps: seq<int>,
                          jobIds: map<string, int>, s: Stage, id: int, ctx: RunContext, performTraining: bool)
      requires |plan| == |ids|
      requires deps == ctx.external + ids
      requires trainingDeps == ctx.external + (if performTraining then TrainingInputs(plan, ids) else [])
      requires jobIds == ctx.inherited + StageIdMap(plan, ids)
      ensures deps + [id] == ctx.external + (ids + [id])
      ensures trainingDeps + (if performTraining && FeedsTraining(s) then [id] else [])
           == ctx.external + (if performTraining then TrainingInputs(plan + [s], ids + [id]) else [])
      ensures jobIds[Key(s) := id] == ctx.inherited + StageIdMap(plan + [s], ids + [id])
    {
      IdsSnoc(plan, ids, s, id);
      AppendAssoc(ctx.external, ids, [id]);
      AppendAssoc(ctx.external, if performTraining then TrainingInputs(plan, ids) else [],
                  if performTraining && FeedsTraining(s) then [id] else []);
      UpdateAfterUnion(ctx.inherited, StageIdMap(plan, ids), Key(s), id);
    }

    /** The submissions, dry-run counter and job manager after one more submitted stage. */
    static lemma RecordStep(plan: seq<Stage>, ids: seq<int>, subs: seq<Submitted>, fake: int, jobs: seq<GridJob>,
                            s: Stage, passed: seq<int>, id: int, subs': seq<Submitted>, fake': int, jobs': seq<GridJob>,
                            ctx: RunContext, dryRun: bool, subs0: seq<Submitted>, fake0: int, jobs0: seq<GridJob>)
      requires |plan| == |ids| && ChunksValid(plan + [s], ctx.lens, ctx.chunks)
      requires passed == StageDependencies(s, plan, ids, ctx)
      requires subs == subs0 + ExpectedRun(plan, ids, ctx)
      requires dryRun ==> ids == Consecutive(fake0 + 1, |plan|) && fake == fake0 + |plan| && jobs == jobs0
      requires !dryRun ==> fake == fake0 && jobs == jobs0 + JobsOf(ExpectedRun(plan, ids, ctx))
      requires subs' == subs + [Submitted(id, StageJob(s, passed, ctx))]
      requires dryRun ==> id == fake + 1 && fake' == id && jobs' == jobs
      requires !dryRun ==> fake' == fake && jobs' == jobs + [StageJob(s, passed, ctx)]
      ensures subs' == subs0 + ExpectedRun(plan + [s], ids + [id], ctx)
      ensures dryRun ==> ids + [id] == Consecutive(fake0 + 1, |plan + [s]|) && fake' == fake0 + |plan + [s]| && jobs' == jobs0
      ensures !dryRun ==> fake' == fake0 && jobs' == jobs0 + JobsOf(ExpectedRun(plan + [s], ids + [id], ctx))
    {
      var job := StageJob(s, passed, ctx);
      RunSnoc(plan, ids, s, id, ctx);
      AppendAssoc(subs0, ExpectedRun(plan, ids, ctx), [Submitted(id, job)]);
      if dryRun {
        NextFakeId(ids, fake0, fake, id);
      } else {
        AppendAssoc(jobs0, JobsOf(ExpectedRun(plan, ids, ctx)), [job]);
      }
    }

    /** The next dry-run id extends a run of consecutive ids. */
    static lemma NextFakeId(ids: seq<int>, fake0: int, fake: int, id: int)
      requires ids == Consecutive(fake0 + 1, |ids|) && fake == fake0 + |ids| && id == fake + 1
      ensures ids + [id] == Consecutive(fake0 + 1, |ids| + 1)
    {
      ConsecutiveSnoc(fake0 + 1, |ids|);
    }

    static lemma AppendAssoc<T>(a: seq<T>, b: seq<T>, c: seq<T>)
      ensures (a + b) + c == a + (b + c)
    {
    }

    /** Updating a union on the right is updating its right operand. */
    static lemma UpdateAfterUnion(a: map<string, int>, b: map<string, int>, k: string, v: int)
      ensures (a + b)[k := v] == a + b[k := v]
    {
    }

    /** Passing over a stage that is not selected keeps Built. */
    lemma SkippedStep(visited: seq<Stage>, plan: seq<Stage>, ids: seq<int>, deps: seq<int>, trainingDeps: seq<int>,
                      jobIds: map<string, int>, subs: seq<Submitted>, fake: int, jobs: seq<GridJob>, s: Stage,
                      ctx: RunContext, performTraining: bool, subs0: seq<Submitted>, fake0: int, jobs0: seq<GridJob>)
      requires Built(visited, plan, ids, deps, trainingDeps, jobIds, subs, fake, jobs, ctx, performTraining, subs0, fake0, jobs0)
      requires !Selected(s, config.skipped, config.caps, performTraining)
      ensures Built(visited + [s], plan, ids, deps, trainingDeps, jobIds, subs, fake, jobs, ctx, performTraining, subs0, fake0, jobs0)
    {
      SelectFromSnoc(visited, s, config.skipped, config.caps, performTraining);
    }

    /**
     * Submits one selected stage of a run with the dependencies `passed`:
     * the stage's command and name, its array over the list it works on
     * (one slot for stages that do not split), and the common parameters.
     */
    method SubmitStage(s: Stage, passed: seq<int>, ghost visited: seq<Stage>, ghost plan: seq<Stage>, ghost ids: seq<int>,
                       ghost deps: seq<int>, ghost trainingDeps: seq<int>, ghost jobIds: map<string, int>,
                       ghost ctx: RunContext, ghost performTraining: bool,
                       ghost subs0: seq<Submitted>, ghost fake0: int, ghost jobs0: seq<GridJob>)
      returns (id: int)
      requires ctx == Context(ctx.external, ctx.inherited)
      requires ChunksValid(Plan(config.skipped, config.caps, performTraining), lens, config.chunks)
      requires Built(visited, plan, ids, deps, trainingDeps, jobIds, Submissions, fakeJobId, jobManager.jobs,
                     ctx, performTraining, subs0, fake0, jobs0)
      requires Selected(s, config.skipped, config.caps, performTraining)
      requires s.Preprocessing? ==> visited == []
      requires passed == if s.Preprocessing? then deps + (if "preprocessing" in jobIds then [jobIds["preprocessing"]] else [])
                         else if IsTraining(s) then trainingDeps else deps
      modifies this`fakeJobId, this`Submissions, jobManager
      ensures Built(visited + [s], plan + [s], ids + [id], deps + [id],
                    trainingDeps + (if performTraining && FeedsTraining(s) then [id] else []),
                    jobIds[Key(s) := id], Submissions, fakeJobId, jobManager.jobs, ctx, performTraining, subs0, fake0, jobs0)
    {
      assert s in Plan(config.skipped, config.caps, performTraining);
      var list := SubmittedList(s, lens, config.chunks);
      var length, perJob := None, 1;
      if list.Some? {
        length, perJob := Some(list.value.0), list.value.1;
      }
      ghost var subs, fake, jobs := Submissions, fakeJobId, jobManager.jobs;
      id := SubmitGridJob(Command(s, protocol), length, perJob, passed, Some(JobName(s, protocol)));
      SubmittedStep(visited, plan, ids, deps, trainingDeps, jobIds, subs, fake, jobs, s, passed, id,
                    Submissions, fakeJobId, jobManager.jobs, ctx, performTraining, subs0, fake0, jobs0);
    }

    /** Once every stage has been passed, Built gives the outcome of the run. */
    lemma Finished(visited: seq<Stage>, plan: seq<Stage>, ids: seq<int>, deps: seq<int>, trainingDeps: seq<int>,
                   jobIds: map<string, int>, subs: seq<Submitted>, fake: int, jobs: seq<GridJob>,
                   ctx: RunContext, performTraining: bool, subs0: seq<Submitted>, fake0: int, jobs0: seq<GridJob>)
      requires visited == AllStages()
      requires Built(visited, plan, ids, deps, trainingDeps, jobIds, subs, fake, jobs, ctx, performTraining, subs0, fake0, jobs0)
      ensures plan == Plan(config.skipped, config.caps, performTraining)
      ensures RunSubmitted(plan, ctx, config.dryRun, subs0, fake0, jobs0, subs, fake, jobs, jobIds)
    {
      IdsOfExpectedRun(plan, ids, ctx);
      assert subs[|subs0|..] == ExpectedRun(plan, ids, ctx);
    }

    /**
     * One block of AddJobsToGrid for a stage other than the concatenation:
     * when the stage is selected it is submitted, waiting for the stage's
     * dependency list, and its id is recorded under the stage's key and
     * appended to the running dependency list (and to the training inputs
     * when training is on and the stage feeds training).
     */
    method AddStage(s: Stage, deps: seq<int>, trainingDeps: seq<int>, jobIds: map<string, int>,
                    ghost visited: seq<Stage>, ghost plan: seq<Stage>, ghost ids: seq<int>,
                    ghost ctx: RunContext, performTraining: bool,
                    ghost subs0: seq<Submitted>, ghost fake0: int, ghost jobs0: seq<GridJob>)
      returns (deps': seq<int>, trainingDeps': seq<int>, jobIds': map<string, int>, ghost plan': seq<Stage>, ghost ids': seq<int>)
      requires !s.Concatenation? && (s.Preprocessing? ==> visited == [])
      requires ctx == Context(ctx.external, ctx.inherited)
      requires ChunksValid(Plan(config.skipped, config.caps, performTraining), lens, config.chunks)
      requires Built(visited, plan, ids, deps, trainingDeps, jobIds, Submissions, fakeJobId, jobManager.jobs,
                     ctx, performTraining, subs0, fake0, jobs0)
      modifies this`fakeJobId, this`Submissions, jobManager
      ensures Built(visited + [s], plan', ids', deps', trainingDeps', jobIds', Submissions, fakeJobId, jobManager.jobs,
                    ctx, performTraining, subs0, fake0, jobs0)
    {
      if Selected(s, config.skipped, config.caps, performTraining) {
        var passed := deps;
        if s.Preprocessing? && "preprocessing" in jobIds {
          passed := deps + [jobIds["preprocessing"]];
        } else if IsTraining(s) {
          passed := trainingDeps;
        }
        var id := SubmitStage(s, passed, visited, plan, ids, deps, trainingDeps, jobIds, ctx, performTraining, subs0, fake0, jobs0);
        jobIds' := jobIds[Key(s) := id];
        deps' := deps + [id];
        trainingDeps' := trainingDeps;
        if performTraining && FeedsTraining(s) {
          trainingDeps' := trainingDeps + [id];
        }
        plan', ids' := plan + [s], ids + [id];
      } else {
        SkippedStep(visited, plan, ids, deps, trainingDeps, jobIds, Submissions, fakeJobId, jobManager.jobs, s,
                    ctx, performTraining, subs0, fake0, jobs0);
        deps', trainingDeps', jobIds', plan', ids' := deps, trainingDeps, jobIds, plan, ids;
      }
    }

    /**
     * The last block of AddJobsToGrid: the score concatenation, which
     * waits for every earlier job of the run and leaves the running
     * dependency list alone, since nothing later waits for it.
     */
    method AddConcatenation(deps: seq<int>, trainingDeps: seq<int>, jobIds: map<string, int>,
                            ghost visited: seq<Stage>, ghost plan: seq<Stage>, ghost ids: seq<int>,
                            ghost ctx: RunContext, ghost performTraining: bool,
                            ghost subs0: seq<Submitted>, ghost fake0: int, ghost jobs0: seq<GridJob>)
      returns (jobIds': map<string, int>)
      requires visited + [Concatenation] == AllStages()
      requires ctx == Context(ctx.external, ctx.inherited)
      requires ChunksValid(Plan(config.skipped, config.caps, performTraining), lens, config.chunks)
      requires Built(visited, plan, ids, deps, trainingDeps, jobIds, Submissions, fakeJobId, jobManager.jobs,
                     ctx, performTraining, subs0, fake0, jobs0)
      modifies this`fakeJobId, this`Submissions, jobManager
      ensures RunSubmitted(Plan(config.skipped, config.caps, performTraining), ctx, config.dryRun,
                           subs0, fake0, jobs0, Submissions, fakeJobId, jobManager.jobs, jobIds')
    {
      if Concatenation !in config.skipped {
        var id := SubmitStage(Concatenation, deps, visited, plan, ids, deps, trainingDeps, jobIds, ctx, performTraining, subs0, fake0, jobs0);
        Finished(visited + [Concatenation], plan + [Concatenation], ids + [id], deps + [id],
                 trainingDeps + (if performTraining && FeedsTraining(Concatenation) then [id] else []),
                 jobIds[Key(Concatenation) := id], Submissions, fakeJobId, jobManager.jobs,
                 ctx, performTraining, subs0, fake0, jobs0);
        jobIds' := jobIds["concatenate" := id];
      } else {
        SkippedStep(visited, plan, ids, deps, trainingDeps, jobIds, Submissions, fakeJobId, jobManager.jobs, Concatenation,
                    ctx, performTraining, subs0, fake0, jobs0);
        Finished(visited + [Concatenation], plan, ids, deps, trainingDeps, jobIds, Submissions, fakeJobId, jobManager.jobs,
                 ctx, performTraining, subs0, fake0, jobs0);
        jobIds' := jobIds;
      }
    }

    /** The first four stages of a run: preprocessing, extractor training, extraction and projector training. */
    method AddFirstStages(deps: seq<int>, trainingDeps: seq<int>, jobIds: map<string, int>,
                             ghost ctx: RunContext, performTraining: bool,
                             ghost subs0: seq<Submitted>, ghost fake0: int, ghost jobs0: seq<GridJob>)
      returns (deps': seq<int>, trainingDeps': seq<int>, jobIds': map<string, int>,
               ghost visited: seq<Stage>, ghost plan': seq<Stage>, ghost ids': seq<int>)
      requires ctx == Context(ctx.external, ctx.inherited)
      requires ChunksValid(Plan(config.skipped, config.caps, performTraining), lens, config.chunks)
      requires Built([], [], [], deps, trainingDeps, jobIds, Submissions, fakeJobId, jobManager.jobs,
                     ctx, performTraining, subs0, fake0, jobs0)
      modifies this`fakeJobId, this`Submissions, jobManager
      ensures visited == [Preprocessing] + [ExtractorTraining] + [FeatureExtraction] + [ProjectorTraining]
      ensures Built(visited, plan', ids', deps', trainingDeps',
                    jobIds', Submissions, fakeJobId, jobManager.jobs, ctx, performTraining, subs0, fake0, jobs0)
    {
      deps', trainingDeps', jobIds', plan', ids' :=
        AddStage(Preprocessing, deps, trainingDeps, jobIds, [], [], [], ctx, performTraining, subs0, fake0, jobs0);
      visited := [Preprocessing];
      deps', trainingDeps', jobIds', plan', ids' :=
        AddStage(ExtractorTraining, deps', trainingDeps', jobIds', visited, plan', ids', ctx, performTraining,
                 subs0, fake0, jobs0);
      visited := visited + [ExtractorTraining];
      deps', trainingDeps', jobIds', plan', ids' :=
        AddStage(FeatureExtraction, deps', trainingDeps', jobIds', visited, plan', ids', ctx, performTraining,
                 subs0, fake0, jobs0);
      visited := visited + [FeatureExtraction];
      deps', trainingDeps', jobIds', plan', ids' :=
        AddStage(ProjectorTraining, deps', trainingDeps', jobIds', visited, plan', ids', ctx, performTraining,
                 subs0, fake0, jobs0);
      visited := visited + [ProjectorTraining];
    }

    /**
     * The blocks of AddJobsToGrid one after another, from the dependency
     * lists and id map it starts with: preprocessing, extractor training,
     * extraction, projector training, projection, enroller training,
     * enrollment, scoring and concatenation.
     */
    method AddStages(deps: seq<int>, trainingDeps: seq<int>, jobIds: map<string, int>,
                     ghost ctx: RunContext, performTraining: bool,
                     ghost subs0: seq<Submitted>, ghost fake0: int, ghost jobs0: seq<GridJob>)
      returns (jobIds': map<string, int>)
      requires ctx == Context(ctx.external, ctx.inherited)
      requires ChunksValid(Plan(config.skipped, config.caps, performTraining), lens, config.chunks)
      requires Built([], [], [], deps, trainingDeps, jobIds, Submissions, fakeJobId, jobManager.jobs,
                     ctx, performTraining, subs0, fake0, jobs0)
      modifies this`fakeJobId, this`Submissions, jobManager
      ensures RunSubmitted(Plan(config.skipped, config.caps, performTraining), ctx, config.dryRun,
                           subs0, fake0, jobs0, Submissions, fakeJobId, jobManager.jobs, jobIds')
    {
      var deps, trainingDeps, jobIds, visited, plan, ids :=
        AddFirstStages(deps, trainingDeps, jobIds, ctx, performTraining, subs0, fake0, jobs0);
      deps, trainingDeps, jobIds, plan, ids :=
        AddStage(FeatureProjection, deps, trainingDeps, jobIds, visited, plan, ids, ctx, performTraining, subs0, fake0, jobs0);
      visited := visited + [FeatureProjection];
      deps, trainingDeps, jobIds, plan, ids :=
        AddStage(EnrollerTraining, deps, trainingDeps, jobIds, visited, plan, ids, ctx, performTraining, subs0, fake0, jobs0);
      visited := visited + [EnrollerTraining];
      deps, trainingDeps, jobIds, plan, ids :=
        AddStage(Enrollment, deps, trainingDeps, jobIds, visited, plan, ids, ctx, performTraining, subs0, fake0, jobs0);
      visited := visited + [Enrollment];
      deps, trainingDeps, jobIds, plan, ids :=
        AddStage(ScoreComputation, deps, trainingDeps, jobIds, visited, plan, ids, ctx, performTraining, subs0, fake0, jobs0);
      visited := visited + [ScoreComputation];
      AllStagesInOrder();
      jobIds' := AddConcatenation(deps, trainingDeps, jobIds, visited, plan, ids, ctx, performTraining, subs0, fake0, jobs0);
    }

    /**
     * Submits the stages of one protocol run. The new submissions are
     * exactly the reference run over the selected stages, so every job
     * depends on `external`; the returned map is `externalJobIds` updated
     * with the ids of the submitted stages.
     */
    method AddJobsToGrid(external: seq<int>, externalJobIds: map<string, int>, performTraining: bool)
      returns (jobIds: map<string, int>)
      requires ChunksValid(Plan(config.skipped, config.caps, performTraining), lens, config.chunks)
      modifies this`fakeJobId, this`Submissions, jobManager
      ensures RunSubmitted(Plan(config.skipped, config.caps, performTraining), Context(external, externalJobIds), config.dryRun,
                           old(Submissions), old(fakeJobId), old(jobManager.jobs), Submissions, fakeJobId, jobManager.jobs,
                           jobIds)
    {
      ghost var ctx := Context(external, externalJobIds);
      ghost var subs0, fake0, jobs0 := Submissions, fakeJobId, jobManager.jobs;
      Started(ctx, performTraining, subs0, fake0, jobs0);
      jobIds := AddStages(external, external, externalJobIds, ctx, performTraining, subs0, fake0, jobs0);
      assert ctx == Context(external, externalJobIds);
    }

    /**
     * What holds between the stages of ExecuteToolChain: the stages taken
     * among `visited` were appended to the local steps, and, outside a dry
     * run, the tool chain performed each of them over its whole list.
     */
    ghost predicate Ran(visited: seq<Stage>, steps: seq<Stage>, calls: seq<Operation>,
                        steps0: seq<Stage>, calls0: seq<Operation>, performTraining: bool)
    {
      var plan := SelectFrom(visited, config.skipped, config.caps, performTraining);
      && steps == steps0 + plan
      && calls == calls0 + (if config.dryRun then [] else WholeListOperations(plan))
    }

    /**
     * One block of ExecuteToolChain: a selected stage is announced in a dry
     * run and performed by the tool chain otherwise.
     */
    method RunStage(s: Stage, performTraining: bool, ghost visited: seq<Stage>,
                    ghost steps0: seq<Stage>, ghost calls0: seq<Operation>)
      requires Ran(visited, LocalSteps, toolChain.calls, steps0, calls0, performTraining)
      modifies this`LocalSteps, toolChain
      ensures Ran(visited + [s], LocalSteps, toolChain.calls, steps0, calls0, performTraining)
    {
      SelectFromSnoc(visited, s, config.skipped, config.caps, performTraining);
      var plan := SelectFrom(visited, config.skipped, config.caps, performTraining);
      if Selected(s, config.skipped, config.caps, performTraining) {
        if !config.dryRun {
          toolChain.Perform(Operation(s, None));
          assert WholeListOperations(plan + [s]) == WholeListOperations(plan) + [Operation(s, None)];
        }
        LocalSteps := LocalSteps + [s];
      }
    }

    /**
     * Runs the selected stages of one protocol locally, in stage order;
     * a dry run only announces them and leaves the tool chain alone.
     */
    method ExecuteToolChain(performTraining: bool)
      modifies this`LocalSteps, toolChain
      ensures LocalSteps == old(LocalSteps) + Plan(config.skipped, config.caps, performTraining)
      ensures toolChain.calls == old(toolChain.calls)
                + (if config.dryRun then [] else WholeListOperations(Plan(config.skipped, config.caps, performTraining)))
    {
      ghost var steps0, calls0 := LocalSteps, toolChain.calls;
      assert Ran([], LocalSteps, toolChain.calls, steps0, calls0, performTraining);
      RunStage(Preprocessing, performTraining, [], steps0, calls0);
      ghost var visited := [Preprocessing];
      RunStage(ExtractorTraining, performTraining, visited, steps0, calls0);
      visited := visited + [ExtractorTraining];
      RunStage(FeatureExtraction, performTraining, visited, steps0, calls0);
      visited := visited + [FeatureExtraction];
      RunStage(ProjectorTraining, performTraining, visited, steps0, calls0);
      visited := visited + [ProjectorTraining];
      RunStage(FeatureProjection, performTraining, visited, steps0, calls0);
      visited := visited + [FeatureProjection];
      RunStage(EnrollerTraining, performTraining, visited, steps0, calls0);
      visited := visited + [EnrollerTraining];
      RunStage(Enrollment, performTraining, visited, steps0, calls0);
      visited := visited + [Enrollment];
      RunStage(ScoreComputation, performTraining, visited, steps0, calls0);
      visited := visited + [ScoreComputation];
      RunStage(Concatenation, performTraining, visited, steps0, calls0);
      visited := visited + [Concatenation];
      AllStagesInOrder();
    }

    /**
     * Runs the grid sub-task `subTask` for the array slot `slot` (none when
     * run outside the grid): the tool chain performs that stage, over the
     * slot's index range when the stage is split. A name that is not one
     * of the nine sub-tasks raises the error and performs nothing.
     */
    method ExecuteGridJob(subTask: string, slot: Option<int>) returns (r: Result<(), Error>)
      modifies toolChain
      ensures var op := SubTaskOperation(subTask, slot, lens, config.chunks);
        && (r.Success? <==> op.Success?)
        && (op.Success? ==> toolChain.calls == old(toolChain.calls) + [op.value])
        && (op.Failure? ==> r.error == op.error && toolChain.calls == old(toolChain.calls))
    {
      var chunks := config.chunks;
      r := Success(());
      if subTask == "preprocess" {
        toolChain.Perform(Operation(Preprocessing, Some(Indices(slot, lens.originalImages, chunks.imagesPerJob))));
      } else if subTask == "train-extractor" {
        toolChain.Perform(Operation(ExtractorTraining, None));
      } else if subTask == "extract" {
        toolChain.Perform(Operation(FeatureExtraction, Some(Indices(slot, lens.preprocessedImages, chunks.featuresPerJob))));
      } else if subTask == "train-projector" {
        toolChain.Perform(Operation(ProjectorTraining, None));
      } else if subTask == "project" {
        // sliced by the preprocessed image list, although the array was sized by the feature list
        toolChain.Perform(Operation(FeatureProjection, Some(Indices(slot, lens.preprocessedImages, chunks.projectionsPerJob))));
      } else if subTask == "train-enroller" {
        toolChain.Perform(Operation(EnrollerTraining, None));
      } else if subTask == "enroll" {
        toolChain.Perform(Operation(Enrollment, Some(Indices(slot, lens.devModels, chunks.modelsPerEnrollJob))));
      } else if subTask == "compute-scores" {
        toolChain.Perform(Operation(ScoreComputation, Some(Indices(slot, lens.devModels, chunks.modelsPerScoreJob))));
      } else if subTask == "concatenate" {
        toolChain.Perform(Operation(Concatenation, None));
      } else {
        r := Failure(ValueError(UnknownSubTaskMessage));
      }
    }
  }
}
