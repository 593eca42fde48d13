/**
 * The entry point of the GBU face verification script: one executor per
 * protocol, run as a single grid sub-task, submitted to the grid protocol
 * after protocol, or run locally protocol after protocol.
 */
module GbuScript {
  import opened Wrappers
  import opened Naming
  import opened Stages
  import opened JobGraph
  import opened Executor

  /** How far apart the dry-run ids of consecutive protocols start. */
  const FakeIdStride := 30

  /**
   * The options the entry point looks at: the options every executor
   * shares, and the list lengths of the file selector an executor builds
   * for each protocol name.
   */
  datatype Args = Args(
    subTask: Option<string>,
    protocol: string,
    grid: bool,
    protocols: seq<string>,
    config: Config,
    lists: string -> ListLengths)

  /** The stages of the `k`-th protocol: only the first protocol trains. */
  function ProtocolPlan(config: Config, k: nat): (p: seq<Stage>) {
    Plan(config.skipped, config.caps, k == 0)
  }

  /**
   * The chunk sizes of every stage a grid run submits split are positive.
   * They come from the grid configuration, not from the lists, so checking
   * them with the first protocol's list lengths checks them for every
   * protocol (ProtocolChunksValid); without protocols nothing is submitted
   * and nothing is demanded.
   */
  predicate GridChunksValid(args: Args) {
    |args.protocols| > 0 ==>
      ChunksValid(Plan(args.config.skipped, args.config.caps, true), args.lists(args.protocols[0]), args.config.chunks)
  }

  /** Each protocol submits a subset of the first protocol's stages, split by the same chunk sizes. */
  lemma ProtocolChunksValid(args: Args, k: nat)
    requires GridChunksValid(args) && k < |args.protocols|
    ensures ChunksValid(ProtocolPlan(args.config, k), args.lists(args.protocols[k]), args.config.chunks)
  {
    var config := args.config;
    forall s | s in ProtocolPlan(config, k) && SubmittedList(s, args.lists(args.protocols[k]), config.chunks).Some?
      ensures SubmittedList(s, args.lists(args.protocols[k]), config.chunks).value.1 >= 1
    {
      assert Selected(s, config.skipped, config.caps, k == 0);
      assert s in Plan(config.skipped, config.caps, true);
      assert SubmittedList(s, args.lists(args.protocols[k]), config.chunks).value.1
          == SubmittedList(s, args.lists(args.protocols[0]), config.chunks).value.1;
    }
  }

  /** `ids` holds, for each of the first `n` protocols, one id per submitted stage. */
  predicate IdsFit(config: Config, ids: seq<seq<int>>, n: nat) {
    n <= |ids| && forall k :: 0 <= k < n ==> |ids[k]| == |ProtocolPlan(config, k)|
  }

  /** The stage-to-id map after the first `n` protocols: each protocol's entries override the earlier ones. */
  function IdsAfter(config: Config, ids: seq<seq<int>>, n: nat): (m: map<string, int>)
    requires IdsFit(config, ids, n)
  {
    if n == 0 then map[]
    else IdsAfter(config, ids, n - 1) + StageIdMap(ProtocolPlan(config, n - 1), ids[n - 1])
  }

  /** The context the `k`-th protocol's executor submits in. */
  function ProtocolContext(args: Args, parameters: seq<string>, external: seq<int>, ids: seq<seq<int>>, k: nat): RunContext
    requires k < |args.protocols| && IdsFit(args.config, ids, k)
  {
    RunContext(args.protocols[k], JoinedParameters(parameters), args.lists(args.protocols[k]), args.config.chunks,
               external, IdsAfter(args.config, ids, k))
  }

  /** The grid submissions the `k`-th protocol makes, given the ids its jobs got. */
  function ProtocolRun(args: Args, parameters: seq<string>, external: seq<int>, ids: seq<seq<int>>, k: nat): (r: seq<Submitted>)
    requires GridChunksValid(args)
    requires k < |args.protocols| && IdsFit(args.config, ids, k + 1)
    ensures |r| == |ProtocolPlan(args.config, k)| && IdsOf(r) == ids[k]
  {
    ProtocolChunksValid(args, k);
    var ctx := ProtocolContext(args, parameters, external, ids, k);
    IdsOfExpectedRun(ProtocolPlan(args.config, k), ids[k], ctx);
    ExpectedRun(ProtocolPlan(args.config, k), ids[k], ctx)
  }

  /** Every job the grid runs handed to the job manager, protocol after protocol. */
  function AllJobs(runs: seq<seq<Submitted>>): (jobs: seq<GridJob>) {
    if runs == [] then [] else AllJobs(runs[..|runs| - 1]) + JobsOf(runs[|runs| - 1])
  }

  /** The tool-chain operations of the local runs of the first `n` protocols. */
  function LocalOperations(config: Config, n: nat): (ops: seq<Operation>) {
    if n == 0 then [] else LocalOperations(config, n - 1) + WholeListOperations(ProtocolPlan(config, n - 1))
  }

  /** The dry-run ids the `k`-th protocol's jobs get: a block of its own, FakeIdStride apart. */
  function FakeIds(config: Config, start: int, k: nat): (r: seq<int>)
    ensures |r| == |ProtocolPlan(config, k)|
  {
    Consecutive(start + FakeIdStride * k + 1, |ProtocolPlan(config, k)|)
  }

  /**
   * Only the first protocol trains: every later protocol takes exactly the
   * first protocol's stages other than the training stages, in order.
   */
  lemma OnlyFirstProtocolTrains(config: Config, k: nat)
    requires k > 0
    ensures ProtocolPlan(config, k) == WithoutTraining(ProtocolPlan(config, 0))
    ensures forall s :: s in ProtocolPlan(config, k) ==> !IsTraining(s)
  {
    NoTrainingPlan(config.skipped, config.caps);
  }

  /** The dry-run ids of the `k`-th protocol lie strictly inside its own block of FakeIdStride ids. */
  lemma FakeIdsInBlock(config: Config, start: int, k: nat)
    ensures forall x :: x in FakeIds(config, start, k) ==> start + FakeIdStride * k < x < start + FakeIdStride * (k + 1)
  {
    forall x | x in FakeIds(config, start, k)
      ensures start + FakeIdStride * k < x < start + FakeIdStride * (k + 1)
    {
      var j :| 0 <= j < |FakeIds(config, start, k)| && FakeIds(config, start, k)[j] == x;
      assert x == start + FakeIdStride * k + 1 + j;
    }
  }

  /** Dry-run ids never collide: each id of a later protocol is above every id of an earlier one. */
  lemma FakeIdsApart(config: Config, start: int, j: nat, k: nat)
    requires j < k
    ensures forall x, y :: x in FakeIds(config, start, j) && y in FakeIds(config, start, k) ==> start < x < y
  {
    FakeIdsInBlock(config, start, j);
    FakeIdsInBlock(config, start, k);
  }

  /**
   * Protocols are chained through preprocessing only: the `k`-th
   * protocol's preprocessing job waits for the external dependencies and,
   * after the first protocol, for the previous protocol's preprocessing
   * job, whatever else the earlier protocols submitted.
   */
  lemma PreprocessingChain(args: Args, parameters: seq<string>, external: seq<int>, ids: seq<seq<int>>, k: nat)
    requires GridChunksValid(args)
    requires k < |args.protocols| && IdsFit(args.config, ids, k + 1)
    requires Preprocessing !in args.config.skipped
    ensures |ProtocolPlan(args.config, k)| > 0 && ProtocolPlan(args.config, k)[0] == Preprocessing
    ensures ProtocolRun(args, parameters, external, ids, k)[0].job.dependencies
         == external + (if k == 0 then [] else [ids[k - 1][0]])
  {
    FirstIsPreprocessing(args.config, k);
    var ctx := ProtocolContext(args, parameters, external, ids, k);
    var plan := ProtocolPlan(args.config, k);
    ProtocolChunksValid(args, k);
    assert ProtocolRun(args, parameters, external, ids, k) == ExpectedRun(plan, ids[k], ctx);
    ExpectedRunFirst(plan, ids[k], ctx);
    assert StageDependencies(Preprocessing, [], [], ctx) == external + [] + InheritedPreprocessing(ctx.inherited);
    InheritedAfter(args.config, ids, k);
  }

  /** After `k` protocols that preprocess, the carried-over preprocessing id is the last protocol's. */
  lemma InheritedAfter(config: Config, ids: seq<seq<int>>, k: nat)
    requires IdsFit(config, ids, k) && Preprocessing !in config.skipped
    ensures InheritedPreprocessing(IdsAfter(config, ids, k)) == if k == 0 then [] else [ids[k - 1][0]]
  {
    if k > 0 {
      var plan := ProtocolPlan(config, k - 1);
      FirstIsPreprocessing(config, k - 1);
      StageIdMapAt(plan, ids[k - 1], 0);
      assert Key(plan[0]) == "preprocessing";
      assert IdsAfter(config, ids, k) == IdsAfter(config, ids, k - 1) + StageIdMap(plan, ids[k - 1]);
    }
  }

  /** A protocol that preprocesses does so first. */
  lemma FirstIsPreprocessing(config: Config, k: nat)
    requires Preprocessing !in config.skipped
    ensures |ProtocolPlan(config, k)| > 0 && ProtocolPlan(config, k)[0] == Preprocessing
  {
    var plan := ProtocolPlan(config, k);
    assert Preprocessing in plan;
    var j :| 0 <= j < |plan| && plan[j] == Preprocessing;
    if j > 0 {
      assert Rank(plan[0]) < Rank(plan[j]);
    }
  }

  /** With preprocessing skipped no id is carried over, so no protocol waits for another. */
  lemma {:induction false} NoPreprocessingNoChain(config: Config, ids: seq<seq<int>>, n: nat)
    requires IdsFit(config, ids, n) && Preprocessing in config.skipped
    ensures "preprocessing" !in IdsAfter(config, ids, n)
  {
    if n > 0 {
      NoPreprocessingNoChain(config, ids, n - 1);
      var plan := ProtocolPlan(config, n - 1);
      forall s | s in plan ensures Key(s) != "preprocessing" {
        if Key(s) == "preprocessing" {
          KeyInjective(s, Preprocessing);
        }
      }
      assert IdsAfter(config, ids, n) == IdsAfter(config, ids, n - 1) + StageIdMap(plan, ids[n - 1]);
    }
  }

  /**
   * The map after protocol `n` holds that protocol's id under the key of
   * each stage it submitted, and the earlier map's value under every other
   * key it had: the last protocol's ids win.
   */
  lemma IdsAfterLast(config: Config, ids: seq<seq<int>>, n: nat)
    requires IdsFit(config, ids, n + 1)
    ensures forall j :: 0 <= j < |ProtocolPlan(config, n)|
              ==> && Key(ProtocolPlan(config, n)[j]) in IdsAfter(config, ids, n + 1)
                  && IdsAfter(config, ids, n + 1)[Key(ProtocolPlan(config, n)[j])] == ids[n][j]
    ensures forall key :: key in IdsAfter(config, ids, n) && (forall s :: s in ProtocolPlan(config, n) ==> Key(s) != key)
              ==> && key in IdsAfter(config, ids, n + 1)
                  && IdsAfter(config, ids, n + 1)[key] == IdsAfter(config, ids, n)[key]
  {
    var plan := ProtocolPlan(config, n);
    assert IdsAfter(config, ids, n + 1) == IdsAfter(config, ids, n) + StageIdMap(plan, ids[n]);
    MergedIds(IdsAfter(config, ids, n), plan, ids[n]);
  }

  /**
   * What a grid job can wait for: the `j`-th job of the `k`-th protocol
   * waits only for the external dependencies, for jobs its own protocol
   * submitted before it and, if it is the first job of a later protocol,
   * for the previous protocol's first (preprocessing) job.
   */
  lemma CrossProtocolDependencies(args: Args, parameters: seq<string>, external: seq<int>, ids: seq<seq<int>>,
                                  k: nat, j: nat, x: int)
    requires GridChunksValid(args)
    requires k < |args.protocols| && IdsFit(args.config, ids, k + 1)
    requires j < |ProtocolPlan(args.config, k)|
    requires x in ProtocolRun(args, parameters, external, ids, k)[j].job.dependencies
    ensures x in external || x in ids[k][..j] || (k > 0 && j == 0 && x == ids[k - 1][0])
  {
    var plan := ProtocolPlan(args.config, k);
    var ctx := ProtocolContext(args, parameters, external, ids, k);
    ProtocolChunksValid(args, k);
    assert ProtocolRun(args, parameters, external, ids, k) == ExpectedRun(plan, ids[k], ctx);
    ExpectedRunAt(plan, ids[k], ctx, j);
    DependencyClosure(plan[j], plan[..j], ids[k][..j], ctx, x);
    if x !in external && x !in ids[k][..j] {
      assert plan[j].Preprocessing? && "preprocessing" in ctx.inherited;
      assert Preprocessing !in args.config.skipped;
      FirstIsPreprocessing(args.config, k);
      InheritedAfter(args.config, ids, k);
    }
  }

  /**
   * Each protocol's jobs are sized by that protocol's own lists: the
   * `j`-th job of the `k`-th protocol is named after its stage and that
   * protocol, and gets the array its stage's list in the `k`-th
   * protocol's file selector calls for.
   */
  lemma ProtocolArrays(args: Args, parameters: seq<string>, external: seq<int>, ids: seq<seq<int>>, k: nat, j: nat)
    requires GridChunksValid(args)
    requires k < |args.protocols| && IdsFit(args.config, ids, k + 1)
    requires j < |ProtocolPlan(args.config, k)|
    ensures var job := ProtocolRun(args, parameters, external, ids, k)[j].job;
      var list := SubmittedList(ProtocolPlan(args.config, k)[j], args.lists(args.protocols[k]), args.config.chunks);
      && job.name == JobName(ProtocolPlan(args.config, k)[j], args.protocols[k])
      && (list.Some? ==> list.value.1 >= 1)
      && job.slots == StageArray(ProtocolPlan(args.config, k)[j], args.lists(args.protocols[k]), args.config.chunks)
  {
    var plan := ProtocolPlan(args.config, k);
    var ctx := ProtocolContext(args, parameters, external, ids, k);
    ProtocolChunksValid(args, k);
    assert ProtocolRun(args, parameters, external, ids, k) == ExpectedRun(plan, ids[k], ctx);
    ExpectedRunJobs(plan, ids[k], ctx, j);
    assert plan[j] in plan;
  }

  /**
   * The grid and the local run of a protocol take the same stages in the
   * same order: the `j`-th grid job runs the stage of the `j`-th local
   * operation.
   */
  lemma GridLocalParity(args: Args, parameters: seq<string>, external: seq<int>, ids: seq<seq<int>>, k: nat)
    requires GridChunksValid(args)
    requires k < |args.protocols| && IdsFit(args.config, ids, k + 1)
    ensures var run := ProtocolRun(args, parameters, external, ids, k);
      var local := WholeListOperations(ProtocolPlan(args.config, k));
      && |run| == |local|
      && forall j :: 0 <= j < |run| ==> run[j].job.command == Command(local[j].stage, args.protocols[k])
  {
  }

  /**
   * The script's entry point. With a sub-task it runs that one grid job of
   * `args.protocol` and returns the empty result. On the grid it submits
   * every protocol in turn and returns the ids of all submitted stages.
   * Otherwise it runs every protocol locally and returns the empty result.
   */
  method FaceVerify(args: Args, parameters: seq<string>, slot: Option<int>, external: seq<int>, externalFakeJobId: int,
                    toolChain: ToolChain, manager: JobManager)
    returns (r: Result<map<string, int>, Error>, ghost ids: seq<seq<int>>, ghost runs: seq<seq<Submitted>>)
    requires args.subTask.None? && args.grid ==> GridChunksValid(args)
    modifies toolChain, manager
    ensures args.subTask.Some? ==>
      var op := SubTaskOperation(args.subTask.value, slot, args.lists(args.protocol), args.config.chunks);
      && (r.Success? <==> op.Success?)
      && (r.Success? ==> r.value == map[] && toolChain.calls == old(toolChain.calls) + [op.value])
      && (r.Failure? ==> r.error == op.error && toolChain.calls == old(toolChain.calls))
      && manager.jobs == old(manager.jobs)
    ensures args.subTask.None? && args.grid ==> r.Success?
    ensures args.subTask.None? && args.grid && r.Success? ==>
      var jobIds := r.value;
      && |ids| == |runs| == |args.protocols|
      && IdsFit(args.config, ids, |args.protocols|)
      && jobIds == IdsAfter(args.config, ids, |args.protocols|)
      && (forall k :: 0 <= k < |args.protocols| ==> runs[k] == ProtocolRun(args, parameters, external, ids, k))
      && (args.config.dryRun ==>
            && (forall k :: 0 <= k < |args.protocols| ==> ids[k] == FakeIds(args.config, externalFakeJobId, k))
            && manager.jobs == old(manager.jobs))
      && (!args.config.dryRun ==> manager.jobs == old(manager.jobs) + AllJobs(runs))
      && toolChain.calls == old(toolChain.calls)
    ensures args.subTask.None? && !args.grid ==>
      && r == Success(map[])
      && toolChain.calls == old(toolChain.calls)
           + (if args.config.dryRun then [] else LocalOperations(args.config, |args.protocols|))
      && manager.jobs == old(manager.jobs)
  {
    ids, runs := [], [];
    if args.subTask.Some? {
      var executor := new ToolChainExecutor(args.config, args.protocol, args.lists(args.protocol), toolChain, manager);
      var outcome := executor.ExecuteGridJob(args.subTask.value, slot);
      if outcome.Success? {
        r := Success(map[]);
      } else {
        r := Failure(outcome.error);
      }
    } else if args.grid {
      var jobIds;
      jobIds, ids, runs := SubmitProtocols(args, parameters, external, externalFakeJobId, toolChain, manager);
      r := Success(jobIds);
    } else {
      RunProtocolsLocally(args, toolChain, manager);
      r := Success(map[]);
    }
  }

  /**
   * The grid branch of the entry point: every protocol in turn gets an
   * executor whose dry-run ids start FakeIdStride above the previous
   * protocol's, submits its stages waiting for `external` and for the
   * ids collected so far, and only the first protocol trains.
   */
  method SubmitProtocols(args: Args, parameters: seq<string>, external: seq<int>, externalFakeJobId: int,
                         toolChain: ToolChain, manager: JobManager)
    returns (jobIds: map<string, int>, ghost ids: seq<seq<int>>, ghost runs: seq<seq<Submitted>>)
    requires GridChunksValid(args)
    modifies manager
    ensures GridSoFar(args, parameters, external, externalFakeJobId, ids, runs, jobIds, manager.jobs, old(manager.jobs),
                      |args.protocols|)
    ensures toolChain.calls == old(toolChain.calls)
  {
    ids, runs := [], [];
    jobIds := map[];
    var performTraining := true;
    var dryRunInit := externalFakeJobId;
    var i := 0;
    GridStart(args, parameters, external, externalFakeJobId, manager.jobs);
    while i < |args.protocols|
      invariant 0 <= i <= |args.protocols|
      invariant performTraining == (i == 0)
      invariant dryRunInit == externalFakeJobId + FakeIdStride * i
      invariant GridSoFar(args, parameters, external, externalFakeJobId, ids, runs, jobIds, manager.jobs, old(manager.jobs), i)
    {
      jobIds, ids, runs := SubmitNextProtocol(args, parameters, external, externalFakeJobId, jobIds, ids, runs,
                                              old(manager.jobs), performTraining, dryRunInit, toolChain, manager, i);
      performTraining := false;
      dryRunInit := dryRunInit + FakeIdStride;
      i := i + 1;
    }
  }

  /**
   * What the grid branch has established after `i` protocols: their ids
   * and submissions, the collected id map, and the job manager's jobs.
   */
  ghost predicate GridSoFar(args: Args, parameters: seq<string>, external: seq<int>, start: int,
                            ids: seq<seq<int>>, runs: seq<seq<Submitted>>, jobIds: map<string, int>,
                            jobs: seq<GridJob>, jobs0: seq<GridJob>, i: nat)
  {
    && GridChunksValid(args)
    && i <= |args.protocols|
    && |ids| == |runs| == i
    && IdsFit(args.config, ids, i)
    && jobIds == IdsAfter(args.config, ids, i)
    && (forall k :: 0 <= k < i ==> runs[k] == ProtocolRun(args, parameters, external, ids, k))
    && (args.config.dryRun ==> (forall k :: 0 <= k < i ==> ids[k] == FakeIds(args.config, start, k)) && jobs == jobs0)
    && (!args.config.dryRun ==> jobs == jobs0 + AllJobs(runs))
  }

  /**
   * What submitting protocol `i` on top of `jobIds` amounts to: its
   * submissions are those its plan calls for in its context, its stage ids
   * override the collected ones, and the job manager gets its jobs unless
   * this is a dry run, whose ids count up from `dryRunInit`.
   */
  ghost predicate ProtocolSubmitted(args: Args, parameters: seq<string>, external: seq<int>, jobIds: map<string, int>,
                                    dryRunInit: int, i: nat, run: seq<Submitted>, newJobIds: map<string, int>,
                                    jobs: seq<GridJob>, jobs': seq<GridJob>)
    requires i < |args.protocols|
    requires ChunksValid(ProtocolPlan(args.config, i), args.lists(args.protocols[i]), args.config.chunks)
  {
    var plan := ProtocolPlan(args.config, i);
    && |run| == |plan|
    && run == ExpectedRun(plan, IdsOf(run),
                          RunContext(args.protocols[i], JoinedParameters(parameters), args.lists(args.protocols[i]), args.config.chunks,
                                     external, jobIds))
    && newJobIds == jobIds + StageIdMap(plan, IdsOf(run))
    && (args.config.dryRun ==> IdsOf(run) == Consecutive(dryRunInit + 1, |plan|) && jobs' == jobs)
    && (!args.config.dryRun ==> jobs' == jobs + JobsOf(run))
  }

  /** Before the first protocol nothing is submitted and the collected map is empty. */
  lemma GridStart(args: Args, parameters: seq<string>, external: seq<int>, start: int, jobs0: seq<GridJob>)
    requires GridChunksValid(args)
    ensures GridSoFar(args, parameters, external, start, [], [], map[], jobs0, jobs0, 0)
  {
    assert jobs0 + AllJobs([]) == jobs0;
  }

  /** One more grid protocol, submitted as SubmitProtocol describes, keeps GridSoFar. */
  lemma GridStep(args: Args, parameters: seq<string>, external: seq<int>, start: int,
                 ids: seq<seq<int>>, runs: seq<seq<Submitted>>, jobIds: map<string, int>,
                 jobs: seq<GridJob>, jobs0: seq<GridJob>, i: nat,
                 run: seq<Submitted>, newJobIds: map<string, int>, jobs': seq<GridJob>)
    requires GridSoFar(args, parameters, external, start, ids, runs, jobIds, jobs, jobs0, i)
    requires i < |args.protocols|
    requires ChunksValid(ProtocolPlan(args.config, i), args.lists(args.protocols[i]), args.config.chunks)
    requires ProtocolSubmitted(args, parameters, external, jobIds, start + FakeIdStride * i, i, run, newJobIds, jobs, jobs')
    ensures GridSoFar(args, parameters, external, start, ids + [IdsOf(run)], runs + [run], jobIds + newJobIds,
                      jobs', jobs0, i + 1)
  {
    NextProtocol(args, parameters, external, ids, runs, IdsOf(run), run, jobIds, newJobIds, i);
    if !args.config.dryRun {
      AllJobsSnoc(runs, run);
      ToolChainExecutor.AppendAssoc(jobs0, AllJobs(runs), JobsOf(run));
    } else {
      FakeIdsSnoc(args.config, start, ids, IdsOf(run), i);
    }
  }

  /** Protocol `i` of the grid branch, submitted on top of what the protocols before it established. */
  method SubmitNextProtocol(args: Args, parameters: seq<string>, external: seq<int>, start: int,
                            jobIds: map<string, int>, ghost ids: seq<seq<int>>, ghost runs: seq<seq<Submitted>>,
                            ghost jobs0: seq<GridJob>, performTraining: bool, dryRunInit: int, toolChain: ToolChain, manager: JobManager, i: nat)
    returns (jobIds': map<string, int>, ghost ids': seq<seq<int>>, ghost runs': seq<seq<Submitted>>)
    requires i < |args.protocols| && performTraining == (i == 0)
    requires dryRunInit == start + FakeIdStride * i
    requires GridSoFar(args, parameters, external, start, ids, runs, jobIds, manager.jobs, jobs0, i)
    modifies manager
    ensures GridSoFar(args, parameters, external, start, ids', runs', jobIds', manager.jobs, jobs0, i + 1)
  {
    ProtocolChunksValid(args, i);
    ghost var jobs := manager.jobs;
    var newJobIds, run := SubmitProtocol(args, parameters, external, jobIds, performTraining, dryRunInit,
                                         toolChain, manager, i);
    GridStep(args, parameters, external, start, ids, runs, jobIds, jobs, jobs0, i, run, newJobIds, manager.jobs);
    jobIds' := jobIds + newJobIds;
    ids', runs' := ids + [IdsOf(run)], runs + [run];
  }

  /**
   * One round of the grid branch: a fresh executor for protocol `i`,
   * its common parameters and dry-run id start set, submits its stages.
   */
  method SubmitProtocol(args: Args, parameters: seq<string>, external: seq<int>, jobIds: map<string, int>,
                        performTraining: bool, dryRunInit: int, toolChain: ToolChain, manager: JobManager, i: nat)
    returns (newJobIds: map<string, int>, ghost run: seq<Submitted>)
    requires i < |args.protocols| && performTraining == (i == 0)
    requires ChunksValid(ProtocolPlan(args.config, i), args.lists(args.protocols[i]), args.config.chunks)
    modifies manager
    ensures ProtocolSubmitted(args, parameters, external, jobIds, dryRunInit, i, run, newJobIds,
                              old(manager.jobs), manager.jobs)
  {
    var executor := new ToolChainExecutor(args.config, args.protocols[i], args.lists(args.protocols[i]), toolChain, manager);
    executor.SetCommonParameters(parameters, dryRunInit);
    assert executor.Submissions == [] && executor.fakeJobId == dryRunInit;
    ghost var jobs0 := manager.jobs;
    ghost var plan := ProtocolPlan(args.config, i);
    assert plan == Plan(executor.config.skipped, executor.config.caps, performTraining);
    newJobIds := executor.AddJobsToGrid(external, jobIds, performTraining);
    run := executor.Submissions;
    assert run[0..] == run;
    if args.config.dryRun {
      assert IdsOf(run) == Consecutive(dryRunInit + 1, |plan|);
      assert manager.jobs == jobs0;
    }
    assert executor.Context(external, jobIds)
        == RunContext(args.protocols[i], JoinedParameters(parameters), args.lists(args.protocols[i]), args.config.chunks, external, jobIds);
  }

  /** The local branch of the entry point: every protocol in turn runs its stages, only the first trains. */
  method RunProtocolsLocally(args: Args, toolChain: ToolChain, manager: JobManager)
    modifies toolChain
    ensures toolChain.calls == old(toolChain.calls)
              + (if args.config.dryRun then [] else LocalOperations(args.config, |args.protocols|))
  {
    var performTraining := true;
    var i := 0;
    while i < |args.protocols|
      invariant 0 <= i <= |args.protocols|
      invariant performTraining == (i == 0)
      invariant toolChain.calls == old(toolChain.calls)
                  + (if args.config.dryRun then [] else LocalOperations(args.config, i))
    {
      RunProtocolLocally(args, toolChain, manager, i, performTraining);
      if !args.config.dryRun {
        ToolChainExecutor.AppendAssoc(old(toolChain.calls), LocalOperations(args.config, i), WholeListOperations(ProtocolPlan(args.config, i)));
      }
      performTraining := false;
      i := i + 1;
    }
  }

  /** Protocol `i` of the local branch: a fresh executor runs its stages. */
  method RunProtocolLocally(args: Args, toolChain: ToolChain, manager: JobManager, i: nat, performTraining: bool)
    requires i < |args.protocols| && performTraining == (i == 0)
    modifies toolChain
    ensures toolChain.calls == old(toolChain.calls)
              + (if args.config.dryRun then [] else WholeListOperations(ProtocolPlan(args.config, i)))
  {
    var executor := new ToolChainExecutor(args.config, args.protocols[i], args.lists(args.protocols[i]), toolChain, manager);
    executor.ExecuteToolChain(performTraining);
  }

  /**
   * The bookkeeping of one more grid protocol: the ids and submissions of
   * protocol `i` extend those of the protocols before it without changing
   * what was established for them.
   */
  lemma NextProtocol(args: Args, parameters: seq<string>, external: seq<int>, ids: seq<seq<int>>, runs: seq<seq<Submitted>>,
                     newIds: seq<int>, run: seq<Submitted>, jobIds: map<string, int>, newJobIds: map<string, int>, i: nat)
    requires GridChunksValid(args)
    requires i < |args.protocols| && |ids| == |runs| == i && IdsFit(args.config, ids, i)
    requires jobIds == IdsAfter(args.config, ids, i)
    requires forall k :: 0 <= k < i ==> runs[k] == ProtocolRun(args, parameters, external, ids, k)
    requires |newIds| == |ProtocolPlan(args.config, i)|
    requires ChunksValid(ProtocolPlan(args.config, i), args.lists(args.protocols[i]), args.config.chunks)
    requires run == ExpectedRun(ProtocolPlan(args.config, i), newIds,
                                RunContext(args.protocols[i], JoinedParameters(parameters), args.lists(args.protocols[i]), args.config.chunks,
                                           external, jobIds))
    requires newJobIds == jobIds + StageIdMap(ProtocolPlan(args.config, i), newIds)
    ensures IdsFit(args.config, ids + [newIds], i + 1)
    ensures jobIds + newJobIds == IdsAfter(args.config, ids + [newIds], i + 1)
    ensures forall k :: 0 <= k < i + 1 ==> (runs + [run])[k] == ProtocolRun(args, parameters, external, ids + [newIds], k)
  {
    var ids' := ids + [newIds];
    NextIds(args.config, ids, newIds, jobIds, newJobIds, i);
    EarlierRunsStable(args, parameters, external, ids, runs, newIds, i);
    LastRun(args, parameters, external, ids, newIds, run, jobIds, i);
    forall k | 0 <= k < i + 1
      ensures (runs + [run])[k] == ProtocolRun(args, parameters, external, ids', k)
    {
      if k < i {
        assert (runs + [run])[k] == runs[k];
      }
    }
  }

  /** The submissions of the protocols before `i` stay those of their reference runs when protocol `i`'s ids are added. */
  lemma EarlierRunsStable(args: Args, parameters: seq<string>, external: seq<int>, ids: seq<seq<int>>, runs: seq<seq<Submitted>>,
                          newIds: seq<int>, i: nat)
    requires GridChunksValid(args)
    requires i < |args.protocols| && |ids| == |runs| == i && IdsFit(args.config, ids, i)
    requires forall k :: 0 <= k < i ==> runs[k] == ProtocolRun(args, parameters, external, ids, k)
    ensures IdsFit(args.config, ids + [newIds], i)
    ensures forall k :: 0 <= k < i ==> runs[k] == ProtocolRun(args, parameters, external, ids + [newIds], k)
  {
    IdsAfterPrefix(args.config, ids, newIds, i);
    forall k | 0 <= k < i
      ensures runs[k] == ProtocolRun(args, parameters, external, ids + [newIds], k)
    {
      RunStable(args, parameters, external, ids, newIds, k);
    }
  }

  /** Merging the ids of protocol `i` into the collected map gives the map after `i + 1` protocols. */
  lemma NextIds(config: Config, ids: seq<seq<int>>, newIds: seq<int>, jobIds: map<string, int>, newJobIds: map<string, int>, i: nat)
    requires |ids| == i && IdsFit(config, ids, i) && jobIds == IdsAfter(config, ids, i)
    requires |newIds| == |ProtocolPlan(config, i)|
    requires newJobIds == jobIds + StageIdMap(ProtocolPlan(config, i), newIds)
    ensures IdsFit(config, ids + [newIds], i + 1)
    ensures jobIds + newJobIds == IdsAfter(config, ids + [newIds], i + 1)
  {
    var ids' := ids + [newIds];
    IdsAfterPrefix(config, ids, newIds, i);
    assert ids'[i] == newIds;
    UnionAbsorbs(jobIds, StageIdMap(ProtocolPlan(config, i), newIds));
  }

  /** Updating a map with an update of itself is that update. */
  lemma UnionAbsorbs(a: map<string, int>, b: map<string, int>)
    ensures a + (a + b) == a + b
  {
  }

  /** The submissions the executor of protocol `i` made are the reference run of protocol `i`. */
  lemma LastRun(args: Args, parameters: seq<string>, external: seq<int>, ids: seq<seq<int>>,
                newIds: seq<int>, run: seq<Submitted>, jobIds: map<string, int>, i: nat)
    requires GridChunksValid(args)
    requires i < |args.protocols| && |ids| == i && IdsFit(args.config, ids, i)
    requires jobIds == IdsAfter(args.config, ids, i)
    requires |newIds| == |ProtocolPlan(args.config, i)|
    requires ChunksValid(ProtocolPlan(args.config, i), args.lists(args.protocols[i]), args.config.chunks)
    requires run == ExpectedRun(ProtocolPlan(args.config, i), newIds,
                                RunContext(args.protocols[i], JoinedParameters(parameters), args.lists(args.protocols[i]), args.config.chunks,
                                           external, jobIds))
    ensures IdsFit(args.config, ids + [newIds], i + 1)
    ensures ProtocolRun(args, parameters, external, ids + [newIds], i) == run
  {
    var ids' := ids + [newIds];
    IdsAfterPrefix(args.config, ids, newIds, i);
    assert ids'[i] == newIds;
    assert ProtocolContext(args, parameters, external, ids', i)
        == RunContext(args.protocols[i], JoinedParameters(parameters), args.lists(args.protocols[i]), args.config.chunks, external, jobIds);
  }

  /** The submissions of an earlier protocol do not depend on the ids of later ones. */
  lemma RunStable(args: Args, parameters: seq<string>, external: seq<int>, ids: seq<seq<int>>, more: seq<int>, k: nat)
    requires GridChunksValid(args)
    requires k < |args.protocols| && IdsFit(args.config, ids, k + 1)
    ensures IdsFit(args.config, ids + [more], k + 1)
    ensures ProtocolRun(args, parameters, external, ids + [more], k) == ProtocolRun(args, parameters, external, ids, k)
  {
    IdsAfterPrefix(args.config, ids, more, k);
    assert (ids + [more])[k] == ids[k];
  }

  /** The map after `n` protocols does not depend on the ids of later ones. */
  lemma {:induction false} IdsAfterPrefix(config: Config, ids: seq<seq<int>>, more: seq<int>, n: nat)
    requires IdsFit(config, ids, n) && n <= |ids|
    ensures IdsFit(config, ids + [more], n)
    ensures IdsAfter(config, ids + [more], n) == IdsAfter(config, ids, n)
  {
    var ids' := ids + [more];
    assert forall k :: 0 <= k < n ==> ids'[k] == ids[k];
    if n > 0 {
      IdsAfterPrefix(config, ids, more, n - 1);
      assert ids'[n - 1] == ids[n - 1];
    }
  }

  lemma FakeIdsSnoc(config: Config, start: int, ids: seq<seq<int>>, newIds: seq<int>, i: nat)
    requires |ids| == i && forall k :: 0 <= k < i ==> ids[k] == FakeIds(config, start, k)
    requires newIds == Consecutive(start + FakeIdStride * i + 1, |ProtocolPlan(config, i)|)
    ensures forall k :: 0 <= k < i + 1 ==> (ids + [newIds])[k] == FakeIds(config, start, k)
  {
  }

  lemma AllJobsSnoc(runs: seq<seq<Submitted>>, run: seq<Submitted>)
    ensures AllJobs(runs + [run]) == AllJobs(runs) + JobsOf(run)
  {
    assert (runs + [run])[..|runs|] == runs;
  }
}
