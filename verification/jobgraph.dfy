/**
 * What one protocol run submits to the grid: the dependency list of each
 * stage, the jobs themselves, and the map from stage keys to job ids.
 * These functions are the reference the executor's `AddJobsToGrid` is
 * proved against.
 */
module JobGraph {
  import opened Wrappers
  import opened Naming
  import opened Partition
  import opened Stages

  /** A job as handed to the job manager (the executable paths are left out). */
  datatype GridJob = GridJob(
    command: string,
    parameters: string,
    dependencies: seq<int>,
    name: string,
    logSubDir: string,
    slots: ArraySpec)

  /** One submission: the id it returned and the job it described. */
  datatype Submitted = Submitted(id: int, job: GridJob)

  /** Everything a protocol run's submissions depend on besides the ids it produces. */
  datatype RunContext = RunContext(
    protocol: string,
    parameters: string,
    lens: ListLengths,
    chunks: ChunkSizes,
    external: seq<int>,
    inherited: map<string, int>)

  /** The ids, in order, of those stages among `earlier` whose output training consumes. */
  function TrainingInputs(earlier: seq<Stage>, ids: seq<int>): (r: seq<int>)
    requires |earlier| == |ids|
    ensures |r| <= |ids|
    ensures forall x :: x in r ==> x in ids
  {
    if earlier == [] then []
    else
      var n := |earlier| - 1;
      TrainingInputs(earlier[..n], ids[..n]) + (if FeedsTraining(earlier[n]) then [ids[n]] else [])
  }

  /** The preprocessing id carried over from an earlier protocol, if there is one. */
  function InheritedPreprocessing(inherited: map<string, int>): seq<int> {
    if "preprocessing" in inherited then [inherited["preprocessing"]] else []
  }

  /**
   * The dependency list of `stage` when `earlier` were submitted before it
   * in this run with ids `ids`. Every stage waits for the external
   * dependencies. A training stage waits only for the preprocessing,
   * extraction and projection jobs of the run; every other stage waits for
   * all jobs submitted before it, and preprocessing also for the
   * preprocessing job of an earlier protocol.
   */
  function StageDependencies(stage: Stage, earlier: seq<Stage>, ids: seq<int>, ctx: RunContext): (d: seq<int>)
    requires |earlier| == |ids|
    ensures ctx.external <= d
  {
    if stage.Preprocessing? then ctx.external + ids + InheritedPreprocessing(ctx.inherited)
    else if IsTraining(stage) then ctx.external + TrainingInputs(earlier, ids)
    else ctx.external + ids
  }

  /** An id is a training input exactly when it belongs to an earlier preprocessing, extraction or projection job. */
  lemma {:induction false} TrainingInputsExactly(earlier: seq<Stage>, ids: seq<int>, x: int)
    requires |earlier| == |ids|
    ensures x in TrainingInputs(earlier, ids)
        <==> exists j :: 0 <= j < |ids| && ids[j] == x && FeedsTraining(earlier[j])
  {
    if earlier != [] {
      var n := |earlier| - 1;
      TrainingInputsExactly(earlier[..n], ids[..n], x);
      if x in TrainingInputs(earlier, ids) && x !in TrainingInputs(earlier[..n], ids[..n]) {
        assert ids[n] == x && FeedsTraining(earlier[n]);
      }
      if exists j :: 0 <= j < |ids| && ids[j] == x && FeedsTraining(earlier[j]) {
        var j :| 0 <= j < |ids| && ids[j] == x && FeedsTraining(earlier[j]);
        if j < n {
          assert ids[..n][j] == x && earlier[..n][j] == earlier[j];
        }
      }
    }
  }

  /**
   * Dependency closure: a stage depends only on external dependencies, on
   * jobs submitted earlier in the same run, and (preprocessing only) on the
   * preprocessing job inherited from an earlier protocol.
   */
  lemma DependencyClosure(stage: Stage, earlier: seq<Stage>, ids: seq<int>, ctx: RunContext, x: int)
    requires |earlier| == |ids|
    requires x in StageDependencies(stage, earlier, ids, ctx)
    ensures x in ctx.external || x in ids
         || (stage.Preprocessing? && "preprocessing" in ctx.inherited && x == ctx.inherited["preprocessing"])
  {
    if IsTraining(stage) && x !in ctx.external {
      TrainingInputsExactly(earlier, ids, x);
    }
  }

  /**
   * With distinct ids, a training stage never waits for another training
   * job of its run: besides the external dependencies it waits for exactly
   * the preprocessing, extraction and projection jobs before it.
   */
  lemma TrainingWaitsOnlyForInputs(stage: Stage, earlier: seq<Stage>, ids: seq<int>, ctx: RunContext, j: int)
    requires |earlier| == |ids| && IsTraining(stage)
    requires forall a, b :: 0 <= a < b < |ids| ==> ids[a] != ids[b]
    requires 0 <= j < |ids|
    requires ids[j] !in ctx.external
    ensures ids[j] in StageDependencies(stage, earlier, ids, ctx) <==> FeedsTraining(earlier[j])
  {
    TrainingInputsExactly(earlier, ids, ids[j]);
  }

  /** A non-training stage waits for the external dependencies and for every job before it, in order. */
  lemma OtherStagesWaitForAllEarlier(stage: Stage, earlier: seq<Stage>, ids: seq<int>, ctx: RunContext)
    requires |earlier| == |ids| && !IsTraining(stage)
    ensures forall x :: x in ctx.external || x in ids ==> x in StageDependencies(stage, earlier, ids, ctx)
    ensures !stage.Preprocessing? ==> StageDependencies(stage, earlier, ids, ctx) == ctx.external + ids
  {
  }

  /**
   * The slots a stage's job is submitted with: for a stage that splits a
   * list, the fewest slots of its chunk size that hold the whole list;
   * otherwise a single slot.
   */
  function StageArray(s: Stage, lens: ListLengths, chunks: ChunkSizes): (a: ArraySpec)
    requires SubmittedList(s, lens, chunks).Some? ==> SubmittedList(s, lens, chunks).value.1 >= 1
    ensures SubmittedList(s, lens, chunks).None? ==> a == SingleJob
    ensures SubmittedList(s, lens, chunks).Some? ==>
      var items, perJob := SubmittedList(s, lens, chunks).value.0, SubmittedList(s, lens, chunks).value.1;
      a.first == 1 && a.step == 1 && a.count * perJob >= items && (a.count - 1) * perJob < items
  {
    match SubmittedList(s, lens, chunks)
    case Some((items, perJob)) => JobArray(items, perJob)
    case None => SingleJob
  }

  /** The job submitted for `stage` with the given dependencies. */
  function StageJob(stage: Stage, deps: seq<int>, ctx: RunContext): (j: GridJob)
    requires SubmittedList(stage, ctx.lens, ctx.chunks).Some? ==> SubmittedList(stage, ctx.lens, ctx.chunks).value.1 >= 1
  {
    var name := JobName(stage, ctx.protocol);
    GridJob(Command(stage, ctx.protocol), ctx.parameters, deps, name, name,
            StageArray(stage, ctx.lens, ctx.chunks))
  }

  /** The submissions of a run taking the stages `plan`, whose jobs got the ids `ids`. */
  function ExpectedRun(plan: seq<Stage>, ids: seq<int>, ctx: RunContext): (r: seq<Submitted>)
    requires |plan| == |ids| && ChunksValid(plan, ctx.lens, ctx.chunks)
    ensures |r| == |plan|
  {
    seq(|plan|, k requires 0 <= k < |plan| =>
      Submitted(ids[k], StageJob(plan[k], StageDependencies(plan[k], plan[..k], ids[..k], ctx), ctx)))
  }

  /** A run that takes one more stage submits one more job, depending on the ones before. */
  lemma ExpectedRunSnoc(plan: seq<Stage>, ids: seq<int>, s: Stage, id: int, ctx: RunContext)
    requires |plan| == |ids| && ChunksValid(plan + [s], ctx.lens, ctx.chunks)
    ensures ChunksValid(plan, ctx.lens, ctx.chunks)
    ensures ExpectedRun(plan + [s], ids + [id], ctx)
         == ExpectedRun(plan, ids, ctx) + [Submitted(id, StageJob(s, StageDependencies(s, plan, ids, ctx), ctx))]
  {
    var p, i := plan + [s], ids + [id];
    assert ChunksValid(plan, ctx.lens, ctx.chunks) by {
      forall t | t in plan ensures t in p { }
    }
    var whole := ExpectedRun(p, i, ctx);
    var extended := ExpectedRun(plan, ids, ctx) + [Submitted(id, StageJob(s, StageDependencies(s, plan, ids, ctx), ctx))];
    forall k | 0 <= k < |whole| ensures whole[k] == extended[k] {
      if k < |plan| {
        assert p[..k] == plan[..k] && i[..k] == ids[..k];
        assert p[k] == plan[k] && i[k] == ids[k];
      } else {
        assert p[..k] == plan && i[..k] == ids;
      }
    }
  }

  /** The first submission of a run waits for what its stage waits for when nothing came before it. */
  lemma ExpectedRunFirst(plan: seq<Stage>, ids: seq<int>, ctx: RunContext)
    requires |plan| == |ids| > 0 && ChunksValid(plan, ctx.lens, ctx.chunks)
    ensures ExpectedRun(plan, ids, ctx)[0].job.dependencies == StageDependencies(plan[0], [], [], ctx)
  {
    assert plan[..0] == [] && ids[..0] == [];
  }

  /**
   * The `j`-th submission of a run carries the `j`-th id, is named after
   * its stage, waits for the external dependencies, and its command
   * dispatches back to the `j`-th stage.
   */
  lemma ExpectedRunJobs(plan: seq<Stage>, ids: seq<int>, ctx: RunContext, j: int)
    requires |plan| == |ids| && ChunksValid(plan, ctx.lens, ctx.chunks) && 0 <= j < |plan|
    ensures var sub := ExpectedRun(plan, ids, ctx)[j];
      && sub.id == ids[j]
      && sub.job.name == sub.job.logSubDir == JobName(plan[j], ctx.protocol)
      && ctx.external <= sub.job.dependencies
      && ParseSubTask(FirstWord(sub.job.command)) == Some(plan[j])
      && sub.job.slots == StageArray(plan[j], ctx.lens, ctx.chunks)
  {
    CommandDispatches(plan[j], ctx.protocol);
  }

  /** The `j`-th submission of a run waits for what its stage waits for after the `j` stages before it. */
  lemma ExpectedRunAt(plan: seq<Stage>, ids: seq<int>, ctx: RunContext, j: int)
    requires |plan| == |ids| && ChunksValid(plan, ctx.lens, ctx.chunks) && 0 <= j < |plan|
    ensures ExpectedRun(plan, ids, ctx)[j].job.dependencies == StageDependencies(plan[j], plan[..j], ids[..j], ctx)
  {
  }

  function IdsOf(subs: seq<Submitted>): (r: seq<int>)
    ensures |r| == |subs|
    ensures forall k :: 0 <= k < |subs| ==> r[k] == subs[k].id
  {
    seq(|subs|, k requires 0 <= k < |subs| => subs[k].id)
  }

  function JobsOf(subs: seq<Submitted>): (r: seq<GridJob>)
    ensures |r| == |subs|
    ensures forall k :: 0 <= k < |subs| ==> r[k] == subs[k].job
  {
    seq(|subs|, k requires 0 <= k < |subs| => subs[k].job)
  }

  /** The ids start, start + 1, ..., start + n - 1. */
  function Consecutive(start: int, n: nat): (r: seq<int>)
    ensures |r| == n
    ensures forall k :: 0 <= k < n ==> r[k] == start + k
  {
    seq(n, k requires 0 <= k < n => start + k)
  }

  /** The stage keys of a run mapped to the ids of its jobs; a later stage overrides an earlier one. */
  function StageIdMap(plan: seq<Stage>, ids: seq<int>): (m: map<string, int>)
    requires |plan| == |ids|
    ensures m.Keys == set s | s in plan :: Key(s)
  {
    if plan == [] then map[]
    else
      var n := |plan| - 1;
      var m := StageIdMap(plan[..n], ids[..n])[Key(plan[n]) := ids[n]];
      assert forall s :: s in plan <==> s in plan[..n] || s == plan[n] by {
        assert plan == plan[..n] + [plan[n]];
      }
      m
  }

  lemma KeyInjective(a: Stage, b: Stage)
    requires Key(a) == Key(b)
    ensures a == b
  {
  }

  /** In a run without repeated stages, each stage's key maps to that stage's job id. */
  lemma {:induction false} StageIdMapAt(plan: seq<Stage>, ids: seq<int>, k: int)
    requires |plan| == |ids| && Ascending(plan) && 0 <= k < |plan|
    ensures StageIdMap(plan, ids)[Key(plan[k])] == ids[k]
  {
    var n := |plan| - 1;
    var inner := StageIdMap(plan[..n], ids[..n]);
    assert StageIdMap(plan, ids) == inner[Key(plan[n]) := ids[n]];
    if k < n {
      assert Rank(plan[k]) < Rank(plan[n]);
      if Key(plan[n]) == Key(plan[k]) {
        KeyInjective(plan[n], plan[k]);
      }
      assert Ascending(plan[..n]) by {
        forall a, b | 0 <= a < b < n ensures Rank(plan[..n][a]) < Rank(plan[..n][b]) {
          assert plan[..n][a] == plan[a] && plan[..n][b] == plan[b];
        }
      }
      StageIdMapAt(plan[..n], ids[..n], k);
      assert plan[..n][k] == plan[k];
    }
  }

  /**
   * The map a run returns keeps every key of the map it was given; a value
   * changes only under the key of a stage the run submitted, which then
   * holds that stage's job id.
   */
  lemma MergedIds(given: map<string, int>, plan: seq<Stage>, ids: seq<int>)
    requires |plan| == |ids| && Ascending(plan)
    ensures given.Keys <= (given + StageIdMap(plan, ids)).Keys
    ensures forall key :: key in given && (forall s :: s in plan ==> Key(s) != key)
              ==> (given + StageIdMap(plan, ids))[key] == given[key]
    ensures forall k :: 0 <= k < |plan| ==> (given + StageIdMap(plan, ids))[Key(plan[k])] == ids[k]
  {
    forall k | 0 <= k < |plan| ensures (given + StageIdMap(plan, ids))[Key(plan[k])] == ids[k] {
      StageIdMapAt(plan, ids, k);
    }
  }

  /** One more submitted stage extends the reference run and its jobs by that stage's submission. */
  lemma RunSnoc(plan: seq<Stage>, ids: seq<int>, s: Stage, id: int, ctx: RunContext)
    requires |plan| == |ids| && ChunksValid(plan + [s], ctx.lens, ctx.chunks)
    ensures ChunksValid(plan, ctx.lens, ctx.chunks)
    ensures var job := StageJob(s, StageDependencies(s, plan, ids, ctx), ctx);
      && ExpectedRun(plan + [s], ids + [id], ctx) == ExpectedRun(plan, ids, ctx) + [Submitted(id, job)]
      && JobsOf(ExpectedRun(plan + [s], ids + [id], ctx)) == JobsOf(ExpectedRun(plan, ids, ctx)) + [job]
  {
    ExpectedRunSnoc(plan, ids, s, id, ctx);
  }

  /** One more submitted stage extends the id map and the training inputs by that stage's id. */
  lemma IdsSnoc(plan: seq<Stage>, ids: seq<int>, s: Stage, id: int)
    requires |plan| == |ids|
    ensures StageIdMap(plan + [s], ids + [id]) == StageIdMap(plan, ids)[Key(s) := id]
    ensures TrainingInputs(plan + [s], ids + [id])
         == TrainingInputs(plan, ids) + (if FeedsTraining(s) then [id] else [])
  {
    var p, i := plan + [s], ids + [id];
    assert p[..|plan|] == plan && i[..|plan|] == ids;
  }

  lemma ConsecutiveSnoc(start: int, n: nat)
    ensures Consecutive(start, n) + [start + n] == Consecutive(start, n + 1)
  {
  }

  /** The submissions of the reference run carry the ids it was given. */
  lemma IdsOfExpectedRun(plan: seq<Stage>, ids: seq<int>, ctx: RunContext)
    requires |plan| == |ids| && ChunksValid(plan, ctx.lens, ctx.chunks)
    ensures IdsOf(ExpectedRun(plan, ids, ctx)) == ids
  {
  }
}
