/**
 * The nine stages of the face-verification tool chain, the names under
 * which they are submitted and dispatched, and which of them a run takes.
 */
module Stages {
  import opened Wrappers
  import opened Naming

  datatype Stage =
    | Preprocessing
    | ExtractorTraining
    | FeatureExtraction
    | ProjectorTraining
    | FeatureProjection
    | EnrollerTraining
    | Enrollment
    | ScoreComputation
    | Concatenation

  /** Position of a stage in the fixed order in which runs visit them. */
  function Rank(s: Stage): nat {
    match s
    case Preprocessing => 0
    case ExtractorTraining => 1
    case FeatureExtraction => 2
    case ProjectorTraining => 3
    case FeatureProjection => 4
    case EnrollerTraining => 5
    case Enrollment => 6
    case ScoreComputation => 7
    case Concatenation => 8
  }

  /** All stages, in the order runs visit them. */
  function AllStages(): (all: seq<Stage>)
    ensures |all| == 9
    ensures forall i :: 0 <= i < |all| ==> Rank(all[i]) == i
  {
    [Preprocessing, ExtractorTraining, FeatureExtraction, ProjectorTraining, FeatureProjection,
     EnrollerTraining, Enrollment, ScoreComputation, Concatenation]
  }

  /** The stages one after another make up AllStages. */
  lemma AllStagesInOrder()
    ensures [Preprocessing] + [ExtractorTraining] + [FeatureExtraction] + [ProjectorTraining] + [FeatureProjection]
            + [EnrollerTraining] + [Enrollment] + [ScoreComputation] + [Concatenation] == AllStages()
  {
  }

  predicate IsTraining(s: Stage) {
    s.ExtractorTraining? || s.ProjectorTraining? || s.EnrollerTraining?
  }

  /** Stages whose job ids the training stages wait for. */
  predicate FeedsTraining(s: Stage) {
    s.Preprocessing? || s.FeatureExtraction? || s.FeatureProjection?
  }

  /** The key under which a stage's job id is stored in the returned id map. */
  function Key(s: Stage): (k: string) {
    match s
    case Preprocessing => "preprocessing"
    case ExtractorTraining => "extraction_training"
    case FeatureExtraction => "feature_extraction"
    case ProjectorTraining => "projector_training"
    case FeatureProjection => "feature_projection"
    case EnrollerTraining => "enrollment_training"
    case Enrollment => "enroll"
    case ScoreComputation => "score"
    case Concatenation => "concatenate"
  }

  /** The sub-task name that a grid job of the stage executes. */
  function SubTaskName(s: Stage): (n: string) {
    match s
    case Preprocessing => "preprocess"
    case ExtractorTraining => "train-extractor"
    case FeatureExtraction => "extract"
    case ProjectorTraining => "train-projector"
    case FeatureProjection => "project"
    case EnrollerTraining => "train-enroller"
    case Enrollment => "enroll"
    case ScoreComputation => "compute-scores"
    case Concatenation => "concatenate"
  }

  /** The stage whose sub-task has this name, if any. */
  function ParseSubTask(name: string): (r: Option<Stage>)
    ensures r.Some? ==> SubTaskName(r.value) == name
    ensures r.None? ==> forall s: Stage :: SubTaskName(s) != name
  {
    if name == "preprocess" then Some(Preprocessing)
    else if name == "train-extractor" then Some(ExtractorTraining)
    else if name == "extract" then Some(FeatureExtraction)
    else if name == "train-projector" then Some(ProjectorTraining)
    else if name == "project" then Some(FeatureProjection)
    else if name == "train-enroller" then Some(EnrollerTraining)
    else if name == "enroll" then Some(Enrollment)
    else if name == "compute-scores" then Some(ScoreComputation)
    else if name == "concatenate" then Some(Concatenation)
    else None
  }

  /** Every stage's sub-task name parses back to that stage. */
  lemma ParseSubTaskName(s: Stage)
    ensures ParseSubTask(SubTaskName(s)) == Some(s)
  {
    match s
    case Preprocessing =>
    case ExtractorTraining =>
      assert SubTaskName(s) != "preprocess";
    case FeatureExtraction =>
      assert SubTaskName(s) != "preprocess";
    case ProjectorTraining =>
      assert SubTaskName(s) != "preprocess" && SubTaskName(s) != "train-extractor";
    case FeatureProjection =>
    case EnrollerTraining =>
      assert SubTaskName(s) != "train-extractor" && SubTaskName(s) != "train-projector";
    case Enrollment =>
      assert SubTaskName(s) != "extract";
    case ScoreComputation =>
    case Concatenation =>
      assert SubTaskName(s) != "compute-scores";
  }

  /** The command submitted for a stage of a protocol. */
  function Command(s: Stage, protocol: string): (c: string) {
    SubTaskName(s) + " --protocol " + protocol
  }

  /** The preprocessing id is the one stored under "preprocessing", and only it. */
  lemma PreprocessingKey(s: Stage)
    ensures Key(s) == "preprocessing" <==> s.Preprocessing?
  {
  }

  /** A sub-task name is a single non-empty word. */
  lemma SubTaskNameIsOneWord(s: Stage)
    ensures SubTaskName(s) != [] && ' ' !in SubTaskName(s)
  {
  }

  /**
   * A stage's command starts with the stage's sub-task name as its first
   * word, so the grid job it starts dispatches back to that stage.
   */
  lemma CommandDispatches(s: Stage, protocol: string)
    ensures FirstWord(Command(s, protocol)) == SubTaskName(s)
    ensures ParseSubTask(FirstWord(Command(s, protocol))) == Some(s)
  {
    SubTaskNameIsOneWord(s);
    assert Command(s, protocol) == SubTaskName(s) + " " + ("--protocol " + protocol);
    FirstWordOfPrefix(SubTaskName(s), "--protocol " + protocol);
    ParseSubTaskName(s);
  }

  /** The job name given to a stage's submission, also its log sub-directory. */
  function JobName(s: Stage, protocol: string): (n: string) {
    match s
    case Preprocessing => "pre-" + protocol
    case ExtractorTraining => "f-train"
    case FeatureExtraction => "extr-" + protocol
    case ProjectorTraining => "p-train"
    case FeatureProjection => "pro-" + protocol
    case EnrollerTraining => "e-train"
    case Enrollment => "enr-" + protocol
    case ScoreComputation => "score-" + protocol
    case Concatenation => "concat-" + protocol
  }

  /**
   * A training job gets a fixed name "?-train", the same in every protocol;
   * every other job a prefix of at least three characters, a dash, then the
   * protocol.
   */
  lemma JobNameShape(s: Stage, protocol: string)
    ensures |JobName(s, protocol)| >= 4
    ensures IsTraining(s) ==> |JobName(s, protocol)| == 7 && JobName(s, protocol)[1..] == "-train"
    ensures !IsTraining(s) ==> var n := JobName(s, protocol);
      |n| >= |protocol| + 4 && n[|n| - |protocol| - 1..] == "-" + protocol
  {
  }

  /**
   * Within one protocol the stages' jobs have distinct names, hence
   * distinct log sub-directories: the first three characters already differ.
   */
  lemma JobNamesDistinct(s: Stage, t: Stage, protocol: string)
    requires s != t
    ensures JobName(s, protocol) != JobName(t, protocol)
  {
    JobNameShape(s, protocol);
    JobNameShape(t, protocol);
    var a, b := JobName(s, protocol), JobName(t, protocol);
    assert a[0] != b[0] || a[1] != b[1] || a[2] != b[2];
  }

  /** Which training steps and projection the extractor and the tool offer. */
  datatype Capabilities = Capabilities(
    extractorTrain: bool,
    trainProjector: bool,
    project: bool,
    trainEnroller: bool)

  /** Lengths of the item lists the file selector hands out. */
  datatype ListLengths = ListLengths(
    originalImages: nat,
    preprocessedImages: nat,
    features: nat,
    devModels: nat)

  /** Items per array slot, as the grid configuration sets them. */
  datatype ChunkSizes = ChunkSizes(
    imagesPerJob: int,
    featuresPerJob: int,
    projectionsPerJob: int,
    modelsPerEnrollJob: int,
    modelsPerScoreJob: int)

  /**
   * Whether a run takes stage `s`: its skip flag is unset, a training stage
   * also needs the training pass and the matching capability, and projection
   * needs the tool to project.
   */
  predicate Selected(s: Stage, skipped: set<Stage>, caps: Capabilities, performTraining: bool) {
    s !in skipped &&
    match s
    case ExtractorTraining => performTraining && caps.extractorTrain
    case ProjectorTraining => performTraining && caps.trainProjector
    case FeatureProjection => caps.project
    case EnrollerTraining => performTraining && caps.trainEnroller
    case _ => true
  }

  /**
   * The guards in short: a skipped stage is never taken, a training stage
   * only with the training pass, and a stage other than training and
   * projection exactly when it is not skipped.
   */
  lemma SelectedGuards(s: Stage, skipped: set<Stage>, caps: Capabilities, performTraining: bool)
    ensures Selected(s, skipped, caps, performTraining) ==> s !in skipped
    ensures IsTraining(s) && Selected(s, skipped, caps, performTraining) ==> performTraining
    ensures !IsTraining(s) && !s.FeatureProjection? ==> (Selected(s, skipped, caps, performTraining) <==> s !in skipped)
  {
  }

  /** Strictly increasing in the stage order; in particular without repetitions. */
  predicate Ascending(stages: seq<Stage>) {
    forall i, j :: 0 <= i < j < |stages| ==> Rank(stages[i]) < Rank(stages[j])
  }

  /** The selected stages among `stages`, in their order. */
  function SelectFrom(stages: seq<Stage>, skipped: set<Stage>, caps: Capabilities, performTraining: bool): (r: seq<Stage>)
    ensures |r| <= |stages|
    ensures forall s :: s in r <==> s in stages && Selected(s, skipped, caps, performTraining)
  {
    if stages == [] then []
    else
      var rest := SelectFrom(stages[1..], skipped, caps, performTraining);
      if Selected(stages[0], skipped, caps, performTraining) then [stages[0]] + rest else rest
  }

  /** Selecting keeps the order of the stages. */
  lemma {:induction false} SelectFromAscending(stages: seq<Stage>, skipped: set<Stage>, caps: Capabilities, performTraining: bool)
    requires Ascending(stages)
    ensures Ascending(SelectFrom(stages, skipped, caps, performTraining))
  {
    if stages != [] {
      var rest := SelectFrom(stages[1..], skipped, caps, performTraining);
      SelectFromAscending(stages[1..], skipped, caps, performTraining);
      forall s | s in rest ensures Rank(stages[0]) < Rank(s) {
        var k :| 0 <= k < |stages[1..]| && stages[1..][k] == s;
        assert stages[k + 1] == s;
      }
    }
  }

  /** The stages one run submits (grid) or executes (local), in order. */
  function Plan(skipped: set<Stage>, caps: Capabilities, performTraining: bool): (p: seq<Stage>)
    ensures |p| <= 9
    ensures Ascending(p)
    ensures forall s :: s in p <==> Selected(s, skipped, caps, performTraining)
  {
    var all := AllStages();
    assert forall s: Stage :: s in all by {
      forall s: Stage ensures s in all { assert all[Rank(s)] == s; }
    }
    SelectFromAscending(all, skipped, caps, performTraining);
    SelectFrom(all, skipped, caps, performTraining)
  }

  /** Appending a stage to the visited ones extends the selection by that stage if it is taken. */
  lemma {:induction false} SelectFromSnoc(stages: seq<Stage>, s: Stage, skipped: set<Stage>, caps: Capabilities, performTraining: bool)
    ensures SelectFrom(stages + [s], skipped, caps, performTraining)
         == SelectFrom(stages, skipped, caps, performTraining)
            + (if Selected(s, skipped, caps, performTraining) then [s] else [])
  {
    if stages != [] {
      assert (stages + [s])[1..] == stages[1..] + [s];
      SelectFromSnoc(stages[1..], s, skipped, caps, performTraining);
    }
  }

  /** The stages of `stages` other than `x`, in order. */
  function Without(stages: seq<Stage>, x: Stage): (r: seq<Stage>)
    ensures forall s :: s in r <==> s in stages && s != x
  {
    if stages == [] then []
    else if stages[0] == x then Without(stages[1..], x)
    else [stages[0]] + Without(stages[1..], x)
  }

  /**
   * Skipping is transparent: setting one more skip flag removes exactly
   * that stage from the run and leaves the others, in the same order.
   */
  lemma {:induction false} SkipRemovesOnlyThatStage(stages: seq<Stage>, skipped: set<Stage>, caps: Capabilities, performTraining: bool, x: Stage)
    ensures SelectFrom(stages, skipped + {x}, caps, performTraining)
         == Without(SelectFrom(stages, skipped, caps, performTraining), x)
  {
    if stages != [] {
      SkipRemovesOnlyThatStage(stages[1..], skipped, caps, performTraining, x);
    }
  }

  /** The whole-run form of the above. */
  lemma SkipInPlan(skipped: set<Stage>, caps: Capabilities, performTraining: bool, x: Stage)
    ensures Plan(skipped + {x}, caps, performTraining) == Without(Plan(skipped, caps, performTraining), x)
  {
    SkipRemovesOnlyThatStage(AllStages(), skipped, caps, performTraining, x);
  }

  /** Without the training pass a run takes no training stage; with it, each one it is able to. */
  lemma TrainingStagesInPlan(skipped: set<Stage>, caps: Capabilities, performTraining: bool)
    ensures forall s :: IsTraining(s) && s in Plan(skipped, caps, performTraining) ==> performTraining
    ensures ExtractorTraining in Plan(skipped, caps, performTraining)
        <==> performTraining && ExtractorTraining !in skipped && caps.extractorTrain
    ensures ProjectorTraining in Plan(skipped, caps, performTraining)
        <==> performTraining && ProjectorTraining !in skipped && caps.trainProjector
    ensures EnrollerTraining in Plan(skipped, caps, performTraining)
        <==> performTraining && EnrollerTraining !in skipped && caps.trainEnroller
    ensures FeatureProjection in Plan(skipped, caps, performTraining)
        <==> FeatureProjection !in skipped && caps.project
  {
  }

  /** The stages of `stages` that are not training stages, in order. */
  function WithoutTraining(stages: seq<Stage>): (r: seq<Stage>)
    ensures forall s :: s in r <==> s in stages && !IsTraining(s)
  {
    if stages == [] then []
    else if IsTraining(stages[0]) then WithoutTraining(stages[1..])
    else [stages[0]] + WithoutTraining(stages[1..])
  }

  /**
   * Leaving out the training pass removes exactly the training stages
   * from a selection and keeps the others, in the same order.
   */
  lemma {:induction false} NoTrainingDropsOnlyTraining(stages: seq<Stage>, skipped: set<Stage>, caps: Capabilities)
    ensures SelectFrom(stages, skipped, caps, false) == WithoutTraining(SelectFrom(stages, skipped, caps, true))
  {
    if stages != [] {
      NoTrainingDropsOnlyTraining(stages[1..], skipped, caps);
    }
  }

  /** The whole-run form of the above. */
  lemma NoTrainingPlan(skipped: set<Stage>, caps: Capabilities)
    ensures Plan(skipped, caps, false) == WithoutTraining(Plan(skipped, caps, true))
  {
    NoTrainingDropsOnlyTraining(AllStages(), skipped, caps);
  }

  /** The list a stage's array job is sized by, with its chunk size (splittable stages only). */
  function SubmittedList(s: Stage, lens: ListLengths, chunks: ChunkSizes): (r: Option<(nat, int)>)
    ensures r.Some? <==> !IsTraining(s) && !s.Concatenation?
  {
    match s
    case Preprocessing => Some((lens.originalImages, chunks.imagesPerJob))
    case FeatureExtraction => Some((lens.preprocessedImages, chunks.featuresPerJob))
    case FeatureProjection => Some((lens.features, chunks.projectionsPerJob))
    case Enrollment => Some((lens.devModels, chunks.modelsPerEnrollJob))
    case ScoreComputation => Some((lens.devModels, chunks.modelsPerScoreJob))
    case _ => None
  }

  /** The list a stage's sub-task slices by slot, with its chunk size (splittable stages only). */
  function SlicedList(s: Stage, lens: ListLengths, chunks: ChunkSizes): (r: Option<(nat, int)>)
    ensures r.Some? <==> !IsTraining(s) && !s.Concatenation?
  {
    match s
    case Preprocessing => Some((lens.originalImages, chunks.imagesPerJob))
    case FeatureExtraction => Some((lens.preprocessedImages, chunks.featuresPerJob))
    case FeatureProjection => Some((lens.preprocessedImages, chunks.projectionsPerJob))
    case Enrollment => Some((lens.devModels, chunks.modelsPerEnrollJob))
    case ScoreComputation => Some((lens.devModels, chunks.modelsPerScoreJob))
    case _ => None
  }

  /**
   * Submission and slicing use the same list for every stage except
   * projection, where the array is sized by the feature list but the
   * slots slice the preprocessed-image list.
   */
  lemma SubmittedVersusSlicedList(s: Stage, lens: ListLengths, chunks: ChunkSizes)
    ensures SubmittedList(s, lens, chunks).Some? <==> SlicedList(s, lens, chunks).Some?
    ensures SubmittedList(s, lens, chunks) == SlicedList(s, lens, chunks)
        <==> !s.FeatureProjection? || lens.features == lens.preprocessedImages
  {
  }

  /** Every chunk size that a run's splittable stages divide by is positive. */
  predicate ChunksValid(plan: seq<Stage>, lens: ListLengths, chunks: ChunkSizes) {
    forall s :: s in plan && SubmittedList(s, lens, chunks).Some? ==> SubmittedList(s, lens, chunks).value.1 >= 1
  }
}
