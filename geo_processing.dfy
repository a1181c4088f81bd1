/** The geoprocessing panel (`GeoProcessing`): a fixed table of six
    operations with the inputs each one needs, a dialog collecting those
    inputs, and a most-recent-first list of jobs. A job is created
    `running`, and some time later it is completed with a feature count or
    failed with a message; the outcome is an input here, as is the clock. */
module GeoProcessing {
  import opened Wrappers
  import opened Seqs
  import opened Strings

  datatype ProcessType = Buffer | Intersect | Union | Difference | Centroid | Simplify

  const AllProcessTypes: seq<ProcessType> := [Buffer, Intersect, Union, Difference, Centroid, Simplify]

  /** The part of a `processTypes` entry that drives behaviour (the icon and
      colour are presentation). */
  datatype ProcessConfig = ProcessConfig(name: string, requiresSecondLayer: bool, requiresDistance: bool)

  /** `processTypes[t]`: the distance-based operations (buffer, simplify)
      take one layer, the overlay operations (intersect, union, difference)
      take two layers and no distance, centroid takes neither. */
  function Config(t: ProcessType): (c: ProcessConfig)
    ensures c.requiresDistance <==> t == Buffer || t == Simplify
    ensures c.requiresSecondLayer <==> t == Intersect || t == Union || t == Difference
  {
    match t
    case Buffer => ProcessConfig("منطقة عازلة", false, true)
    case Intersect => ProcessConfig("تقاطع", true, false)
    case Union => ProcessConfig("اتحاد", true, false)
    case Difference => ProcessConfig("فرق", true, false)
    case Centroid => ProcessConfig("مركز ثقل", false, false)
    case Simplify => ProcessConfig("تبسيط", false, true)
  }

  /** The capability table: no operation needs both a distance and a second
      layer, the table covers the six operations, and their names are
      distinct. */
  lemma {:induction false} CapabilityTable(t: ProcessType)
    ensures !(Config(t).requiresDistance && Config(t).requiresSecondLayer)
    ensures t in AllProcessTypes && |AllProcessTypes| == 6
    ensures forall i, j :: 0 <= i < j < 6 ==> Config(AllProcessTypes[i]).name != Config(AllProcessTypes[j]).name
  {
    match t
    case Buffer =>
    case Intersect =>
    case Union =>
    case Difference =>
    case Centroid =>
    case Simplify =>
  }

  datatype JobStatus = Pending | Running | Completed | Failed

  /** `params` of a job: the second layer and the distance are present only
      for the operations that use them. */
  datatype JobParams = JobParams(primaryLayer: string, secondaryLayer: Option<string>, distance: Option<real>)

  /** A job; `result` is the simulated `{ featureCount }`. */
  datatype Job = Job(
    id: string,
    kind: ProcessType,
    status: JobStatus,
    params: JobParams,
    result: Option<nat>,
    error: Option<string>,
    createdAt: int)

  const FailureMessage := "فشل في المعالجة"

  /** The shape every job has: running with no outcome, completed with a
      result and no error, or failed with an error and no result. */
  predicate JobWellFormed(j: Job)
  {
    match j.status
    case Pending => false
    case Running => j.result.None? && j.error.None?
    case Completed => j.result.Some? && j.error.None?
    case Failed => j.result.None? && j.error.Some?
  }

  /** Newest first: creation times never increase along the list. */
  predicate MostRecentFirst(jobs: seq<Job>)
  {
    forall i, j :: 0 <= i < j < |jobs| ==> jobs[i].createdAt >= jobs[j].createdAt
  }

  /** The parameters recorded for one run. */
  function RunParams(t: ProcessType, primary: string, secondary: string, distanceValue: real): (p: JobParams)
    ensures p.primaryLayer == primary
    ensures p.secondaryLayer.Some? <==> Config(t).requiresSecondLayer
    ensures p.distance.Some? <==> Config(t).requiresDistance
    ensures p.secondaryLayer.Some? ==> p.secondaryLayer.value == secondary
    ensures p.distance.Some? ==> p.distance.value == distanceValue
  {
    JobParams(
      primary,
      if Config(t).requiresSecondLayer then Some(secondary) else None,
      if Config(t).requiresDistance then Some(distanceValue) else None)
  }

  /** A finished job: completed with a feature count, or failed. */
  function Complete(j: Job, success: bool, featureCount: nat): (r: Job)
    ensures JobWellFormed(r)
    ensures r.id == j.id && r.kind == j.kind && r.params == j.params && r.createdAt == j.createdAt
    ensures success ==> r.status == Completed && r.result == Some(featureCount)
    ensures !success ==> r.status == Failed && r.error == Some(FailureMessage)
  {
    if success then j.(status := Completed, result := Some(featureCount), error := None)
    else j.(status := Failed, result := None, error := Some(FailureMessage))
  }

  /** `prev.map(job => job.id === newJob.id ? { ...job, ... } : job)` */
  function CompleteJob(jobs: seq<Job>, id: string, success: bool, featureCount: nat): (r: seq<Job>)
    ensures |r| == |jobs|
    ensures forall i :: 0 <= i < |r| ==> r[i] == if jobs[i].id == id then Complete(jobs[i], success, featureCount) else jobs[i]
  {
    seq(|jobs|, i requires 0 <= i < |jobs| => if jobs[i].id == id then Complete(jobs[i], success, featureCount) else jobs[i])
  }

  /** Completion keeps the list newest-first and every job well formed, and
      leaves every job with another id as it was. */
  lemma CompleteJobPreserves(jobs: seq<Job>, id: string, success: bool, featureCount: nat)
    requires MostRecentFirst(jobs)
    requires forall i :: 0 <= i < |jobs| ==> JobWellFormed(jobs[i])
    ensures var r := CompleteJob(jobs, id, success, featureCount);
      MostRecentFirst(r) && forall i :: 0 <= i < |r| ==> JobWellFormed(r[i])
  {
    var r := CompleteJob(jobs, id, success, featureCount);
    forall i, j | 0 <= i < j < |r| ensures r[i].createdAt >= r[j].createdAt {
      assert r[i].createdAt == jobs[i].createdAt && r[j].createdAt == jobs[j].createdAt;
    }
  }

  /** `jobs.slice(0, 5)`: the five newest jobs, or all of them when there
      are fewer. */
  function DisplayedJobs(jobs: seq<Job>): (r: seq<Job>)
    ensures |r| == if |jobs| < 5 then |jobs| else 5
    ensures r == jobs[..|r|]
  {
    Slice(jobs, 0, 5)
  }

  /** Every shown job is at least as recent as every job left out. */
  lemma DisplayedAreNewest(jobs: seq<Job>)
    requires MostRecentFirst(jobs)
    ensures forall i, j :: 0 <= i < |DisplayedJobs(jobs)| <= j < |jobs| ==>
      DisplayedJobs(jobs)[i].createdAt >= jobs[j].createdAt
  {
    var r := DisplayedJobs(jobs);
    forall i, j | 0 <= i < |r| <= j < |jobs| ensures r[i].createdAt >= jobs[j].createdAt {
      assert r[i] == jobs[i];
    }
  }

  /** A layer as the panel receives it. */
  datatype LayerChoice = LayerChoice(id: string, name: string, geometryType: Option<string>)

  /** `layers.filter(l => l.id !== primaryLayer)`: the second-layer menu. */
  function SecondaryChoices(layers: seq<LayerChoice>, primary: string): (r: seq<LayerChoice>)
    ensures forall i :: 0 <= i < |r| ==> r[i].id != primary && r[i] in layers
    ensures forall i :: 0 <= i < |layers| && layers[i].id != primary ==> layers[i] in r
  {
    Filter(layers, (l: LayerChoice) => l.id != primary)
  }

  /** With a primary layer that is not in the list, every layer is offered,
      in order. */
  lemma SecondaryChoicesAll(layers: seq<LayerChoice>, primary: string)
    requires forall i :: 0 <= i < |layers| ==> layers[i].id != primary
    ensures SecondaryChoices(layers, primary) == layers
  {
    FilterKeepsAll(layers, (l: LayerChoice) => l.id != primary);
  }

  class GeoProcessingPanel {
    var selectedProcess: Option<ProcessType>
    var isDialogOpen: bool
    var primaryLayer: string
    var secondaryLayer: string
    var distance: string
    var jobs: seq<Job>
    var isProcessing: bool

    /** The job list stays newest-first and every job is well formed. */
    predicate Valid()
      reads this
    {
      MostRecentFirst(jobs) && forall i :: 0 <= i < |jobs| ==> JobWellFormed(jobs[i])
    }

    constructor ()
      ensures Valid()
      ensures selectedProcess.None? && !isDialogOpen && !isProcessing
      ensures primaryLayer == "" && secondaryLayer == "" && distance == "100" && jobs == []
    {
      selectedProcess := None;
      isDialogOpen := false;
      primaryLayer := "";
      secondaryLayer := "";
      distance := "100";
      jobs := [];
      isProcessing := false;
    }

    /** `handleOpenProcess`: selects the operation, clears both layer
        choices, resets the distance to "100" and opens the dialog. */
    method HandleOpenProcess(t: ProcessType)
      modifies this`selectedProcess, this`primaryLayer, this`secondaryLayer, this`distance, this`isDialogOpen
      ensures selectedProcess == Some(t) && isDialogOpen
      ensures primaryLayer == "" && secondaryLayer == "" && distance == "100"
    {
      selectedProcess := Some(t);
      primaryLayer := "";
      secondaryLayer := "";
      distance := "100";
      isDialogOpen := true;
    }

    method SetPrimaryLayer(id: string)
      modifies this`primaryLayer
      ensures primaryLayer == id
    {
      primaryLayer := id;
    }

    method SetSecondaryLayer(id: string)
      modifies this`secondaryLayer
      ensures secondaryLayer == id
    {
      secondaryLayer := id;
    }

    method SetDistance(text: string)
      modifies this`distance
      ensures distance == text
    {
      distance := text;
    }

    method SetDialogOpen(open: bool)
      modifies this`isDialogOpen
      ensures isDialogOpen == open
    {
      isDialogOpen := open;
    }

    /** The first half of `handleRunProcess`, up to the simulated delay.
        `now` is the clock reading used for the id and the creation time
        (not earlier than any job already listed), and `parseFloat` reads
        the distance text. Without an operation, without a primary layer, or
        without a required second layer nothing happens; otherwise a
        running job is put at the front of the list and processing starts. */
    method StartRun(now: nat, parseFloat: string -> real) returns (started: Option<Job>)
      requires Valid()
      requires forall i :: 0 <= i < |jobs| ==> jobs[i].createdAt <= now
      modifies this`jobs, this`isProcessing
      ensures Valid()
      ensures started.None? <==>
        old(selectedProcess).None? || old(primaryLayer) == "" ||
        (Config(old(selectedProcess).value).requiresSecondLayer && old(secondaryLayer) == "")
      ensures started.None? ==> jobs == old(jobs) && isProcessing == old(isProcessing)
      ensures started.Some? ==>
        && started.value.status == Running
        && started.value.kind == old(selectedProcess).value
        && started.value.params == RunParams(started.value.kind, old(primaryLayer), old(secondaryLayer), parseFloat(old(distance)))
        && started.value.createdAt == now
        && started.value.id == "job-" + DecimalString(now)
        && jobs == [started.value] + old(jobs)
        && isProcessing
    {
      if selectedProcess.None? || primaryLayer == "" {
        return None;
      }
      var t := selectedProcess.value;
      var config := Config(t);
      if config.requiresSecondLayer && secondaryLayer == "" {
        return None;
      }
      isProcessing := true;
      var job := Job(
        "job-" + DecimalString(now),
        t,
        Running,
        RunParams(t, primaryLayer, secondaryLayer, parseFloat(distance)),
        None,
        None,
        now);
      jobs := [job] + jobs;
      started := Some(job);
    }

    /** The second half of `handleRunProcess`, after the delay: the outcome
        (`success`, and a feature count below 100) is an input. Exactly the
        jobs with the new job's id are completed or failed, processing
        stops, the dialog closes, and the operation with the job's
        parameters is reported to `onProcess`. */
    method FinishRun(job: Job, success: bool, featureCount: nat) returns (report: (ProcessType, JobParams))
      requires Valid()
      requires featureCount < 100
      modifies this`jobs, this`isProcessing, this`isDialogOpen
      ensures Valid()
      ensures jobs == CompleteJob(old(jobs), job.id, success, featureCount)
      ensures !isProcessing && !isDialogOpen
      ensures report == (job.kind, job.params)
    {
      CompleteJobPreserves(jobs, job.id, success, featureCount);
      jobs := CompleteJob(jobs, job.id, success, featureCount);
      isProcessing := false;
      isDialogOpen := false;
      report := (job.kind, job.params);
    }

    /** The jobs shown under "recent operations". */
    function Displayed(): (r: seq<Job>)
      reads this
      ensures |r| <= 5 && |r| <= |jobs| && r == jobs[..|r|]
      ensures |jobs| <= 5 ==> r == jobs
    {
      DisplayedJobs(jobs)
    }
  }

  /** A full run, from opening the dialog to the job's completion: the new
      job is at the front and ends completed with the count, or failed. */
  method RunOnce(panel: GeoProcessingPanel, t: ProcessType, primary: string, secondary: string,
                 now: nat, parseFloat: string -> real, success: bool, featureCount: nat)
    returns (job: Option<Job>)
    requires panel.Valid()
    requires forall i :: 0 <= i < |panel.jobs| ==> panel.jobs[i].createdAt <= now
    requires primary != "" && secondary != "" && featureCount < 100
    modifies panel
    ensures panel.Valid()
    ensures job.Some? && |panel.jobs| == |old(panel.jobs)| + 1
    ensures panel.jobs[0].kind == t && panel.jobs[0].params.primaryLayer == primary
    ensures panel.jobs[0].status == (if success then Completed else Failed)
    ensures panel.jobs[0].params.distance.Some? ==> panel.jobs[0].params.distance.value == parseFloat("100")
    ensures !panel.isProcessing && !panel.isDialogOpen
  {
    panel.HandleOpenProcess(t);
    panel.SetPrimaryLayer(primary);
    panel.SetSecondaryLayer(secondary);
    job := panel.StartRun(now, parseFloat);
    var _ := panel.FinishRun(job.value, success, featureCount);
  }
}
