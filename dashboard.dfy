/**
 * The dashboard's figures: the four stat cards, the pipeline counts and the
 * last points of the two trend lines, computed from the job and candidate
 * lists the other pages store. Every figure is a `filter(...).length` count;
 * the pipeline counts and the trend points replace a zero count by a fixed
 * demo number, because `n || d` treats 0 as missing.
 *
 * The stat cards and the pipeline counts are recomputed on every render. The
 * two charts are drawn by an effect that runs only once, on the first
 * render's empty lists, so what they show never follows storage: see
 * `DrawnCharts` and `DashboardPage`.
 */
module Dashboard {
  import opened Wrappers
  import opened JsStrings
  import opened Lists
  import Jobs
  import Candidates

  type Job = Jobs.Job
  type Candidate = Candidates.Candidate

  /** `jobs.filter(j => j.status === status).length` */
  function JobsWithStatus(jobs: seq<Job>, status: string): nat {
    Count(jobs, (j: Job) => j.status == status)
  }

  /** `candidates.filter(c => c.status === status).length` */
  function CandidatesWithStatus(candidates: seq<Candidate>, status: string): nat {
    Count(candidates, (c: Candidate) => c.status == status)
  }

  // ---------------------------------------------------------------- stat cards

  /** `activeJobs`: the jobs with status 'Active'; together with the others they make up `totalJobs`. */
  function ActiveJobs(jobs: seq<Job>): (n: nat)
    ensures n <= |jobs|
    ensures n + Count(jobs, (j: Job) => j.status != "Active") == |jobs|
    ensures forall j :: j in jobs && j.status == "Active" ==> n > 0
  {
    CountComplement(jobs, (j: Job) => j.status == "Active", (j: Job) => j.status != "Active");
    JobsWithStatus(jobs, "Active")
  }

  /** `interviewingCandidates`: the candidates with status 'Interviewing'; never more than `totalCandidates`. */
  function InterviewingCandidates(candidates: seq<Candidate>): (n: nat)
    ensures n <= |candidates|
    ensures n + Count(candidates, (c: Candidate) => c.status != "Interviewing") == |candidates|
    ensures forall c :: c in candidates && c.status == "Interviewing" ==> n > 0
  {
    CountComplement(candidates, (c: Candidate) => c.status == "Interviewing", (c: Candidate) => c.status != "Interviewing");
    CandidatesWithStatus(candidates, "Interviewing")
  }

  /**
   * A stat card; `name` is the source's `label` (a reserved word here). The
   * page uses `label` only as the card's key: every card's heading is the
   * same text, `t('dashboard.totalCandidates')`.
   */
  datatype Stat = Stat(name: string, value: string, change: string, color: string)

  predicate AllDigits(s: string) {
    forall i :: 0 <= i < |s| ==> IsDigit(s[i])
  }

  /**
   * The `stats` list: four cards in fixed order, each value the decimal
   * string of its count, so the count can be read back from the card.
   */
  function Stats(jobs: seq<Job>, candidates: seq<Candidate>): (r: seq<Stat>)
    ensures |r| == 4
    ensures r[0].name == "Total Jobs" && r[1].name == "Active Jobs"
    ensures r[2].name == "Total Candidates" && r[3].name == "Interviews Scheduled"
    ensures r[0].change == "+12%" && r[1].change == "+23%" && r[2].change == "+18%" && r[3].change == "+8%"
    ensures r[0].color == "blue" && r[1].color == "green" && r[2].color == "purple" && r[3].color == "orange"
    ensures AllDigits(r[0].value) && AllDigits(r[1].value) && AllDigits(r[2].value) && AllDigits(r[3].value)
    ensures ParseDecimal(r[0].value) == |jobs|
    ensures ParseDecimal(r[1].value) == ActiveJobs(jobs)
    ensures ParseDecimal(r[2].value) == |candidates|
    ensures ParseDecimal(r[3].value) == InterviewingCandidates(candidates)
  {
    ParseDecimalString(|jobs|);
    ParseDecimalString(ActiveJobs(jobs));
    ParseDecimalString(|candidates|);
    ParseDecimalString(InterviewingCandidates(candidates));
    [ Stat("Total Jobs", DecimalString(|jobs|), "+12%", "blue"),
      Stat("Active Jobs", DecimalString(ActiveJobs(jobs)), "+23%", "green"),
      Stat("Total Candidates", DecimalString(|candidates|), "+18%", "purple"),
      Stat("Interviews Scheduled", DecimalString(InterviewingCandidates(candidates)), "+8%", "orange") ]
  }

  // ---------------------------------------------------------------- pipeline

  /** `n || d` on a number: zero counts as missing. */
  function OrDefault(n: nat, d: nat): (r: nat)
    ensures n > 0 ==> r == n
    ensures n == 0 ==> r == d
  {
    if n != 0 then n else d
  }

  /** The pipeline bars, left to right, and the number each bar shows when nobody has that status. */
  const PipelineStatuses: seq<string> := ["Applied", "Screening", "Interviewing", "Offered", "Hired"]
  const PipelineDefaults: seq<nat> := [42, 28, 15, 8, 5]

  /**
   * `[appliedCount, screeningCount, interviewingCount, offeredCount, hiredCount]`:
   * each bar is the number of candidates with its status, or its demo number
   * when that is zero, so no bar is ever empty.
   */
  function PipelineCounts(candidates: seq<Candidate>): (r: seq<nat>)
    ensures |r| == 5
    ensures forall i :: 0 <= i < 5 ==> r[i] > 0
    ensures forall i :: 0 <= i < 5 && CandidatesWithStatus(candidates, PipelineStatuses[i]) > 0 ==>
      r[i] == CandidatesWithStatus(candidates, PipelineStatuses[i])
    ensures forall i :: 0 <= i < 5 && CandidatesWithStatus(candidates, PipelineStatuses[i]) == 0 ==>
      r[i] == PipelineDefaults[i]
  {
    [ OrDefault(CandidatesWithStatus(candidates, "Applied"), 42),
      OrDefault(CandidatesWithStatus(candidates, "Screening"), 28),
      OrDefault(CandidatesWithStatus(candidates, "Interviewing"), 15),
      OrDefault(CandidatesWithStatus(candidates, "Offered"), 8),
      OrDefault(CandidatesWithStatus(candidates, "Hired"), 5) ]
  }

  /** The number of candidates whose status is one of the five pipeline statuses. */
  function InPipeline(candidates: seq<Candidate>): nat {
    Count(candidates, (c: Candidate) => c.status in PipelineStatuses)
  }

  /** The five status counts add up to the candidates whose status is in the pipeline. */
  lemma {:induction false} StatusCountsAdd(candidates: seq<Candidate>)
    ensures CandidatesWithStatus(candidates, "Applied") + CandidatesWithStatus(candidates, "Screening")
      + CandidatesWithStatus(candidates, "Interviewing") + CandidatesWithStatus(candidates, "Offered")
      + CandidatesWithStatus(candidates, "Hired") == InPipeline(candidates)
  {
    if candidates != [] {
      StatusCountsAdd(candidates[1..]);
    }
  }

  /**
   * When every status is represented the bars show real counts, and then
   * together they never exceed `totalCandidates`.
   */
  lemma PipelineWithinTotal(candidates: seq<Candidate>)
    requires forall i :: 0 <= i < 5 ==> CandidatesWithStatus(candidates, PipelineStatuses[i]) > 0
    ensures var r := PipelineCounts(candidates);
      r[0] + r[1] + r[2] + r[3] + r[4] == InPipeline(candidates) <= |candidates|
  {
    assert CandidatesWithStatus(candidates, PipelineStatuses[0]) > 0;
    assert CandidatesWithStatus(candidates, PipelineStatuses[1]) > 0;
    assert CandidatesWithStatus(candidates, PipelineStatuses[2]) > 0;
    assert CandidatesWithStatus(candidates, PipelineStatuses[3]) > 0;
    assert CandidatesWithStatus(candidates, PipelineStatuses[4]) > 0;
    StatusCountsAdd(candidates);
  }

  // ---------------------------------------------------------------- trend lines

  /** The last "Applications" point, `totalCandidates || 95`. */
  function LastApplicationsPoint(candidates: seq<Candidate>): (r: nat)
    ensures r > 0
    ensures candidates != [] ==> r == |candidates|
    ensures candidates == [] ==> r == 95
  {
    OrDefault(|candidates|, 95)
  }

  /** The last "Hires" point, `hiredCount + 17`, where `hiredCount` is the Hired bar. */
  function LastHiresPoint(candidates: seq<Candidate>): (r: nat)
    ensures r >= 18
    ensures r == PipelineCounts(candidates)[4] + 17
    ensures CandidatesWithStatus(candidates, "Hired") == 0 ==> r == 22
  {
    PipelineCounts(candidates)[4] + 17
  }

  /**
   * With no candidates stored the stat cards say 0 candidates and 0
   * interviews, while the pipeline and trend lines show their demo numbers.
   */
  lemma NoCandidatesShowsDemoFigures(jobs: seq<Job>)
    ensures Stats(jobs, [])[2].value == "0" && Stats(jobs, [])[3].value == "0"
    ensures PipelineCounts([]) == PipelineDefaults
    ensures LastApplicationsPoint([]) == 95 && LastHiresPoint([]) == 22
  {
    var r := Stats(jobs, []);
    assert DecimalString(0) == "0";
  }

  /** The figures for the lists the pages start with. */
  lemma DefaultJobsFigures()
    ensures ActiveJobs(Jobs.DefaultJobs) == 4
  {
    var js := Jobs.DefaultJobs;
    assert js[1..][1..][1..][1..][1..] == [];
  }

  lemma DefaultCandidatesFigures()
    ensures InterviewingCandidates(Candidates.DefaultCandidates) == 2
  {
    var cs := Candidates.DefaultCandidates;
    assert cs[1..][1..][1..][1..][1..] == [];
  }

  lemma DefaultEarlyStages()
    ensures CandidatesWithStatus(Candidates.DefaultCandidates, "Applied") == 1
    ensures CandidatesWithStatus(Candidates.DefaultCandidates, "Screening") == 1
  {
    var cs := Candidates.DefaultCandidates;
    assert cs[1..][1..][1..][1..][1..] == [];
  }

  lemma DefaultLateStages()
    ensures CandidatesWithStatus(Candidates.DefaultCandidates, "Offered") == 1
    ensures CandidatesWithStatus(Candidates.DefaultCandidates, "Hired") == 0
  {
    var cs := Candidates.DefaultCandidates;
    assert cs[1..][1..][1..][1..][1..] == [];
  }

  lemma DefaultPipelineFigures()
    ensures PipelineCounts(Candidates.DefaultCandidates) == [1, 1, 2, 1, 5]
  {
    DefaultEarlyStages();
    DefaultCandidatesFigures();
    DefaultLateStages();
  }

  // ---------------------------------------------------------------- the drawn charts

  /** What the two charts draw: the five pipeline bars and the last point of each trend line. */
  datatype ChartFigures = ChartFigures(bars: seq<nat>, lastApplications: nat, lastHires: nat)

  /**
   * The charts drawn from a candidate list, as the drawing effect evaluates
   * them: the pipeline counts as bars, `totalCandidates || 95` and
   * `hiredCount + 17` as the last points. This is what the charts were meant
   * to show for the list on screen.
   */
  function IntendedCharts(candidates: seq<Candidate>): (c: ChartFigures)
    ensures |c.bars| == 5
    ensures forall i :: 0 <= i < 5 ==>
      c.bars[i] == OrDefault(CandidatesWithStatus(candidates, PipelineStatuses[i]), PipelineDefaults[i])
    ensures candidates != [] ==> c.lastApplications == |candidates|
    ensures c.lastHires == OrDefault(CandidatesWithStatus(candidates, "Hired"), 5) + 17
  {
    ChartFigures(PipelineCounts(candidates), LastApplicationsPoint(candidates), LastHiresPoint(candidates))
  }

  /**
   * The charts actually drawn when storage holds `stored`. The drawing effect
   * has an empty dependency list, so it runs once, after the first render,
   * when the candidate state is still its initial `[]`; the lists loaded
   * afterwards re-render the page but never redraw the charts.
   */
  function DrawnCharts(stored: seq<Candidate>): (c: ChartFigures)
    ensures c == ChartFigures(PipelineDefaults, 95, 22)
  {
    IntendedCharts([])
  }

  /** The drawn charts do not depend on what is stored. */
  lemma DrawnChartsIgnoreStorage(a: seq<Candidate>, b: seq<Candidate>)
    ensures DrawnCharts(a) == DrawnCharts(b)
  {
  }

  /**
   * With the default candidates stored, the bars drawn are the demo numbers
   * 42, 28, 15, 8, 5 where the candidate list gives 1, 1, 2, 1, 5.
   */
  lemma DefaultCandidatesChartedAsDemo()
    ensures DrawnCharts(Candidates.DefaultCandidates).bars == [42, 28, 15, 8, 5]
    ensures IntendedCharts(Candidates.DefaultCandidates).bars == [1, 1, 2, 1, 5]
    ensures DrawnCharts(Candidates.DefaultCandidates) != IntendedCharts(Candidates.DefaultCandidates)
  {
    DefaultPipelineFigures();
  }

  // ---------------------------------------------------------------- the page

  /**
   * The dashboard's state: the two lists it has read from storage and the
   * figures its charts show. The cards and pipeline counts are functions of
   * the lists; the charts are fixed when the page mounts.
   */
  class DashboardPage {
    var jobs: seq<Job>
    var candidates: seq<Candidate>
    var charts: ChartFigures

    /**
     * Mounting: the first render, with both lists empty, draws the charts;
     * then the load effect replaces each list by its stored value, if any.
     */
    constructor (savedJobs: Option<seq<Job>>, savedCandidates: Option<seq<Candidate>>)
      ensures jobs == savedJobs.GetOr([]) && candidates == savedCandidates.GetOr([])
      ensures charts == DrawnCharts(candidates)
      ensures charts == IntendedCharts([])
    {
      charts := IntendedCharts([]);
      jobs := savedJobs.GetOr([]);
      candidates := savedCandidates.GetOr([]);
    }

    /**
     * The two-second poll: each list that storage holds replaces the one on
     * screen, so the cards follow storage; the charts are not redrawn.
     */
    method Poll(updatedJobs: Option<seq<Job>>, updatedCandidates: Option<seq<Candidate>>)
      modifies this
      ensures jobs == updatedJobs.GetOr(old(jobs))
      ensures candidates == updatedCandidates.GetOr(old(candidates))
      ensures charts == old(charts)
    {
      if updatedJobs.Some? { jobs := updatedJobs.value; }
      if updatedCandidates.Some? { candidates := updatedCandidates.value; }
    }
  }
}
