/**
 * The job board page: a list of job postings kept in component state, a
 * search-and-filter view of it, and the handlers that delete, toggle, create
 * and reset jobs. Ids are `length + 1`, and the department select's first
 * option emits the empty string, both exactly as the page does.
 */
module Jobs {
  import opened Wrappers
  import opened JsStrings
  import opened Lists

  datatype Job = Job(
    id: int,
    title: string,
    department: string,
    location: string,
    jobType: string,
    applicants: int,
    status: string,
    description: string)

  /** The fields of the "create job" form. */
  datatype JobForm = JobForm(title: string, department: string, location: string, jobType: string, description: string)

  /** The sentinel filter values the page starts with and "Clear all" restores. */
  const AllDepartments := "All Departments"
  const AllStatus := "All Status"

  /** What the department select's "All Departments" option emits when chosen: its `value` attribute is empty. */
  const AllDepartmentsOption := ""

  /** The form the page starts with and returns to after a job is created. */
  const EmptyJobForm := JobForm("", "Engineering", "", "Full-time", "")

  const DefaultJobs: seq<Job> := [
    Job(1, "Senior Frontend Developer", "Engineering", "Remote", "Full-time", 45, "Active", "Looking for experienced React developer"),
    Job(2, "Product Manager", "Product", "Warsaw", "Full-time", 32, "Active", "Lead product strategy and roadmap"),
    Job(3, "UX Designer", "Design", "Hybrid", "Full-time", 28, "Active", "Create beautiful user experiences"),
    Job(4, "Data Analyst", "Analytics", "Remote", "Full-time", 19, "Active", "Analyze data and provide insights"),
    Job(5, "DevOps Engineer", "Engineering", "Warsaw", "Contract", 15, "Draft", "Manage cloud infrastructure")
  ]

  // ---------------------------------------------------------------- the filter

  predicate MatchesSearch(job: Job, term: string) {
    Includes(ToLower(job.title), ToLower(term)) || Includes(ToLower(job.department), ToLower(term))
  }

  predicate MatchesDepartment(job: Job, departmentFilter: string) {
    departmentFilter == AllDepartments || job.department == departmentFilter
  }

  predicate MatchesStatus(job: Job, statusFilter: string) {
    statusFilter == AllStatus || job.status == statusFilter
  }

  predicate PassesFilters(job: Job, term: string, departmentFilter: string, statusFilter: string) {
    MatchesSearch(job, term) && MatchesDepartment(job, departmentFilter) && MatchesStatus(job, statusFilter)
  }

  /** `filteredJobs`: the jobs that pass all three filters, in list order. */
  function FilteredJobs(jobs: seq<Job>, term: string, departmentFilter: string, statusFilter: string): (r: seq<Job>)
    ensures forall j :: j in r <==> j in jobs && PassesFilters(j, term, departmentFilter, statusFilter)
    ensures forall j :: multiset(r)[j] == if PassesFilters(j, term, departmentFilter, statusFilter) then multiset(jobs)[j] else 0
    ensures IsSubsequence(r, jobs)
  {
    var keep := j => PassesFilters(j, term, departmentFilter, statusFilter);
    FilterIsSubsequence(jobs, keep);
    FilterMultiplicity(jobs, keep);
    Filter(jobs, keep)
  }

  /** With an empty search and both sentinels, every job is shown. */
  lemma UnfilteredShowsAll(jobs: seq<Job>)
    ensures FilteredJobs(jobs, "", AllDepartments, AllStatus) == jobs
  {
    forall i | 0 <= i < |jobs| ensures PassesFilters(jobs[i], "", AllDepartments, AllStatus) {
      IncludesEmpty(ToLower(jobs[i].title));
    }
    FilterAll(jobs, j => PassesFilters(j, "", AllDepartments, AllStatus));
  }

  /** Choosing the "All Departments" option filters on the empty department, not on the sentinel. */
  lemma AllDepartmentsOptionKeepsOnlyEmptyDepartment(jobs: seq<Job>, term: string, statusFilter: string)
    ensures forall j :: j in FilteredJobs(jobs, term, AllDepartmentsOption, statusFilter) ==> j.department == ""
  {
  }

  /** So on the default jobs, choosing that option shows nothing at all. */
  lemma AllDepartmentsOptionHidesDefaults()
    ensures FilteredJobs(DefaultJobs, "", AllDepartmentsOption, AllStatus) == []
  {
    var keep := j => PassesFilters(j, "", AllDepartmentsOption, AllStatus);
    forall i | 0 <= i < |DefaultJobs| ensures !keep(DefaultJobs[i]) {
      assert DefaultJobs[i].department != "";
    }
    FilterNone(DefaultJobs, keep);
  }

  // ---------------------------------------------------------------- list updates

  /** `handleDeleteJob`: drop every job with the given id. */
  function WithoutJob(jobs: seq<Job>, jobId: int): (r: seq<Job>)
    ensures forall j :: j in r <==> j in jobs && j.id != jobId
    ensures forall j :: multiset(r)[j] == if j.id != jobId then multiset(jobs)[j] else 0
    ensures IsSubsequence(r, jobs)
    ensures |r| == |jobs| - Count(jobs, (j: Job) => j.id == jobId)
  {
    var keep := (j: Job) => j.id != jobId;
    FilterIsSubsequence(jobs, keep);
    FilterMultiplicity(jobs, keep);
    CountComplement(jobs, keep, (j: Job) => j.id == jobId);
    Filter(jobs, keep)
  }

  /** The status a toggle moves to: 'Active' becomes 'Draft', anything else becomes 'Active'. */
  function ToggledStatus(status: string): (r: string)
    ensures r == "Draft" <==> status == "Active"
    ensures r == "Active" || r == "Draft"
  {
    if status == "Active" then "Draft" else "Active"
  }

  /** `handleToggleStatus`: toggle the status of the jobs with the given id, nothing else. */
  function ToggleWhere(jobs: seq<Job>, jobId: int): (r: seq<Job>)
    ensures |r| == |jobs|
    ensures forall i :: 0 <= i < |jobs| && jobs[i].id != jobId ==> r[i] == jobs[i]
    ensures forall i :: 0 <= i < |jobs| && jobs[i].id == jobId ==>
              r[i] == jobs[i].(status := ToggledStatus(jobs[i].status))
  {
    seq(|jobs|, i requires 0 <= i < |jobs| =>
      if jobs[i].id == jobId then jobs[i].(status := ToggledStatus(jobs[i].status)) else jobs[i])
  }

  /** Toggling twice restores the list exactly when every targeted job was 'Active' or 'Draft'. */
  lemma ToggleTwiceRestores(jobs: seq<Job>, jobId: int)
    ensures ToggleWhere(ToggleWhere(jobs, jobId), jobId) == jobs
        <==> forall j :: j in jobs && j.id == jobId ==> j.status == "Active" || j.status == "Draft"
  {
    var twice := ToggleWhere(ToggleWhere(jobs, jobId), jobId);
    if forall j :: j in jobs && j.id == jobId ==> j.status == "Active" || j.status == "Draft" {
      forall i | 0 <= i < |jobs| ensures twice[i] == jobs[i] {
        if jobs[i].id == jobId {
          assert jobs[i] in jobs;
        }
      }
    } else {
      var j :| j in jobs && j.id == jobId && j.status != "Active" && j.status != "Draft";
      var i :| 0 <= i < |jobs| && jobs[i] == j;
      assert twice[i].status == "Draft";
    }
  }

  /** The job `handleSubmitNewJob` creates: id `length + 1`, no applicants, 'Active'. */
  function NewJob(jobs: seq<Job>, form: JobForm): (j: Job)
    ensures j.id == |jobs| + 1 && j.applicants == 0 && j.status == "Active"
    ensures j.title == form.title && j.department == form.department && j.location == form.location
    ensures j.jobType == form.jobType && j.description == form.description
  {
    Job(|jobs| + 1, form.title, form.department, form.location, form.jobType, 0, "Active", form.description)
  }

  /** Because ids are `length + 1`, deleting a default job and creating one reuses a live id. */
  lemma NewJobIdCanCollide(form: JobForm)
    ensures var after := WithoutJob(DefaultJobs, 1);
            NewJob(after, form).id == 5 && DefaultJobs[4] in after && DefaultJobs[4].id == 5
  {
    DeletingFirstDefaultJobLeavesFour();
    assert DefaultJobs[4] in DefaultJobs;
  }

  lemma DeletingFirstDefaultJobLeavesFour()
    ensures |WithoutJob(DefaultJobs, 1)| == 4
  {
    var isFirst := (j: Job) => j.id == 1;
    FilterNone(DefaultJobs[1..], isFirst);
    assert |Filter(DefaultJobs, isFirst)| == 1;
  }

  // ---------------------------------------------------------------- the page

  /** The component's state: the job list, the three filters and the create form. */
  class JobsPage {
    var jobs: seq<Job>
    var searchTerm: string
    var departmentFilter: string
    var statusFilter: string
    var newJobData: JobForm

    /** Mounting the page: the saved list when there is one, the defaults otherwise. */
    constructor (saved: Option<seq<Job>>)
      ensures jobs == (if saved.Some? then saved.value else DefaultJobs)
      ensures searchTerm == "" && departmentFilter == AllDepartments && statusFilter == AllStatus
      ensures newJobData == EmptyJobForm
    {
      jobs := if saved.Some? then saved.value else DefaultJobs;
      searchTerm := "";
      departmentFilter := AllDepartments;
      statusFilter := AllStatus;
      newJobData := EmptyJobForm;
    }

    /** The jobs on screen. */
    function Visible(): (r: seq<Job>)
      reads this
      ensures IsSubsequence(r, jobs)
      ensures forall j :: j in r <==> j in jobs && PassesFilters(j, searchTerm, departmentFilter, statusFilter)
      ensures forall j :: multiset(r)[j] == if PassesFilters(j, searchTerm, departmentFilter, statusFilter) then multiset(jobs)[j] else 0
    {
      FilteredJobs(jobs, searchTerm, departmentFilter, statusFilter)
    }

    method SetSearchTerm(term: string)
      modifies this
      ensures searchTerm == term
      ensures jobs == old(jobs) && departmentFilter == old(departmentFilter)
      ensures statusFilter == old(statusFilter) && newJobData == old(newJobData)
    {
      searchTerm := term;
    }

    /** The department select's change handler; choosing "All Departments" passes `AllDepartmentsOption`. */
    method SetDepartmentFilter(value: string)
      modifies this
      ensures departmentFilter == value
      ensures jobs == old(jobs) && searchTerm == old(searchTerm)
      ensures statusFilter == old(statusFilter) && newJobData == old(newJobData)
    {
      departmentFilter := value;
    }

    method SetStatusFilter(value: string)
      modifies this
      ensures statusFilter == value
      ensures jobs == old(jobs) && searchTerm == old(searchTerm)
      ensures departmentFilter == old(departmentFilter) && newJobData == old(newJobData)
    {
      statusFilter := value;
    }

    /** "Clear all": back to the sentinels, so every job is visible again. */
    method ClearFilters()
      modifies this
      ensures searchTerm == "" && departmentFilter == AllDepartments && statusFilter == AllStatus
      ensures jobs == old(jobs) && newJobData == old(newJobData)
      ensures Visible() == jobs
    {
      searchTerm, departmentFilter, statusFilter := "", AllDepartments, AllStatus;
      UnfilteredShowsAll(jobs);
    }

    method EditNewJob(form: JobForm)
      modifies this
      ensures newJobData == form
      ensures jobs == old(jobs) && searchTerm == old(searchTerm)
      ensures departmentFilter == old(departmentFilter) && statusFilter == old(statusFilter)
    {
      newJobData := form;
    }

    method DeleteJob(jobId: int)
      modifies this
      ensures jobs == WithoutJob(old(jobs), jobId)
      ensures searchTerm == old(searchTerm) && departmentFilter == old(departmentFilter)
      ensures statusFilter == old(statusFilter) && newJobData == old(newJobData)
    {
      jobs := WithoutJob(jobs, jobId);
    }

    method ToggleStatus(jobId: int)
      modifies this
      ensures jobs == ToggleWhere(old(jobs), jobId)
      ensures searchTerm == old(searchTerm) && departmentFilter == old(departmentFilter)
      ensures statusFilter == old(statusFilter) && newJobData == old(newJobData)
    {
      jobs := ToggleWhere(jobs, jobId);
    }

    /** `handleResetToDefaults`; `confirmed` is the user's answer to the confirmation dialog. */
    method ResetToDefaults(confirmed: bool)
      modifies this
      ensures jobs == if confirmed then DefaultJobs else old(jobs)
      ensures searchTerm == old(searchTerm) && departmentFilter == old(departmentFilter)
      ensures statusFilter == old(statusFilter) && newJobData == old(newJobData)
    {
      if confirmed {
        jobs := DefaultJobs;
      }
    }

    /** `handleSubmitNewJob`: prepend the new job and clear the form. */
    method SubmitNewJob()
      modifies this
      ensures jobs == [NewJob(old(jobs), old(newJobData))] + old(jobs)
      ensures |jobs| == |old(jobs)| + 1 && jobs[1..] == old(jobs)
      ensures newJobData == EmptyJobForm
      ensures searchTerm == old(searchTerm) && departmentFilter == old(departmentFilter)
      ensures statusFilter == old(statusFilter)
    {
      jobs := [NewJob(jobs, newJobData)] + jobs;
      newJobData := EmptyJobForm;
    }
  }
}
