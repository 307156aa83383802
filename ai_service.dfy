/**
 * The AI service: each method reads what it needs from the database, asks
 * the chat model, and parses the reply as JSON. The model, the database and
 * the file system are inputs here: a model call is a `Completion`, a parse is
 * a function from the reply text to an optional value, a lookup is a
 * `Fetch`. Every method but `calculateMatchScore` wraps its body in a catch
 * that rethrows any failure, a 404 included, as a 500 with a fixed message;
 * `calculateMatchScore` instead falls back to a fixed neutral score.
 */
module AIService {
  import opened Wrappers
  import opened JsStrings
  import ErrorHandler

  type AppError = ErrorHandler.AppError

  // ---------------------------------------------------------------- model calls and errors

  /** What `openai.chat.completions.create` gives: it throws, or the first choice's content, which may be null. */
  datatype Completion = CallFailed | Completed(content: Option<string>)

  /** The text handed to `JSON.parse`: `content || '{}'`. */
  function ReplyText(content: Option<string>): (t: string)
    ensures Truthy(content) ==> t == content.value
    ensures !Truthy(content) ==> t == "{}"
  {
    OrElse(content, "{}")
  }

  /** The parsed reply, or `None` when the call throws or the text is not what `parse` accepts. */
  function Reply<J>(completion: Completion, parse: string -> Option<J>): (r: Option<J>)
    ensures completion == CallFailed ==> r == None
    ensures completion.Completed? ==> r == parse(ReplyText(completion.content))
  {
    match completion
    case CallFailed => None
    case Completed(content) => parse(ReplyText(content))
  }

  /** A missing or empty reply is read as an empty JSON object, whatever the model meant. */
  lemma EmptyReplyReadAsEmptyObject<J>(parse: string -> Option<J>)
    ensures Reply(Completed(None), parse) == parse("{}")
    ensures Reply(Completed(Some("")), parse) == parse("{}")
  {
  }

  /** `new ApiError(message, 500)`, the only error a service method lets out. */
  function ServiceError(message: string): (e: AppError)
    ensures e.message == message && e.statusCode == Some(500) && e.isOperational == Some(true)
    ensures e.stack == Some(ErrorHandler.StackHead("Error", message))
  {
    ErrorHandler.NewApiError(message, Some(500), Some(ErrorHandler.StackHead("Error", message)))
  }

  /** The `catch` around a method body: any error, whatever its status, becomes `ServiceError(message)`. */
  function Rethrow<T>(r: Result<T, AppError>, message: string): (out: Result<T, AppError>)
    ensures r.Ok? ==> out == r
    ensures r.Err? ==> out == Err(ServiceError(message))
  {
    match r
    case Ok(_) => r
    case Err(_) => Err(ServiceError(message))
  }

  /** A model call inside a method's `try`: a failed call or a failed parse both end up as `ServiceError(message)`. */
  function AskModel<J>(completion: Completion, parse: string -> Option<J>, message: string): (r: Result<J, AppError>)
    ensures r.Ok? <==> Reply(completion, parse).Some?
    ensures r.Ok? ==> r.value == Reply(completion, parse).value
    ensures r.Err? ==> r.error == ServiceError(message)
  {
    match Reply(completion, parse)
    case Some(j) => Ok(j)
    case None => Err(ServiceError(message))
  }

  /** A `findUnique`: the record, `null`, or a thrown database error. */
  datatype Fetch<T> = Found(value: T) | NotFound | FetchFailed(error: AppError)

  // ---------------------------------------------------------------- records

  datatype Candidate = Candidate(id: string, firstName: string, lastName: string, currentPosition: string, yearsOfExperience: int)

  datatype Application = Application(candidate: Candidate)

  datatype Job = Job(id: string, title: string, skills: seq<string>, experienceLevel: string, applications: seq<Application>)

  // ---------------------------------------------------------------- parseResume

  datatype ParseOutcome<J> = ParseOutcome(result: Result<J, AppError>, uploadDeleted: bool)

  /**
   * `parseResume`: read the upload, ask the model, parse the reply, delete
   * the upload. The upload is deleted exactly when the whole method succeeds;
   * any failure on the way, a failed deletion included, is a 500 and leaves
   * the file in place.
   */
  function ParseResume<J>(readSucceeds: bool, completion: Completion, parse: string -> Option<J>, unlinkSucceeds: bool)
    : (r: ParseOutcome<J>)
    ensures r.uploadDeleted <==> r.result.Ok?
    ensures r.result.Err? ==> r.result.error == ServiceError("Failed to parse resume")
    ensures r.result.Ok? <==> readSucceeds && Reply(completion, parse).Some? && unlinkSucceeds
    ensures r.result.Ok? ==> r.result.value == Reply(completion, parse).value
  {
    var failed := ParseOutcome(Err(ServiceError("Failed to parse resume")), false);
    if !readSucceeds then failed
    else match Reply(completion, parse)
      case None => failed
      case Some(parsed) => if unlinkSucceeds then ParseOutcome(Ok(parsed), true) else failed
  }

  // ---------------------------------------------------------------- calculateMatchScore

  datatype Score = Score(overall: int, skills: int, experience: int, insights: string)

  /** The score a candidate gets when the model cannot be used. */
  const FallbackScore := Score(50, 50, 50, "Unable to perform AI analysis")

  /** `calculateMatchScore`: the parsed reply, or the neutral fallback when the call or the parse throws. */
  function CalculateMatchScore(completion: Completion, parse: string -> Option<Score>): (s: Score)
    ensures Reply(completion, parse).Some? ==> s == Reply(completion, parse).value
    ensures Reply(completion, parse) == None ==> s == FallbackScore
    ensures completion == CallFailed ==> s == FallbackScore
  {
    match Reply(completion, parse)
    case Some(score) => score
    case None => FallbackScore
  }

  // ---------------------------------------------------------------- matchCandidatesToJob

  datatype MatchEntry = MatchEntry(
    candidateId: string,
    candidateName: string,
    matchScore: int,
    skillsMatch: int,
    experienceMatch: int,
    insights: string)

  /** The entry built for one candidate from its score. */
  function EntryFor(c: Candidate, s: Score): (e: MatchEntry)
    ensures e.candidateId == c.id && e.candidateName == c.firstName + " " + c.lastName
    ensures e.matchScore == s.overall && e.skillsMatch == s.skills
    ensures e.experienceMatch == s.experience && e.insights == s.insights
  {
    MatchEntry(c.id, c.firstName + " " + c.lastName, s.overall, s.skills, s.experience, s.insights)
  }

  /**
   * `job.applications.map(...)`: one entry per application, in application
   * order, each scored with that candidate's own model call.
   */
  function Entries(applications: seq<Application>, completionFor: Candidate -> Completion, parse: string -> Option<Score>)
    : (r: seq<MatchEntry>)
    ensures |r| == |applications|
    ensures forall i :: 0 <= i < |r| ==>
      r[i] == EntryFor(applications[i].candidate, CalculateMatchScore(completionFor(applications[i].candidate), parse))
  {
    if applications == [] then []
    else
      var c := applications[0].candidate;
      [EntryFor(c, CalculateMatchScore(completionFor(c), parse))] + Entries(applications[1..], completionFor, parse)
  }

  /** A candidate whose model call fails gets the fallback; every other candidate's entry is untouched. */
  lemma FailedCallOnlyAffectsItsCandidate(applications: seq<Application>, completionFor: Candidate -> Completion,
                                          parse: string -> Option<Score>, failing: Candidate, i: nat)
    requires i < |applications|
    ensures var failed := (c: Candidate) => if c == failing then CallFailed else completionFor(c);
      var e := Entries(applications, failed, parse)[i];
      if applications[i].candidate == failing then
        e.matchScore == 50 && e.skillsMatch == 50 && e.experienceMatch == 50 && e.insights == "Unable to perform AI analysis"
      else e == Entries(applications, completionFor, parse)[i]
  {
  }

  predicate SortedByScore(s: seq<MatchEntry>) {
    forall i, j :: 0 <= i < j < |s| ==> s[i].matchScore >= s[j].matchScore
  }

  /** Puts `x` in front of the first entry of `t` that does not score more than it. */
  function Insert(x: MatchEntry, t: seq<MatchEntry>): (r: seq<MatchEntry>)
    ensures |r| == |t| + 1
    ensures multiset(r) == multiset(t) + multiset{x}
    ensures r[0] == x || (t != [] && r[0] == t[0])
  {
    if t == [] || x.matchScore >= t[0].matchScore then [x] + t
    else
      assert t == [t[0]] + t[1..];
      [t[0]] + Insert(x, t[1..])
  }

  /** A head scoring at least as much as a sorted list's first entry keeps it sorted. */
  lemma SortedCons(a: MatchEntry, rest: seq<MatchEntry>)
    requires SortedByScore(rest)
    requires rest == [] || a.matchScore >= rest[0].matchScore
    ensures SortedByScore([a] + rest)
  {
    forall i, j | 0 <= i < j < |rest| + 1
      ensures ([a] + rest)[i].matchScore >= ([a] + rest)[j].matchScore
    {
      if i == 0 && j > 1 {
        assert rest[0].matchScore >= rest[j - 1].matchScore;
      }
    }
  }

  /** Inserting into a list sorted by score keeps it sorted. */
  lemma {:induction false} InsertSorted(x: MatchEntry, t: seq<MatchEntry>)
    requires SortedByScore(t)
    ensures SortedByScore(Insert(x, t))
  {
    if t == [] || x.matchScore >= t[0].matchScore {
      assert Insert(x, t) == [x] + t;
      SortedCons(x, t);
    } else {
      var rest := Insert(x, t[1..]);
      assert Insert(x, t) == [t[0]] + rest;
      InsertSorted(x, t[1..]);
      assert t[0].matchScore >= rest[0].matchScore by {
        if rest[0] != x {
          assert rest[0] == t[1];
        }
      }
      SortedCons(t[0], rest);
    }
  }

  /**
   * `matchedCandidates.sort((a, b) => b.matchScore - a.matchScore)`: the
   * same entries, highest score first. `Array.prototype.sort` is stable, and
   * so is this insertion sort (see `SortKeepsTies`).
   */
  function SortByScore(s: seq<MatchEntry>): (r: seq<MatchEntry>)
    ensures |r| == |s|
    ensures multiset(r) == multiset(s)
    ensures SortedByScore(r)
  {
    if s == [] then [] else
      assert s == [s[0]] + s[1..];
      InsertSorted(s[0], SortByScore(s[1..]));
      Insert(s[0], SortByScore(s[1..]))
  }

  /** The entries scoring exactly `v`, in their order. */
  function WithScore(s: seq<MatchEntry>, v: int): (r: seq<MatchEntry>)
  {
    if s == [] then []
    else (if s[0].matchScore == v then [s[0]] else []) + WithScore(s[1..], v)
  }

  lemma WithScoreCons(a: MatchEntry, rest: seq<MatchEntry>, v: int)
    ensures WithScore([a] + rest, v) == (if a.matchScore == v then [a] else []) + WithScore(rest, v)
  {
    assert ([a] + rest)[1..] == rest;
  }

  lemma {:induction false} WithScoreInsert(x: MatchEntry, t: seq<MatchEntry>, v: int)
    ensures WithScore(Insert(x, t), v) == (if x.matchScore == v then [x] else []) + WithScore(t, v)
  {
    if t == [] || x.matchScore >= t[0].matchScore {
      assert Insert(x, t) == [x] + t;
      WithScoreCons(x, t, v);
    } else {
      WithScoreInsert(x, t[1..], v);
      assert Insert(x, t) == [t[0]] + Insert(x, t[1..]);
      assert t == [t[0]] + t[1..];
      TieBehindHigherHead(t[0], Insert(x, t[1..]), t[1..], x, v);
    }
  }

  /**
   * Putting a head that scores more than `x` in front of two lists whose
   * ties differ by `x` alone keeps them differing by `x` alone.
   */
  lemma TieBehindHigherHead(a: MatchEntry, rest: seq<MatchEntry>, tail: seq<MatchEntry>, x: MatchEntry, v: int)
    requires a.matchScore > x.matchScore
    requires WithScore(rest, v) == (if x.matchScore == v then [x] else []) + WithScore(tail, v)
    ensures WithScore([a] + rest, v) == (if x.matchScore == v then [x] else []) + WithScore([a] + tail, v)
  {
    WithScoreCons(a, rest, v);
    WithScoreCons(a, tail, v);
    if x.matchScore == v {
      assert a.matchScore != v;
    } else {
      var head := if a.matchScore == v then [a] else [];
      assert WithScore([a] + rest, v) == head + WithScore(tail, v);
    }
  }

  /** Entries with equal scores keep their application order: the sort is stable. */
  lemma {:induction false} SortKeepsTies(s: seq<MatchEntry>, v: int)
    ensures WithScore(SortByScore(s), v) == WithScore(s, v)
  {
    if s != [] {
      SortKeepsTies(s[1..], v);
      WithScoreInsert(s[0], SortByScore(s[1..]), v);
    }
  }

  /** The part of `matchCandidatesToJob` inside the `try`; a missing job is a 404 here. */
  function MatchInner(job: Fetch<Job>, completionFor: Candidate -> Completion, parse: string -> Option<Score>)
    : (r: Result<seq<MatchEntry>, AppError>)
    ensures job == NotFound ==> r == Err(ErrorHandler.NewApiError("Job not found", Some(404), Some(ErrorHandler.StackHead("Error", "Job not found"))))
  {
    match job
    case FetchFailed(e) => Err(e)
    case NotFound => Err(ErrorHandler.NewApiError("Job not found", Some(404), Some(ErrorHandler.StackHead("Error", "Job not found"))))
    case Found(j) => Ok(SortByScore(Entries(j.applications, completionFor, parse)))
  }

  /**
   * `matchCandidatesToJob`: one entry per application, highest score first;
   * the scoring never fails, so the only failure is the job lookup, and that
   * is always a 500.
   */
  function MatchCandidatesToJob(job: Fetch<Job>, completionFor: Candidate -> Completion, parse: string -> Option<Score>)
    : (r: Result<seq<MatchEntry>, AppError>)
    ensures r.Ok? <==> job.Found?
    ensures r.Err? ==> r.error == ServiceError("Failed to match candidates")
    ensures job.Found? ==>
      var entries := Entries(job.value.applications, completionFor, parse);
      |r.value| == |job.value.applications| && multiset(r.value) == multiset(entries) && SortedByScore(r.value)
  {
    Rethrow(MatchInner(job, completionFor, parse), "Failed to match candidates")
  }

  /** The 404 raised for a missing job never reaches the caller: it is rethrown as a 500. */
  lemma MissingJobIs500(completionFor: Candidate -> Completion, parse: string -> Option<Score>)
    ensures MatchInner(NotFound, completionFor, parse).error.statusCode == Some(404)
    ensures MatchCandidatesToJob(NotFound, completionFor, parse).error.statusCode == Some(500)
    ensures MatchCandidatesToJob(NotFound, completionFor, parse).error.message == "Failed to match candidates"
  {
  }

  /** Every candidate who applied appears in the result, with the entry its own score gives. */
  lemma EveryApplicantRanked(job: Job, completionFor: Candidate -> Completion, parse: string -> Option<Score>, i: nat)
    requires i < |job.applications|
    ensures var c := job.applications[i].candidate;
      EntryFor(c, CalculateMatchScore(completionFor(c), parse)) in MatchCandidatesToJob(Found(job), completionFor, parse).value
  {
    var entries := Entries(job.applications, completionFor, parse);
    assert entries[i] in multiset(entries);
  }

  // ---------------------------------------------------------------- analyzeResumeContent and analyzeSentiment

  /**
   * What the résumé-analysis prompt is built from: the résumé text and the
   * job description, whose line is left out when the description is falsy.
   */
  datatype ResumeAnalysisPrompt = ResumeAnalysisPrompt(resumeText: string, jobDescription: Option<string>)

  /** What the sentiment prompt is built from: the text and the context, whose line is left out when falsy. */
  datatype SentimentPrompt = SentimentPrompt(text: string, context: Option<string>)

  /** `x ? ... : ''` in a prompt: the value when truthy, otherwise nothing. */
  function IfTruthy(x: Option<string>): (r: Option<string>)
    ensures r.Some? <==> Truthy(x)
    ensures r.Some? ==> r == x
  {
    if Truthy(x) then x else None
  }

  /**
   * `analyzeResumeContent`: the model is asked about the résumé, with the job
   * description when one is given; the result is the parsed reply, or a 500
   * when the call or the parse fails.
   */
  function AnalyzeResumeContent<J>(resumeText: string, jobDescription: Option<string>,
                                   ask: ResumeAnalysisPrompt -> Completion, parse: string -> Option<J>)
    : (r: Result<J, AppError>)
    ensures var reply := Reply(ask(ResumeAnalysisPrompt(resumeText, IfTruthy(jobDescription))), parse);
      (r.Ok? <==> reply.Some?) && (r.Ok? ==> r.value == reply.value)
    ensures r.Err? ==> r.error == ServiceError("Failed to analyze resume")
  {
    AskModel(ask(ResumeAnalysisPrompt(resumeText, IfTruthy(jobDescription))), parse, "Failed to analyze resume")
  }

  /** An empty job description is left out of the prompt exactly like a missing one. */
  lemma EmptyJobDescriptionOmitted<J>(resumeText: string, ask: ResumeAnalysisPrompt -> Completion, parse: string -> Option<J>)
    ensures AnalyzeResumeContent(resumeText, Some(""), ask, parse) == AnalyzeResumeContent(resumeText, None, ask, parse)
  {
  }

  /**
   * `analyzeSentiment`: the model is asked about the text, with the context
   * when one is given; the result is the parsed reply, or a 500 when the call
   * or the parse fails.
   */
  function AnalyzeSentiment<J>(text: string, context: Option<string>,
                               ask: SentimentPrompt -> Completion, parse: string -> Option<J>)
    : (r: Result<J, AppError>)
    ensures var reply := Reply(ask(SentimentPrompt(text, IfTruthy(context))), parse);
      (r.Ok? <==> reply.Some?) && (r.Ok? ==> r.value == reply.value)
    ensures r.Err? ==> r.error == ServiceError("Failed to analyze sentiment")
  {
    AskModel(ask(SentimentPrompt(text, IfTruthy(context))), parse, "Failed to analyze sentiment")
  }

  // ---------------------------------------------------------------- generateJobDescription

  datatype JobDescriptionParams = JobDescriptionParams(
    position: string,
    department: Option<string>,
    requirements: Option<seq<string>>,
    experienceLevel: Option<string>)

  /** The field values the prompt is built from. */
  datatype JobDescriptionPrompt = JobDescriptionPrompt(position: string, department: string, experienceLevel: string, requirements: string)

  /** `requirements?.join(', ')`: `None` when the list is absent. */
  function JoinedRequirements(requirements: Option<seq<string>>): (r: Option<string>)
    ensures requirements == None <==> r == None
  {
    match requirements
    case None => None
    case Some(parts) => Some(Join(parts, ", "))
  }

  /**
   * The prompt's fields with their defaults: 'Not specified', 'Mid-level'
   * and 'Standard requirements' replace a missing or empty department,
   * experience level and joined requirement list.
   */
  function JobDescriptionFields(params: JobDescriptionParams): (p: JobDescriptionPrompt)
    ensures p.position == params.position
    ensures p.department == (if Truthy(params.department) then params.department.value else "Not specified")
    ensures p.experienceLevel == (if Truthy(params.experienceLevel) then params.experienceLevel.value else "Mid-level")
    ensures p.requirements ==
      (if Truthy(JoinedRequirements(params.requirements)) then Join(params.requirements.value, ", ") else "Standard requirements")
  {
    JobDescriptionPrompt(
      params.position,
      OrElse(params.department, "Not specified"),
      OrElse(params.experienceLevel, "Mid-level"),
      OrElse(JoinedRequirements(params.requirements), "Standard requirements"))
  }

  /** An empty list and a list holding one empty string both join to "" and so get the default. */
  lemma EmptyRequirementsGetDefault(params: JobDescriptionParams)
    requires params.requirements == None || params.requirements == Some([]) || params.requirements == Some([""])
    ensures JobDescriptionFields(params).requirements == "Standard requirements"
  {
  }

  /** A list with two or more entries always joins to a non-empty text, which is used as it is. */
  lemma SeveralRequirementsKept(params: JobDescriptionParams)
    requires params.requirements.Some? && |params.requirements.value| >= 2
    ensures JobDescriptionFields(params).requirements == Join(params.requirements.value, ", ")
  {
    var parts := params.requirements.value;
    assert Join(parts, ", ") == parts[0] + ", " + Join(parts[1..], ", ");
    assert |Join(parts, ", ")| >= 2;
  }

  /** `generateJobDescription`: the model is asked with the defaulted fields; a failure is a 500. */
  function GenerateJobDescription<J>(params: JobDescriptionParams, ask: JobDescriptionPrompt -> Completion, parse: string -> Option<J>)
    : (r: Result<J, AppError>)
    ensures r.Ok? <==> Reply(ask(JobDescriptionFields(params)), parse).Some?
    ensures r.Ok? ==> r.value == Reply(ask(JobDescriptionFields(params)), parse).value
    ensures r.Err? ==> r.error == ServiceError("Failed to generate job description")
  {
    AskModel(ask(JobDescriptionFields(params)), parse, "Failed to generate job description")
  }

  /** An empty department or experience level is treated exactly like a missing one. */
  lemma EmptyFieldsActAsMissing<J>(params: JobDescriptionParams, ask: JobDescriptionPrompt -> Completion, parse: string -> Option<J>)
    ensures GenerateJobDescription(params.(department := Some("")), ask, parse)
         == GenerateJobDescription(params.(department := None), ask, parse)
    ensures GenerateJobDescription(params.(experienceLevel := Some("")), ask, parse)
         == GenerateJobDescription(params.(experienceLevel := None), ask, parse)
  {
  }

  // ---------------------------------------------------------------- generateInterviewQuestions

  datatype QuestionsParams = QuestionsParams(jobId: string, candidateId: Option<string>, interviewType: Option<string>)

  /** What the questions prompt is built from. */
  datatype QuestionsPrompt = QuestionsPrompt(interviewType: string, job: Job, candidate: Option<Candidate>)

  /** The part of `generateInterviewQuestions` inside the `try`. */
  function QuestionsInner<J>(params: QuestionsParams, findJob: string -> Fetch<Job>, findCandidate: string -> Fetch<Candidate>,
                             ask: QuestionsPrompt -> Completion, parse: string -> Option<J>): Result<J, AppError>
  {
    match findJob(params.jobId)
    case FetchFailed(e) => Err(e)
    case NotFound => Err(ErrorHandler.NewApiError("Job not found", Some(404), Some(ErrorHandler.StackHead("Error", "Job not found"))))
    case Found(job) =>
      var candidate: Fetch<Candidate> := if Truthy(params.candidateId) then findCandidate(params.candidateId.value) else NotFound;
      match candidate
      case FetchFailed(e) => Err(e)
      case _ =>
        var prompt := QuestionsPrompt(OrElse(params.interviewType, "technical"), job,
                                      if candidate.Found? then Some(candidate.value) else None);
        AskModel(ask(prompt), parse, "Failed to generate interview questions")
  }

  /**
   * `generateInterviewQuestions`: the job must exist; the candidate is looked
   * up only when an id is given, and an unknown candidate is simply left out
   * of the prompt; the interview type defaults to 'technical'. Any failure,
   * the missing job included, is a 500.
   */
  function GenerateInterviewQuestions<J>(params: QuestionsParams, findJob: string -> Fetch<Job>,
                                         findCandidate: string -> Fetch<Candidate>,
                                         ask: QuestionsPrompt -> Completion, parse: string -> Option<J>)
    : (r: Result<J, AppError>)
    ensures !findJob(params.jobId).Found? ==> r == Err(ServiceError("Failed to generate interview questions"))
    ensures r.Err? ==> r.error == ServiceError("Failed to generate interview questions")
    ensures findJob(params.jobId).Found? && Truthy(params.candidateId) && findCandidate(params.candidateId.value).FetchFailed? ==>
      r == Err(ServiceError("Failed to generate interview questions"))
    ensures findJob(params.jobId).Found? && !Truthy(params.candidateId) ==>
      r == AskModel(ask(QuestionsPrompt(OrElse(params.interviewType, "technical"), findJob(params.jobId).value, None)), parse,
                    "Failed to generate interview questions")
    ensures findJob(params.jobId).Found? && Truthy(params.candidateId) && !findCandidate(params.candidateId.value).FetchFailed? ==>
      var found := findCandidate(params.candidateId.value);
      r == AskModel(ask(QuestionsPrompt(OrElse(params.interviewType, "technical"), findJob(params.jobId).value,
                                        if found.Found? then Some(found.value) else None)), parse,
                    "Failed to generate interview questions")
  {
    Rethrow(QuestionsInner(params, findJob, findCandidate, ask, parse), "Failed to generate interview questions")
  }

  /** Without a candidate id the candidate table is never consulted. */
  lemma NoCandidateIdSkipsLookup<J>(params: QuestionsParams, findJob: string -> Fetch<Job>,
                                    findCandidate: string -> Fetch<Candidate>, other: string -> Fetch<Candidate>,
                                    ask: QuestionsPrompt -> Completion, parse: string -> Option<J>)
    requires !Truthy(params.candidateId)
    ensures GenerateInterviewQuestions(params, findJob, findCandidate, ask, parse)
         == GenerateInterviewQuestions(params, findJob, other, ask, parse)
  {
  }

  /** A candidate id that matches nobody is not an error: the questions are generated without a background. */
  lemma UnknownCandidateIgnored<J>(params: QuestionsParams, findJob: string -> Fetch<Job>,
                                   findCandidate: string -> Fetch<Candidate>,
                                   ask: QuestionsPrompt -> Completion, parse: string -> Option<J>)
    requires findJob(params.jobId).Found? && Truthy(params.candidateId) && findCandidate(params.candidateId.value) == NotFound
    ensures GenerateInterviewQuestions(params, findJob, findCandidate, ask, parse)
         == GenerateInterviewQuestions(params.(candidateId := None), findJob, findCandidate, ask, parse)
  {
  }

  // ---------------------------------------------------------------- predictSuccess

  /** What the prediction prompt is built from. */
  datatype PredictionPrompt = PredictionPrompt(matchScore: int, yearsOfExperience: int, requiredExperience: string, skillMatch: int)

  /** The part of `predictSuccess` inside the `try`. */
  function PredictInner<J>(candidate: Fetch<Candidate>, job: Fetch<Job>,
                           scoreCall: (Job, Candidate) -> Completion, scoreParse: string -> Option<Score>,
                           ask: PredictionPrompt -> Completion, parse: string -> Option<J>): Result<J, AppError>
  {
    if candidate.FetchFailed? then Err(candidate.error)
    else if job.FetchFailed? then Err(job.error)
    else if candidate == NotFound || job == NotFound then Err(ErrorHandler.NewApiError("Candidate or Job not found", Some(404), Some(ErrorHandler.StackHead("Error", "Candidate or Job not found"))))
    else
      var score := CalculateMatchScore(scoreCall(job.value, candidate.value), scoreParse);
      var prompt := PredictionPrompt(score.overall, candidate.value.yearsOfExperience, job.value.experienceLevel, score.skills);
      AskModel(ask(prompt), parse, "Failed to predict success")
  }

  /**
   * `predictSuccess`: both records must exist; the prompt carries the match
   * score, which falls back to 50 when scoring fails. Any failure, a missing
   * record included, is a 500.
   */
  function PredictSuccess<J>(candidate: Fetch<Candidate>, job: Fetch<Job>,
                             scoreCall: (Job, Candidate) -> Completion, scoreParse: string -> Option<Score>,
                             ask: PredictionPrompt -> Completion, parse: string -> Option<J>)
    : (r: Result<J, AppError>)
    ensures !candidate.Found? || !job.Found? ==> r == Err(ServiceError("Failed to predict success"))
    ensures r.Err? ==> r.error == ServiceError("Failed to predict success")
    ensures candidate.Found? && job.Found? ==>
      var score := CalculateMatchScore(scoreCall(job.value, candidate.value), scoreParse);
      r == AskModel(ask(PredictionPrompt(score.overall, candidate.value.yearsOfExperience, job.value.experienceLevel, score.skills)),
                    parse, "Failed to predict success")
    ensures candidate.Found? && job.Found? && scoreCall(job.value, candidate.value) == CallFailed ==>
      r == AskModel(ask(PredictionPrompt(50, candidate.value.yearsOfExperience, job.value.experienceLevel, 50)), parse,
                    "Failed to predict success")
  {
    Rethrow(PredictInner(candidate, job, scoreCall, scoreParse, ask, parse), "Failed to predict success")
  }

  /** The service's 404s, for a job or a candidate, all leave it as 500s. */
  lemma NotFoundBecomes500<J>(findJob: string -> Fetch<Job>, findCandidate: string -> Fetch<Candidate>,
                              params: QuestionsParams, candidate: Fetch<Candidate>,
                              scoreCall: (Job, Candidate) -> Completion, scoreParse: string -> Option<Score>,
                              askQuestions: QuestionsPrompt -> Completion, askPrediction: PredictionPrompt -> Completion,
                              parse: string -> Option<J>)
    requires findJob(params.jobId) == NotFound
    ensures QuestionsInner(params, findJob, findCandidate, askQuestions, parse).error.statusCode == Some(404)
    ensures GenerateInterviewQuestions(params, findJob, findCandidate, askQuestions, parse).error.statusCode == Some(500)
    ensures candidate.Found? ==>
      PredictInner(candidate, NotFound, scoreCall, scoreParse, askPrediction, parse).error.statusCode == Some(404)
    ensures PredictSuccess(candidate, NotFound, scoreCall, scoreParse, askPrediction, parse).error.statusCode == Some(500)
  {
  }
}
