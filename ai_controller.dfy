/**
 * The AI controller: seven request handlers, each checking its required
 * body fields, calling one service method, and answering 200 with a
 * `{ success: true, message, data }` envelope. A failed check throws a 400
 * `ApiError`; whatever is thrown, by the check or by the service, is handed
 * to `next` as it is. Body fields are optional strings and "required" means
 * truthy, so an empty string is refused like a missing field.
 */
module AIController {
  import opened Wrappers
  import opened JsStrings
  import ErrorHandler
  import AIService

  type AppError = ErrorHandler.AppError

  datatype Envelope<D> = Envelope(success: bool, message: string, data: D)

  /** What a handler does: answer with a status and an envelope, or call `next(error)`. */
  datatype Outcome<D> = Respond(status: int, body: Envelope<D>) | Next(error: AppError)

  /** `new ApiError(message, 400)`, thrown by a failed field check. */
  function BadRequest(message: string): (e: AppError)
    ensures e.message == message && e.statusCode == Some(400)
    ensures e.stack == Some(ErrorHandler.StackHead("Error", message))
  {
    ErrorHandler.NewApiError(message, Some(400), Some(ErrorHandler.StackHead("Error", message)))
  }

  /** The end of every handler: 200 with the service's result, or the service's error passed on unchanged. */
  function Reply<D>(result: Result<D, AppError>, message: string): (r: Outcome<D>)
    ensures result.Ok? <==> r.Respond?
    ensures result.Ok? ==> r.status == 200 && r.body == Envelope(true, message, result.value)
    ensures result.Err? ==> r.error == result.error
  {
    match result
    case Ok(data) => Respond(200, Envelope(true, message, data))
    case Err(e) => Next(e)
  }

  /**
   * `parseResume`: validation errors first, then a missing file, each a 400;
   * otherwise the service's result for the uploaded file.
   */
  function ParseResume<F, D>(validationFailed: bool, file: Option<F>, service: F -> Result<D, AppError>): (r: Outcome<D>)
    ensures validationFailed ==> r == Next(BadRequest("Validation failed"))
    ensures !validationFailed && file == None ==> r == Next(BadRequest("No resume file provided"))
    ensures !validationFailed && file.Some? && service(file.value).Ok? ==>
      r == Respond(200, Envelope(true, "Resume parsed successfully", service(file.value).value))
    ensures !validationFailed && file.Some? && service(file.value).Err? ==> r == Next(service(file.value).error)
  {
    if validationFailed then Next(BadRequest("Validation failed"))
    else if file == None then Next(BadRequest("No resume file provided"))
    else Reply(service(file.value), "Resume parsed successfully")
  }

  /** `matchCandidates`: a falsy `jobId` is a 400. */
  function MatchCandidates<D>(jobId: Option<string>, service: string -> Result<D, AppError>): (r: Outcome<D>)
    ensures !Truthy(jobId) ==> r == Next(BadRequest("Job ID is required"))
    ensures Truthy(jobId) && service(jobId.value).Ok? ==>
      r == Respond(200, Envelope(true, "Candidates matched successfully", service(jobId.value).value))
    ensures Truthy(jobId) && service(jobId.value).Err? ==> r == Next(service(jobId.value).error)
  {
    if !Truthy(jobId) then Next(BadRequest("Job ID is required"))
    else Reply(service(jobId.value), "Candidates matched successfully")
  }

  /** `analyzeResume`: a falsy `resumeText` is a 400; the job description is optional and passed on as given. */
  function AnalyzeResume<D>(resumeText: Option<string>, jobDescription: Option<string>,
                            service: (string, Option<string>) -> Result<D, AppError>): (r: Outcome<D>)
    ensures !Truthy(resumeText) ==> r == Next(BadRequest("Resume text is required"))
    ensures Truthy(resumeText) && service(resumeText.value, jobDescription).Ok? ==>
      r == Respond(200, Envelope(true, "Resume analyzed successfully", service(resumeText.value, jobDescription).value))
    ensures Truthy(resumeText) && service(resumeText.value, jobDescription).Err? ==>
      r == Next(service(resumeText.value, jobDescription).error)
  {
    if !Truthy(resumeText) then Next(BadRequest("Resume text is required"))
    else Reply(service(resumeText.value, jobDescription), "Resume analyzed successfully")
  }

  /** `sentimentAnalysis`: a falsy `text` is a 400; the context is optional. */
  function SentimentAnalysis<D>(text: Option<string>, context: Option<string>,
                                service: (string, Option<string>) -> Result<D, AppError>): (r: Outcome<D>)
    ensures !Truthy(text) ==> r == Next(BadRequest("Text is required for sentiment analysis"))
    ensures Truthy(text) && service(text.value, context).Ok? ==>
      r == Respond(200, Envelope(true, "Sentiment analysis completed", service(text.value, context).value))
    ensures Truthy(text) && service(text.value, context).Err? ==> r == Next(service(text.value, context).error)
  {
    if !Truthy(text) then Next(BadRequest("Text is required for sentiment analysis"))
    else Reply(service(text.value, context), "Sentiment analysis completed")
  }

  /** `generateJobDescription`: a falsy `position` is a 400; the other three fields go to the service as given. */
  function GenerateJobDescription<D>(position: Option<string>, department: Option<string>,
                                     requirements: Option<seq<string>>, experienceLevel: Option<string>,
                                     service: AIService.JobDescriptionParams -> Result<D, AppError>): (r: Outcome<D>)
    ensures !Truthy(position) ==> r == Next(BadRequest("Position is required"))
    ensures Truthy(position) ==>
      var params := AIService.JobDescriptionParams(position.value, department, requirements, experienceLevel);
      (service(params).Ok? ==> r == Respond(200, Envelope(true, "Job description generated successfully", service(params).value)))
      && (service(params).Err? ==> r == Next(service(params).error))
  {
    if !Truthy(position) then Next(BadRequest("Position is required"))
    else
      var params := AIService.JobDescriptionParams(position.value, department, requirements, experienceLevel);
      Reply(service(params), "Job description generated successfully")
  }

  /** `generateInterviewQuestions`: a falsy `jobId` is a 400; candidate and interview type are optional. */
  function GenerateInterviewQuestions<D>(jobId: Option<string>, candidateId: Option<string>, interviewType: Option<string>,
                                         service: AIService.QuestionsParams -> Result<D, AppError>): (r: Outcome<D>)
    ensures !Truthy(jobId) ==> r == Next(BadRequest("Job ID is required"))
    ensures Truthy(jobId) ==>
      var params := AIService.QuestionsParams(jobId.value, candidateId, interviewType);
      (service(params).Ok? ==> r == Respond(200, Envelope(true, "Interview questions generated successfully", service(params).value)))
      && (service(params).Err? ==> r == Next(service(params).error))
  {
    if !Truthy(jobId) then Next(BadRequest("Job ID is required"))
    else
      var params := AIService.QuestionsParams(jobId.value, candidateId, interviewType);
      Reply(service(params), "Interview questions generated successfully")
  }

  /** `predictCandidateSuccess`: a 400 unless both ids are truthy. */
  function PredictCandidateSuccess<D>(candidateId: Option<string>, jobId: Option<string>,
                                      service: (string, string) -> Result<D, AppError>): (r: Outcome<D>)
    ensures !Truthy(candidateId) || !Truthy(jobId) ==> r == Next(BadRequest("Candidate ID and Job ID are required"))
    ensures Truthy(candidateId) && Truthy(jobId) && service(candidateId.value, jobId.value).Ok? ==>
      r == Respond(200, Envelope(true, "Candidate success predicted", service(candidateId.value, jobId.value).value))
    ensures Truthy(candidateId) && Truthy(jobId) && service(candidateId.value, jobId.value).Err? ==>
      r == Next(service(candidateId.value, jobId.value).error)
  {
    if !Truthy(candidateId) || !Truthy(jobId) then Next(BadRequest("Candidate ID and Job ID are required"))
    else Reply(service(candidateId.value, jobId.value), "Candidate success predicted")
  }

  // ---------------------------------------------------------------- with the error handler and the service

  /** A failed field check reaches the client as a 400 carrying the check's message. */
  lemma FieldChecksAnswer400(message: string, nodeEnv: Option<string>)
    requires message != ""
    ensures ErrorHandler.HandleError(BadRequest(message), nodeEnv).status == 400
    ensures ErrorHandler.HandleError(BadRequest(message), nodeEnv).body.message == message
  {
  }

  /** An empty `jobId` is refused exactly like a missing one, before the service is reached. */
  lemma EmptyJobIdRefused<D>(service: string -> Result<D, AppError>, nodeEnv: Option<string>)
    ensures MatchCandidates(Some(""), service) == MatchCandidates(None, service)
    ensures ErrorHandler.HandleError(MatchCandidates(Some(""), service).error, nodeEnv).status == 400
  {
  }

  /**
   * Asking to match candidates for a job id that does not exist passes the
   * check, and the client gets a 500 'Failed to match candidates' rather
   * than a 404.
   */
  lemma UnknownJobAnswers500(jobId: string, findJob: string -> AIService.Fetch<AIService.Job>,
                             completionFor: AIService.Candidate -> AIService.Completion,
                             parse: string -> Option<AIService.Score>, nodeEnv: Option<string>)
    requires jobId != "" && findJob(jobId) == AIService.NotFound
    ensures var service := (id: string) => AIService.MatchCandidatesToJob(findJob(id), completionFor, parse);
      var outcome := MatchCandidates(Some(jobId), service);
      outcome.Next? && ErrorHandler.HandleError(outcome.error, nodeEnv).status == 500
      && ErrorHandler.HandleError(outcome.error, nodeEnv).body.message == "Failed to match candidates"
  {
    var service := (id: string) => AIService.MatchCandidatesToJob(findJob(id), completionFor, parse);
    assert service(jobId).Err?;
  }

  /** A job that exists answers 200 with its applicants ranked best first. */
  lemma KnownJobAnswersRanking(jobId: string, job: AIService.Job, findJob: string -> AIService.Fetch<AIService.Job>,
                               completionFor: AIService.Candidate -> AIService.Completion,
                               parse: string -> Option<AIService.Score>)
    requires jobId != "" && findJob(jobId) == AIService.Found(job)
    ensures var service := (id: string) => AIService.MatchCandidatesToJob(findJob(id), completionFor, parse);
      var outcome := MatchCandidates(Some(jobId), service);
      outcome.Respond? && outcome.status == 200 && outcome.body.success
      && |outcome.body.data| == |job.applications| && AIService.SortedByScore(outcome.body.data)
  {
    var service := (id: string) => AIService.MatchCandidatesToJob(findJob(id), completionFor, parse);
    assert service(jobId).Ok?;
  }
}
