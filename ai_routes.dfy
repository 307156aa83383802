/**
 * The AI router: seven POST routes, each a chain of middleware that runs
 * `authenticate`, then `authorize` with the route's role list, then (on
 * parse-resume only) the multer upload, then the controller. The first
 * stage that fails ends the request.
 *
 * `authenticate` and `authorize` are not part of this model; they are taken
 * to let a request through when it carries a user, and when that user's role
 * is in the route's list, respectively.
 */
module AIRoutes {
  import opened Wrappers
  import opened JsStrings
  import ErrorHandler

  datatype Role = HrManager | Recruiter | Interviewer | Admin

  datatype Route =
    | ParseResume
    | MatchCandidates
    | AnalyzeResume
    | SentimentAnalysis
    | GenerateJobDescription
    | InterviewQuestions
    | PredictSuccess

  /** The roles passed to `authorize` on each route. */
  function AllowedRoles(route: Route): set<Role> {
    match route
    case ParseResume => {HrManager, Recruiter, Admin}
    case MatchCandidates => {HrManager, Recruiter, Admin}
    case AnalyzeResume => {HrManager, Recruiter, Admin}
    case SentimentAnalysis => {HrManager, Interviewer, Admin}
    case GenerateJobDescription => {HrManager, Recruiter, Admin}
    case InterviewQuestions => {HrManager, Interviewer, Admin}
    case PredictSuccess => {HrManager, Admin}
  }

  /** HR managers and administrators may use every route. */
  lemma ManagersAllowedEverywhere(route: Route)
    ensures HrManager in AllowedRoles(route) && Admin in AllowedRoles(route)
  {
  }

  /** Interviewers may use exactly the two routes about interviews. */
  lemma InterviewerRoutes(route: Route)
    ensures Interviewer in AllowedRoles(route) <==> route == SentimentAnalysis || route == InterviewQuestions
  {
  }

  /** Recruiters may use exactly the four résumé and job routes. */
  lemma RecruiterRoutes(route: Route)
    ensures Recruiter in AllowedRoles(route) <==>
      route in {ParseResume, MatchCandidates, AnalyzeResume, GenerateJobDescription}
  {
  }

  // ---------------------------------------------------------------- upload

  /** `limits.fileSize`: 5 MB. */
  const MaxUploadBytes: nat := 5 * 1024 * 1024

  const PdfMime := "application/pdf"
  const WordMime := "application/msword"
  const DocxMime := "application/vnd.openxmlformats-officedocument.wordprocessingml.document"

  /** The `fileFilter` test: `allowedTypes.includes(file.mimetype)`. */
  predicate MimeAccepted(mimetype: string) {
    mimetype in [PdfMime, WordMime, DocxMime]
  }

  /** An uploaded file as multer sees it. */
  datatype Upload = Upload(mimetype: string, size: nat)

  const InvalidTypeMessage := "Invalid file type. Only PDF and DOC files are allowed."

  /**
   * `upload.single('resume')`: no file passes through; a file whose type
   * the filter refuses, or one over the size limit, is an error without a
   * status, handed to the error handler. The filter sees the file before
   * its bytes are counted.
   */
  function UploadCheck(file: Option<Upload>): (r: Option<ErrorHandler.AppError>)
    ensures r == None <==> file == None || (MimeAccepted(file.value.mimetype) && file.value.size <= MaxUploadBytes)
    ensures r.Some? ==> r.value.statusCode == None && r.value.stack.Some?
    ensures file.Some? && !MimeAccepted(file.value.mimetype) ==> r.Some? && r.value.message == InvalidTypeMessage
  {
    match file
    case None => None
    case Some(f) =>
      if !MimeAccepted(f.mimetype) then Some(ErrorHandler.PlainError(InvalidTypeMessage, Some(ErrorHandler.StackHead("Error", InvalidTypeMessage))))
      else if f.size > MaxUploadBytes then Some(ErrorHandler.PlainError("File too large", Some(ErrorHandler.StackHead("MulterError", "File too large"))))
      else None
  }

  // ---------------------------------------------------------------- the chain

  datatype Stage = Authenticate | Authorize(roles: set<Role>) | UploadResume | Controller

  /** The middleware each route runs, in order. */
  function Stages(route: Route): (r: seq<Stage>)
    ensures |r| >= 3 && r[0] == Authenticate && r[1] == Authorize(AllowedRoles(route)) && r[|r| - 1] == Controller
    ensures UploadResume in r <==> route == ParseResume
    ensures route == ParseResume ==> r == [Authenticate, Authorize(AllowedRoles(route)), UploadResume, Controller]
  {
    if route == ParseResume then [Authenticate, Authorize(AllowedRoles(route)), UploadResume, Controller]
    else [Authenticate, Authorize(AllowedRoles(route)), Controller]
  }

  /** A request: the role of the authenticated user, if any, and the multipart file, if any. */
  datatype Request = Request(user: Option<Role>, file: Option<Upload>)

  datatype Outcome =
    | NotAuthenticated
    | Forbidden
    | Rejected(response: ErrorHandler.ErrorResponse)
    | ReachesController

  /** Runs the stages left to right; the first that fails decides the outcome. */
  function Run(stages: seq<Stage>, request: Request, nodeEnv: Option<string>): Outcome {
    if stages == [] then ReachesController
    else match stages[0]
      case Authenticate =>
        if request.user == None then NotAuthenticated else Run(stages[1..], request, nodeEnv)
      case Authorize(roles) =>
        if request.user.Some? && request.user.value in roles then Run(stages[1..], request, nodeEnv) else Forbidden
      case UploadResume =>
        var e := UploadCheck(request.file);
        if e.Some? then Rejected(ErrorHandler.HandleError(e.value, nodeEnv)) else Run(stages[1..], request, nodeEnv)
      case Controller => ReachesController
  }

  /** What is left of the chain once the user is authorized: the upload, if the route has one, then the controller. */
  lemma RunAfterAuthorize(route: Route, request: Request, nodeEnv: Option<string>)
    ensures route != ParseResume ==> Run(Stages(route)[1..][1..], request, nodeEnv) == ReachesController
    ensures route == ParseResume ==>
              Run(Stages(route)[1..][1..], request, nodeEnv)
              == if UploadCheck(request.file).Some?
                 then Rejected(ErrorHandler.HandleError(UploadCheck(request.file).value, nodeEnv))
                 else ReachesController
  {
    var rest := Stages(route)[1..][1..];
    assert Run([Controller], request, nodeEnv) == ReachesController;
    if route == ParseResume {
      assert rest == [UploadResume, Controller];
      assert rest[1..] == [Controller];
    } else {
      assert rest == [Controller];
    }
  }

  /**
   * A POST to `route`: a request with no user stops at authentication, a
   * role outside the list at authorization, and only then is the upload
   * looked at; a refused upload becomes a 500 response.
   */
  function Handle(route: Route, request: Request, nodeEnv: Option<string>): (r: Outcome)
    ensures request.user == None ==> r == NotAuthenticated
    ensures request.user.Some? && request.user.value !in AllowedRoles(route) ==> r == Forbidden
    ensures r == ReachesController <==>
      request.user.Some? && request.user.value in AllowedRoles(route)
      && (route == ParseResume ==> UploadCheck(request.file) == None)
    ensures r.Rejected? ==> route == ParseResume && r.response.status == 500
    ensures route == ParseResume && request.user.Some? && request.user.value in AllowedRoles(route)
            && UploadCheck(request.file).Some?
            ==> r == Rejected(ErrorHandler.HandleError(UploadCheck(request.file).value, nodeEnv))
  {
    var stages := Stages(route);
    var rest := Run(stages[1..][1..], request, nodeEnv);
    RunAfterAuthorize(route, request, nodeEnv);
    assert Run(stages, request, nodeEnv) == (
      if request.user == None then NotAuthenticated
      else if request.user.value in AllowedRoles(route) then rest
      else Forbidden);
    Run(stages, request, nodeEnv)
  }

  /** Only parse-resume looks at the file: every other route treats requests with and without one alike. */
  lemma FileIgnoredOffParseResume(route: Route, user: Option<Role>, file: Option<Upload>, nodeEnv: Option<string>)
    requires route != ParseResume
    ensures Handle(route, Request(user, file), nodeEnv) == Handle(route, Request(user, None), nodeEnv)
  {
  }

  /**
   * An allowed user uploading a file of the wrong type gets a 500 with the
   * filter's message, and in development the stack of the filter's `Error`.
   */
  lemma WrongTypeIs500(role: Role, file: Upload, nodeEnv: Option<string>)
    requires role in AllowedRoles(ParseResume) && !MimeAccepted(file.mimetype)
    ensures Handle(ParseResume, Request(Some(role), Some(file)), nodeEnv)
      == Rejected(ErrorHandler.ErrorResponse(500, ErrorHandler.ErrorBody(false, InvalidTypeMessage,
           if nodeEnv == Some("development") then Some(Some("Error: " + InvalidTypeMessage)) else None)))
  {
    assert ErrorHandler.StackHead("Error", InvalidTypeMessage) == "Error: " + InvalidTypeMessage;
  }

  /** A PDF of exactly 5 MB is accepted, one byte more is not. */
  lemma SizeLimitIsInclusive(role: Role, nodeEnv: Option<string>)
    requires role in AllowedRoles(ParseResume)
    ensures Handle(ParseResume, Request(Some(role), Some(Upload(PdfMime, 5242880))), nodeEnv) == ReachesController
    ensures Handle(ParseResume, Request(Some(role), Some(Upload(PdfMime, 5242881))), nodeEnv).Rejected?
  {
    assert MimeAccepted(PdfMime);
  }
}
