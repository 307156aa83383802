/**
 * The AI tools page's demo behaviour: "parsing" a résumé picks one of four
 * canned profiles from the lower-cased file name, first matching rule
 * first, and "matching" shows a fixed list of four job matches. The 2.5 s
 * and 2 s timers are modelled as a second step that the page runs later.
 */
module AITools {
  import opened Wrappers
  import opened JsStrings

  /** A parsed résumé as the page displays it. */
  datatype Profile = Profile(
    name: string,
    email: string,
    phone: string,
    skills: seq<string>,
    experience: string,
    education: string,
    languages: seq<string>,
    certifications: seq<string>)

  /** Which canned profile a file name selects. */
  datatype Demo = JohnDoe | SarahWilliams | MikeJohnson | GenericCandidate

  function ProfileOf(d: Demo): Profile {
    match d
    case JohnDoe => Profile(
      "John Doe", "john.doe@example.com", "+1 (555) 123-4567",
      ["React", "TypeScript", "JavaScript", "Node.js", "TailwindCSS", "AWS", "Docker", "Git"],
      "5+ years", "BS Computer Science, MIT (2019)",
      ["English (Native)", "Spanish (Fluent)", "French (Conversational)"],
      ["AWS Certified Developer", "React Advanced Certification"])
    case SarahWilliams => Profile(
      "Sarah Williams", "sarah.williams@techmail.com", "+1 (555) 987-6543",
      ["Python", "R", "SQL", "TensorFlow", "PyTorch", "Scikit-learn", "AWS", "Spark", "Docker", "Kubernetes"],
      "7 years", "Ph.D. in Statistics, Stanford University (2017)",
      ["English (Native)", "Mandarin (Professional)", "German (Basic)"],
      ["AWS ML Specialty", "TensorFlow Developer", "Google Professional Data Engineer"])
    case MikeJohnson => Profile(
      "Mike Johnson", "mike.johnson@cloudpro.com", "+1 (555) 456-7890",
      ["AWS", "Azure", "GCP", "Kubernetes", "Docker", "Terraform", "Ansible", "Jenkins", "Python", "Go"],
      "6+ years", "BS Information Technology, University of Washington (2017)",
      ["English (Native)", "Japanese (Intermediate)"],
      ["AWS Solutions Architect Pro", "CKA", "Terraform Associate", "Azure DevOps Expert"])
    case GenericCandidate => Profile(
      "Generic Candidate", "candidate@example.com", "+1 (555) 000-0000",
      ["JavaScript", "Python", "SQL", "Git", "Agile"],
      "3 years", "BS Computer Science",
      ["English (Native)"],
      [])
  }

  // ---------------------------------------------------------------- the dispatch

  predicate JohnRule(lower: string) { Includes(lower, "john") || Includes(lower, "frontend") }
  predicate SarahRule(lower: string) { Includes(lower, "sarah") || Includes(lower, "data") }
  predicate MikeRule(lower: string) { Includes(lower, "mike") || Includes(lower, "devops") }

  /**
   * The profile `handleFileUpload` shows for a file name: the rules are
   * tried in order on the lower-cased name and the first that matches
   * wins; a name no rule matches gets the generic profile.
   */
  function DemoFor(fileName: string): (d: Demo)
    ensures d == JohnDoe <==> JohnRule(ToLower(fileName))
    ensures d == SarahWilliams <==> !JohnRule(ToLower(fileName)) && SarahRule(ToLower(fileName))
    ensures d == MikeJohnson <==>
      !JohnRule(ToLower(fileName)) && !SarahRule(ToLower(fileName)) && MikeRule(ToLower(fileName))
    ensures d == GenericCandidate <==>
      !JohnRule(ToLower(fileName)) && !SarahRule(ToLower(fileName)) && !MikeRule(ToLower(fileName))
  {
    var lower := ToLower(fileName);
    if JohnRule(lower) then JohnDoe
    else if SarahRule(lower) then SarahWilliams
    else if MikeRule(lower) then MikeJohnson
    else GenericCandidate
  }

  /** The dispatch sees only the lower-cased name, so lower-casing first changes nothing. */
  lemma DispatchIgnoresCase(fileName: string)
    ensures DemoFor(ToLower(fileName)) == DemoFor(fileName)
  {
    ToLowerIdempotent(fileName);
  }

  /** A name matching both the first and the second rule gets the first rule's profile, whatever its case. */
  lemma FirstRuleWins()
    ensures DemoFor("john_data.pdf") == JohnDoe
    ensures DemoFor("JOHN_DATA.PDF") == JohnDoe
  {
    var lower := ToLower("john_data.pdf");
    assert lower[0..4] == "john";
    assert OccursAt(lower, "john", 0);
    var upper := ToLower("JOHN_DATA.PDF");
    assert upper[0..4] == "john";
    assert OccursAt(upper, "john", 0);
  }

  /** Only the generic profile lists no certifications. */
  lemma GenericProfileHasNoCertifications(d: Demo)
    ensures ProfileOf(d).certifications == [] <==> d == GenericCandidate
  {
  }

  // ---------------------------------------------------------------- the matches

  datatype JobMatch = JobMatch(job: string, score: int, reason: string)

  const DemoMatches: seq<JobMatch> := [
    JobMatch("Senior Frontend Developer", 95, "Perfect match for React and TypeScript skills"),
    JobMatch("Full Stack Engineer", 88, "Strong backend and frontend experience"),
    JobMatch("DevOps Engineer", 72, "Good knowledge of AWS and Docker"),
    JobMatch("Tech Lead", 65, "Sufficient experience but needs more leadership background")
  ]

  /** The demo matches come best first: scores strictly decrease along the list. */
  lemma DemoMatchesStrictlyDescending()
    ensures |DemoMatches| == 4
    ensures forall i, j :: 0 <= i < j < |DemoMatches| ==> DemoMatches[i].score > DemoMatches[j].score
  {
  }

  // ---------------------------------------------------------------- the page

  datatype Toast = ErrorToast(message: string) | SuccessToast(message: string)

  /** The page's state; a file is known by its name, which is all the page reads of it. */
  class AIToolsPage {
    var resumeFile: Option<string>
    var loading: bool
    var matchingLoading: bool
    var parseResult: Option<Profile>
    var matchingResult: Option<seq<JobMatch>>
    var toasts: seq<Toast>

    constructor ()
      ensures resumeFile == None && !loading && !matchingLoading
      ensures parseResult == None && matchingResult == None && toasts == []
    {
      resumeFile := None;
      loading := false;
      matchingLoading := false;
      parseResult := None;
      matchingResult := None;
      toasts := [];
    }

    /** The file input's `onChange`. */
    method SelectFile(file: Option<string>)
      modifies this
      ensures resumeFile == file
      ensures loading == old(loading) && matchingLoading == old(matchingLoading)
      ensures parseResult == old(parseResult) && matchingResult == old(matchingResult) && toasts == old(toasts)
    {
      resumeFile := file;
    }

    /**
     * The first half of `handleFileUpload`. With no file it reports an
     * error and changes nothing else; otherwise it starts loading and
     * returns the file name the timer will parse, captured now.
     */
    method HandleFileUpload() returns (pending: Option<string>)
      modifies this
      ensures old(resumeFile) == None ==>
        pending == None && toasts == old(toasts) + [ErrorToast("Please select a file")]
        && loading == old(loading) && parseResult == old(parseResult)
      ensures old(resumeFile).Some? ==>
        pending == old(resumeFile) && loading && toasts == old(toasts) && parseResult == old(parseResult)
      ensures resumeFile == old(resumeFile) && matchingLoading == old(matchingLoading)
      ensures matchingResult == old(matchingResult)
    {
      if resumeFile == None {
        toasts := toasts + [ErrorToast("Please select a file")];
        pending := None;
        return;
      }
      loading := true;
      pending := resumeFile;
    }

    /** The timer callback of `handleFileUpload`: show the profile the name selects and stop loading. */
    method FinishFileUpload(fileName: string)
      modifies this
      ensures parseResult == Some(ProfileOf(DemoFor(fileName)))
      ensures !loading
      ensures toasts == old(toasts) + [SuccessToast("Resume parsed successfully!")]
      ensures resumeFile == old(resumeFile) && matchingLoading == old(matchingLoading)
      ensures matchingResult == old(matchingResult)
    {
      parseResult := Some(ProfileOf(DemoFor(fileName)));
      toasts := toasts + [SuccessToast("Resume parsed successfully!")];
      loading := false;
    }

    /** The first half of `handleMatching`. */
    method HandleMatching()
      modifies this
      ensures matchingLoading
      ensures resumeFile == old(resumeFile) && loading == old(loading) && parseResult == old(parseResult)
      ensures matchingResult == old(matchingResult) && toasts == old(toasts)
    {
      matchingLoading := true;
    }

    /** The timer callback of `handleMatching`. */
    method FinishMatching()
      modifies this
      ensures matchingResult == Some(DemoMatches)
      ensures !matchingLoading
      ensures toasts == old(toasts) + [SuccessToast("Matching completed!")]
      ensures resumeFile == old(resumeFile) && loading == old(loading) && parseResult == old(parseResult)
    {
      matchingResult := Some(DemoMatches);
      toasts := toasts + [SuccessToast("Matching completed!")];
      matchingLoading := false;
    }
  }

  /** Selecting a file, uploading it and letting the timer fire shows that file's profile. */
  method UploadScenario(fileName: string) returns (result: Option<Profile>, stillLoading: bool)
    ensures result == Some(ProfileOf(DemoFor(fileName))) && !stillLoading
  {
    var page := new AIToolsPage();
    page.SelectFile(Some(fileName));
    var pending := page.HandleFileUpload();
    page.FinishFileUpload(pending.value);
    result, stillLoading := page.parseResult, page.loading;
  }
}
