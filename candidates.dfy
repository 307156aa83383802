/**
 * The candidate list page: candidates kept in component state, a text search,
 * two colour classifications, and the add, save-edit and delete handlers.
 */
module Candidates {
  import opened Wrappers
  import opened JsStrings
  import opened Lists

  datatype Candidate = Candidate(
    id: int,
    name: string,
    email: string,
    position: string,
    skills: seq<string>,
    score: int,
    status: string)

  /** The fields of the "add candidate" form; skills are one comma-separated string. */
  datatype CandidateForm = CandidateForm(name: string, email: string, position: string, skills: string, score: int, status: string)

  const EmptyCandidateForm := CandidateForm("", "", "", "", 0, "Applied")

  const DefaultCandidates: seq<Candidate> := [
    Candidate(1, "John Doe", "john@example.com", "Senior Developer", ["React", "TypeScript", "Node.js"], 95, "Interviewing"),
    Candidate(2, "Jane Smith", "jane@example.com", "Product Manager", ["Product Strategy", "Agile", "Analytics"], 88, "Screening"),
    Candidate(3, "Mike Johnson", "mike@example.com", "UX Designer", ["Figma", "UI Design", "Research"], 92, "Offered"),
    Candidate(4, "Sarah Williams", "sarah@example.com", "Data Analyst", ["Python", "SQL", "Tableau"], 85, "Applied"),
    Candidate(5, "Tom Brown", "tom@example.com", "DevOps Engineer", ["AWS", "Docker", "Kubernetes"], 90, "Interviewing")
  ]

  // ---------------------------------------------------------------- search

  predicate MatchesSearch(c: Candidate, term: string) {
    var t := ToLower(term);
    Includes(ToLower(c.name), t) || Includes(ToLower(c.email), t) || Includes(ToLower(c.position), t)
  }

  /** `filteredCandidates`: the candidates whose name, email or position contains the term, in order. */
  function FilteredCandidates(candidates: seq<Candidate>, term: string): (r: seq<Candidate>)
    ensures forall c :: c in r <==> c in candidates && MatchesSearch(c, term)
    ensures forall c :: multiset(r)[c] == if MatchesSearch(c, term) then multiset(candidates)[c] else 0
    ensures IsSubsequence(r, candidates)
  {
    var keep := c => MatchesSearch(c, term);
    FilterIsSubsequence(candidates, keep);
    FilterMultiplicity(candidates, keep);
    Filter(candidates, keep)
  }

  /** An empty search shows every candidate. */
  lemma EmptySearchShowsAll(candidates: seq<Candidate>)
    ensures FilteredCandidates(candidates, "") == candidates
  {
    forall i | 0 <= i < |candidates| ensures MatchesSearch(candidates[i], "") {
      IncludesEmpty(ToLower(candidates[i].name));
    }
    FilterAll(candidates, c => MatchesSearch(c, ""));
  }

  /** The search ignores ASCII case: a term and its lower-cased form select the same candidates. */
  lemma SearchIgnoresCase(candidates: seq<Candidate>, term: string)
    ensures FilteredCandidates(candidates, term) == FilteredCandidates(candidates, ToLower(term))
  {
    ToLowerIdempotent(term);
    assert forall c :: MatchesSearch(c, term) == MatchesSearch(c, ToLower(term));
    FilterExtensional(candidates, c => MatchesSearch(c, term), c => MatchesSearch(c, ToLower(term)));
  }

  lemma {:induction false} FilterExtensional(s: seq<Candidate>, p: Candidate -> bool, q: Candidate -> bool)
    requires forall c :: p(c) == q(c)
    ensures Filter(s, p) == Filter(s, q)
  {
    if s != [] {
      FilterExtensional(s[1..], p, q);
    }
  }

  // ---------------------------------------------------------------- colours

  datatype ScoreBand = Green | Blue | Yellow | Orange | Red

  /** The CSS class of a band, as `getScoreColor` returns it. */
  function ScoreBandClass(b: ScoreBand): string {
    match b
    case Green => "bg-green-500"
    case Blue => "bg-blue-500"
    case Yellow => "bg-yellow-500"
    case Orange => "bg-orange-500"
    case Red => "bg-red-500"
  }

  /** `getScoreColor`, as a band. */
  function ScoreBandOf(score: int): (b: ScoreBand)
    ensures b == Green <==> score >= 90
    ensures b == Blue <==> 80 <= score < 90
    ensures b == Yellow <==> 70 <= score < 80
    ensures b == Orange <==> 60 <= score < 70
    ensures b == Red <==> score < 60
  {
    if score >= 90 then Green
    else if score >= 80 then Blue
    else if score >= 70 then Yellow
    else if score >= 60 then Orange
    else Red
  }

  function ScoreColor(score: int): string {
    ScoreBandClass(ScoreBandOf(score))
  }

  /** Bands rank Red < Orange < Yellow < Blue < Green. */
  function BandRank(b: ScoreBand): nat {
    match b
    case Red => 0
    case Orange => 1
    case Yellow => 2
    case Blue => 3
    case Green => 4
  }

  /** A higher score never lands in a lower band. */
  lemma ScoreBandMonotone(s: int, t: int)
    requires s <= t
    ensures BandRank(ScoreBandOf(s)) <= BandRank(ScoreBandOf(t))
  {
  }

  /** Different bands have different classes, so the colour determines the band. */
  lemma ScoreBandClassInjective(a: ScoreBand, b: ScoreBand)
    ensures ScoreBandClass(a) == ScoreBandClass(b) ==> a == b
  {
  }

  const DefaultStatusClass := "bg-gray-100 text-gray-800"

  /** `getStatusColor`: four known statuses, and the gray default for anything else, 'Hired' included. */
  function StatusColor(status: string): (r: string)
    ensures status == "Applied" ==> r == "bg-blue-100 text-blue-800"
    ensures status == "Screening" ==> r == "bg-yellow-100 text-yellow-800"
    ensures status == "Interviewing" ==> r == "bg-purple-100 text-purple-800"
    ensures status == "Offered" ==> r == "bg-green-100 text-green-800"
    ensures r == DefaultStatusClass <==> status !in {"Applied", "Screening", "Interviewing", "Offered"}
  {
    var colors := map[
      "Applied" := "bg-blue-100 text-blue-800",
      "Screening" := "bg-yellow-100 text-yellow-800",
      "Interviewing" := "bg-purple-100 text-purple-800",
      "Offered" := "bg-green-100 text-green-800"];
    if status in colors && colors[status] != "" then colors[status] else DefaultStatusClass
  }

  // ---------------------------------------------------------------- table rows

  /** The skills a table row shows: the first three at most. */
  function VisibleSkills(c: Candidate): (r: seq<string>)
    ensures |r| == if |c.skills| < 3 then |c.skills| else 3
    ensures r <= c.skills
  {
    if |c.skills| < 3 then c.skills else c.skills[..3]
  }

  // ---------------------------------------------------------------- list updates

  /** The skill list of the add form: the string split on ',' with every piece trimmed. */
  function ParseSkills(skills: string): (r: seq<string>)
    ensures |r| == CountChar(skills, ',') + 1
    ensures forall k :: 0 <= k < |r| ==> r[k] == Trim(Split(skills, ',')[k])
  {
    var pieces := Split(skills, ',');
    seq(|pieces|, k requires 0 <= k < |pieces| => Trim(pieces[k]))
  }

  lemma SplitKeepsEmptyPieces()
    ensures Split("a, ,b", ',') == ["a", " ", "b"]
  {
    assert Split("", ',') == [""];
    assert "b" == ['b'] + "";
    SplitCons('b', "", ',', "", []);
    assert Split("b", ',') == ["b"];
    assert ",b" == [','] + "b";
    SplitCons(',', "b", ',', "b", []);
    assert Split(",b", ',') == ["", "b"];
    assert " ,b" == [' '] + ",b";
    SplitCons(' ', ",b", ',', "", ["b"]);
    assert [' '] + "" == " ";
    assert Split(" ,b", ',') == [" ", "b"];
    assert ", ,b" == [','] + " ,b";
    SplitCons(',', " ,b", ',', " ", ["b"]);
    assert Split(", ,b", ',') == ["", " ", "b"];
    assert "a, ,b" == ['a'] + ", ,b";
    SplitCons('a', ", ,b", ',', "", [" ", "b"]);
    assert ['a'] + "" == "a";
  }

  /** Empty pieces are kept: an empty skills field gives one empty skill, "a, ,b" gives three skills. */
  lemma ParseSkillsKeepsEmptyPieces()
    ensures ParseSkills("") == [""]
    ensures ParseSkills("a, ,b") == ["a", "", "b"]
  {
    EmptySkillsField();
    assert ParseSkills("a, ,b") == [Trim("a"), Trim(" "), Trim("b")] by {
      SplitKeepsEmptyPieces();
    }
    TrimSingles();
  }

  lemma EmptySkillsField()
    ensures ParseSkills("") == [""]
  {
    assert Split("", ',') == [""];
    assert Trim("") == "";
  }

  lemma TrimSingles()
    ensures Trim(" ") == "" && Trim("a") == "a" && Trim("b") == "b"
  {
    assert LeadingWhitespace(" ") == 1;
    assert LeadingWhitespace("a") == 0 && TrailingWhitespace("a") == 0;
    assert LeadingWhitespace("b") == 0 && TrailingWhitespace("b") == 0;
  }

  lemma SplitLastPiece()
    ensures Split("C ", ',') == ["C "]
  {
    assert Split("", ',') == [""];
    assert " " == [' '] + "";
    SplitCons(' ', "", ',', "", []);
    assert [' '] + "" == " ";
    assert Split(" ", ',') == [" "];
    assert "C " == ['C'] + " ";
    SplitCons('C', " ", ',', " ", []);
    assert ['C'] + " " == "C ";
  }

  lemma SplitSecondPiece()
    ensures Split("o,C ", ',') == ["o", "C "]
  {
    SplitLastPiece();
    assert ",C " == [','] + "C ";
    SplitCons(',', "C ", ',', "C ", []);
    assert Split(",C ", ',') == ["", "C "];
    assert "o,C " == ['o'] + ",C ";
    SplitCons('o', ",C ", ',', "", ["C "]);
    assert ['o'] + "" == "o";
  }

  lemma SplitTwoPieces()
    ensures Split(" Go,C ", ',') == [" Go", "C "]
  {
    SplitSecondPiece();
    assert "Go,C " == ['G'] + "o,C ";
    SplitCons('G', "o,C ", ',', "o", ["C "]);
    assert ['G'] + "o" == "Go";
    assert Split("Go,C ", ',') == ["Go", "C "];
    assert " Go,C " == [' '] + "Go,C ";
    SplitCons(' ', "Go,C ", ',', "Go", ["C "]);
    assert [' '] + "Go" == " Go";
  }

  lemma TrimExamples()
    ensures Trim(" Go") == "Go" && Trim("C ") == "C"
  {
    assert LeadingWhitespace(" Go") == 1;
    assert " Go"[1..] == "Go";
    assert TrailingWhitespace("Go") == 0;
    assert LeadingWhitespace("C ") == 0;
    assert "C "[0..] == "C ";
    assert TrailingWhitespace("C ") == 1;
    assert "C "[..1] == "C";
  }

  /** Each piece is trimmed: " Go,C " gives ["Go", "C"]. */
  lemma ParseSkillsTrims()
    ensures ParseSkills(" Go,C ") == ["Go", "C"]
  {
    assert ParseSkills(" Go,C ") == [Trim(" Go"), Trim("C ")] by {
      SplitTwoPieces();
    }
    TrimExamples();
  }

  /** The candidate `handleAddCandidate` builds from the form. */
  function NewCandidate(candidates: seq<Candidate>, form: CandidateForm): (c: Candidate)
    ensures c.id == |candidates| + 1
    ensures c.name == form.name && c.email == form.email && c.position == form.position
    ensures c.score == form.score && c.status == form.status
    ensures c.skills == ParseSkills(form.skills)
    ensures |c.skills| == CountChar(form.skills, ',') + 1
  {
    Candidate(|candidates| + 1, form.name, form.email, form.position, ParseSkills(form.skills), form.score, form.status)
  }

  /** `handleSaveEdit`: every entry with the selected id becomes the selected record. */
  function ReplaceById(candidates: seq<Candidate>, selected: Candidate): (r: seq<Candidate>)
    ensures |r| == |candidates|
    ensures forall i :: 0 <= i < |r| ==> r[i] == if candidates[i].id == selected.id then selected else candidates[i]
  {
    seq(|candidates|, i requires 0 <= i < |candidates| =>
      if candidates[i].id == selected.id then selected else candidates[i])
  }

  /** Saving the same edit twice changes nothing more. */
  lemma ReplaceByIdIdempotent(candidates: seq<Candidate>, selected: Candidate)
    ensures ReplaceById(ReplaceById(candidates, selected), selected) == ReplaceById(candidates, selected)
  {
  }

  /** Saving an edit for an id nobody has changes nothing. */
  lemma ReplaceUnknownIdIsIdentity(candidates: seq<Candidate>, selected: Candidate)
    requires forall c :: c in candidates ==> c.id != selected.id
    ensures ReplaceById(candidates, selected) == candidates
  {
    var r := ReplaceById(candidates, selected);
    forall i | 0 <= i < |candidates| ensures r[i] == candidates[i] {
      assert candidates[i] in candidates;
    }
  }

  /** `handleDeleteCandidate`, confirmed branch: drop every candidate with the id, keep the rest in order. */
  function WithoutCandidate(candidates: seq<Candidate>, id: int): (r: seq<Candidate>)
    ensures forall c :: c in r <==> c in candidates && c.id != id
    ensures forall c :: multiset(r)[c] == if c.id != id then multiset(candidates)[c] else 0
    ensures IsSubsequence(r, candidates)
  {
    var keep := (c: Candidate) => c.id != id;
    FilterIsSubsequence(candidates, keep);
    FilterMultiplicity(candidates, keep);
    Filter(candidates, keep)
  }

  // ---------------------------------------------------------------- the page

  class CandidatesPage {
    var candidates: seq<Candidate>
    var searchTerm: string
    var newCandidateData: CandidateForm
    var selectedCandidate: Option<Candidate>

    constructor (saved: Option<seq<Candidate>>)
      ensures candidates == (if saved.Some? then saved.value else DefaultCandidates)
      ensures searchTerm == "" && newCandidateData == EmptyCandidateForm && selectedCandidate == None
    {
      candidates := if saved.Some? then saved.value else DefaultCandidates;
      searchTerm := "";
      newCandidateData := EmptyCandidateForm;
      selectedCandidate := None;
    }

    /** The rows on screen. */
    function Visible(): (r: seq<Candidate>)
      reads this
      ensures IsSubsequence(r, candidates)
      ensures forall c :: c in r <==> c in candidates && MatchesSearch(c, searchTerm)
      ensures forall c :: multiset(r)[c] == if MatchesSearch(c, searchTerm) then multiset(candidates)[c] else 0
    {
      FilteredCandidates(candidates, searchTerm)
    }

    method SetSearchTerm(term: string)
      modifies this
      ensures searchTerm == term
      ensures candidates == old(candidates) && newCandidateData == old(newCandidateData)
      ensures selectedCandidate == old(selectedCandidate)
    {
      searchTerm := term;
    }

    method EditNewCandidate(form: CandidateForm)
      modifies this
      ensures newCandidateData == form
      ensures candidates == old(candidates) && searchTerm == old(searchTerm)
      ensures selectedCandidate == old(selectedCandidate)
    {
      newCandidateData := form;
    }

    /** Opening the edit dialog on a candidate, or editing the open record's fields. */
    method SelectCandidate(c: Candidate)
      modifies this
      ensures selectedCandidate == Some(c)
      ensures candidates == old(candidates) && searchTerm == old(searchTerm)
      ensures newCandidateData == old(newCandidateData)
    {
      selectedCandidate := Some(c);
    }

    /** `handleAddCandidate`: append the new candidate and clear the form. */
    method AddCandidate()
      modifies this
      ensures candidates == old(candidates) + [NewCandidate(old(candidates), old(newCandidateData))]
      ensures |candidates| == |old(candidates)| + 1 && candidates[..|old(candidates)|] == old(candidates)
      ensures newCandidateData == EmptyCandidateForm
      ensures searchTerm == old(searchTerm) && selectedCandidate == old(selectedCandidate)
    {
      candidates := candidates + [NewCandidate(candidates, newCandidateData)];
      newCandidateData := EmptyCandidateForm;
    }

    /** `handleSaveEdit`: nothing happens when no candidate is selected. */
    method SaveEdit()
      modifies this
      ensures selectedCandidate == old(selectedCandidate)
      ensures candidates == if old(selectedCandidate).Some?
                            then ReplaceById(old(candidates), old(selectedCandidate).value)
                            else old(candidates)
      ensures |candidates| == |old(candidates)|
      ensures searchTerm == old(searchTerm) && newCandidateData == old(newCandidateData)
    {
      if selectedCandidate.Some? {
        candidates := ReplaceById(candidates, selectedCandidate.value);
      }
    }

    /** `handleDeleteCandidate`; `confirmed` is the user's answer to the confirmation dialog. */
    method DeleteCandidate(id: int, confirmed: bool)
      modifies this
      ensures candidates == if confirmed then WithoutCandidate(old(candidates), id) else old(candidates)
      ensures searchTerm == old(searchTerm) && newCandidateData == old(newCandidateData)
      ensures selectedCandidate == old(selectedCandidate)
    {
      if confirmed {
        candidates := WithoutCandidate(candidates, id);
      }
    }
  }
}
