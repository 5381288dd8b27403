/**
 * The public skills page: a text search over the catalogue, a category
 * filter, and an "AI" mode in which the list shows the skills an advisor
 * suggested. The page always searches the built-in catalogue; it is a
 * parameter here so the properties are stated for any catalogue.
 */
module SkillSearch {
  import opened Seqs
  import opened Text
  import opened SkillTypes

  datatype Mode = Standard | Ai

  /** The active category button: "All" or one category name. */
  datatype CategoryChoice = All | Only(name: string)

  predicate InCategory(s: Skill, c: CategoryChoice) {
    c.All? || s.category == c.name
  }

  /** A standard-mode hit: the lowercased query occurs in the lowercased name or in some lowercased tag. */
  predicate MatchesQuery(s: Skill, query: string) {
    var q := Lower(query);
    Contains(Lower(s.name), q) || exists t :: t in s.tags && Contains(Lower(t), q)
  }

  /** The category step: everything for "All", otherwise the skills of exactly that category. */
  function ByCategory(skills: seq<Skill>, c: CategoryChoice): (r: seq<Skill>)
    ensures c.All? ==> r == skills
    ensures forall x :: x in r <==> x in skills && InCategory(x, c)
    ensures Subseq(r, skills)
  {
    var keep := (s: Skill) => InCategory(s, c);
    FilterIsSubseq(skills, keep);
    assert forall x :: x in Filter(skills, keep) <==> x in skills && InCategory(x, c) by {
      forall x ensures x in Filter(skills, keep) <==> x in skills && InCategory(x, c) {
        FilterMembership(skills, keep, x);
      }
    }
    if c.All? then FilterAll(skills, keep); skills else Filter(skills, keep)
  }

  /** The text step of a standard search, in catalogue order. */
  function ByQuery(skills: seq<Skill>, query: string): (r: seq<Skill>)
    ensures forall x :: x in r <==> x in skills && MatchesQuery(x, query)
    ensures Subseq(r, skills)
  {
    var keep := (s: Skill) => MatchesQuery(s, query);
    FilterIsSubseq(skills, keep);
    assert forall x :: x in Filter(skills, keep) <==> x in skills && MatchesQuery(x, query) by {
      forall x ensures x in Filter(skills, keep) <==> x in skills && MatchesQuery(x, query) {
        FilterMembership(skills, keep, x);
      }
    }
    Filter(skills, keep)
  }

  /**
   * The effect that recomputes the list when the query, category or mode
   * changes. A blank query shows the category; a standard search matches the
   * text and then the category; an AI-mode search leaves the list alone.
   */
  function SearchEffect(catalogue: seq<Skill>, query: string, c: CategoryChoice, mode: Mode,
                        current: seq<Skill>): (r: seq<Skill>)
    ensures IsBlank(query) ==> forall x :: x in r <==> x in catalogue && InCategory(x, c)
    ensures IsBlank(query) && c.All? ==> r == catalogue
    ensures !IsBlank(query) && mode.Standard? ==>
      forall x :: x in r <==> x in catalogue && MatchesQuery(x, query) && InCategory(x, c)
    ensures !IsBlank(query) && mode.Ai? ==> r == current
    ensures IsBlank(query) || mode.Standard? ==> Subseq(r, catalogue)
  {
    if IsBlank(query) then ByCategory(catalogue, c)
    else if mode.Standard? then
      var hits := ByQuery(catalogue, query);
      SubseqTransitive(ByCategory(hits, c), hits, catalogue);
      ByCategory(hits, c)
    else current
  }

  /** Matching first and filtering the category second gives the same list as the other order. */
  lemma CategoryAfterMatch(catalogue: seq<Skill>, query: string, c: CategoryChoice)
    ensures ByCategory(ByQuery(catalogue, query), c) == ByQuery(ByCategory(catalogue, c), query)
  {
    if c.Only? {
      FilterFilter(catalogue, (s: Skill) => MatchesQuery(s, query), (s: Skill) => InCategory(s, c));
    }
  }

  /** The search ignores letter case in the query. */
  lemma MatchIgnoresQueryCase(s: Skill, query: string)
    ensures MatchesQuery(s, query) <==> MatchesQuery(s, Lower(query))
  {
    LowerIdempotent(query);
  }

  /** An empty query is matched by every skill. */
  lemma EmptyQueryMatchesAll(s: Skill)
    ensures MatchesQuery(s, "")
  {
    ContainsEmpty(Lower(s.name));
  }

  /** The suggestion filter: a skill is kept when its name or one of its tags was suggested. */
  predicate Suggested(s: Skill, names: seq<string>) {
    s.name in names || exists t :: t in s.tags && t in names
  }

  /** `skillsData.filter(...)` over `data.suggestedSkills || []`: no list means no skills. */
  function AiFilter(catalogue: seq<Skill>, suggested: Option<seq<string>>): (r: seq<Skill>)
    ensures forall x :: x in r <==> x in catalogue && Suggested(x, suggested.GetOr([]))
    ensures suggested.None? ==> r == []
    ensures Subseq(r, catalogue)
  {
    var names := suggested.GetOr([]);
    var keep := (s: Skill) => Suggested(s, names);
    FilterIsSubseq(catalogue, keep);
    assert forall x :: x in Filter(catalogue, keep) <==> x in catalogue && Suggested(x, names) by {
      forall x ensures x in Filter(catalogue, keep) <==> x in catalogue && Suggested(x, names) {
        FilterMembership(catalogue, keep, x);
      }
    }
    if suggested.None? then FilterNone(catalogue, keep); [] else Filter(catalogue, keep)
  }

  /** The parts of the page state the search touches. */
  datatype Page = Page(
    query: string,
    mode: Mode,
    category: CategoryChoice,
    results: seq<Skill>,
    aiResponse: string,
    loading: bool)

  /** What the advisor request produced: a parsed reply, or a failure (network or bad JSON). */
  datatype AdvisorReply = Delivered(response: string, suggested: Option<seq<string>>) | Failed

  const AdvisorFailureText := "Failed to get AI response. Showing standard results."

  /**
   * The "ask AI" handler. A blank query does nothing; otherwise the list
   * becomes the suggested skills, or stays as it was when the request failed,
   * and the loading flag is cleared at the end.
   */
  function AiSearch(catalogue: seq<Skill>, p: Page, reply: AdvisorReply): (p': Page)
    ensures IsBlank(p.query) ==> p' == p
    ensures !IsBlank(p.query) ==>
      && !p'.loading
      && p'.query == p.query && p'.mode == p.mode && p'.category == p.category
    ensures !IsBlank(p.query) && reply.Failed? ==>
      p'.results == p.results && p'.aiResponse == AdvisorFailureText
    ensures !IsBlank(p.query) && reply.Delivered? ==>
      p'.aiResponse == reply.response
      && Subseq(p'.results, catalogue)
      && forall x :: x in p'.results <==> x in catalogue && Suggested(x, reply.suggested.GetOr([]))
  {
    if IsBlank(p.query) then p
    else
      match reply
      case Failed => p.(aiResponse := AdvisorFailureText, loading := false)
      case Delivered(response, suggested) =>
        p.(aiResponse := response, results := AiFilter(catalogue, suggested), loading := false)
  }
}
