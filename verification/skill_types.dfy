/**
 * The skill record shared by the dashboard, the skills page and the AI
 * advisor route, the seven advertised categories, and the static catalogue
 * every page starts from.
 */
module SkillTypes {
  import opened Seqs

  /** A skill's level: exactly one of four values. */
  datatype Level = Beginner | Intermediate | Advanced | Expert

  /** The name the level carries in the data and in the form's select box. */
  function LevelName(l: Level): string {
    match l
    case Beginner => "Beginner"
    case Intermediate => "Intermediate"
    case Advanced => "Advanced"
    case Expert => "Expert"
  }

  /** Reading a level name back; any other text is not a level. */
  function ParseLevel(s: string): (r: Option<Level>)
    ensures r.Some? <==> s in {"Beginner", "Intermediate", "Advanced", "Expert"}
  {
    if s == "Beginner" then Some(Beginner)
    else if s == "Intermediate" then Some(Intermediate)
    else if s == "Advanced" then Some(Advanced)
    else if s == "Expert" then Some(Expert)
    else None
  }

  /** Level names and levels are in one-to-one correspondence. */
  lemma LevelNameRoundTrip(l: Level, s: string)
    ensures ParseLevel(LevelName(l)) == Some(l)
    ensures ParseLevel(s) == Some(l) ==> LevelName(l) == s
  {
  }

  /** The contributor shown on a skill card. */
  datatype Poster = Poster(id: string, name: string, avatar: string, role: string)

  /**
   * A catalogue entry. `category` is free text, not restricted to
   * `SkillCategories`; `createdAt` is milliseconds since the epoch.
   */
  datatype Skill = Skill(
    id: string,
    name: string,
    category: string,
    description: string,
    level: Level,
    postedBy: Poster,
    resourceUrl: string,
    createdAt: int,
    tags: seq<string>)

  /** The category names offered by the filter buttons and the dashboard form. */
  const SkillCategories: seq<string> := [
    "Frontend Development",
    "Backend Development",
    "Creative Design",
    "DevOps & Cloud",
    "Data Science",
    "Mobile Development",
    "Production Management"
  ]

  lemma SkillCategoriesDistinct()
    ensures |SkillCategories| == 7
    ensures NoDup(SkillCategories)
  {
  }

  /** The built-in catalogue (`skillsData`). */
  const Catalogue: seq<Skill> := [
    Skill("fe-1", "React.js", "Frontend Development",
      "Build interactive user interfaces with React", Advanced,
      Poster("user-1", "Sarah Johnson", "/avatars/sarah.jpg", "Senior Frontend Engineer @ Google"),
      "https://reactjs.org", 1705276800000, ["JavaScript", "UI", "Components"]),
    Skill("design-1", "Figma", "Creative Design",
      "Collaborative interface design tool", Intermediate,
      Poster("user-2", "Michael Chen", "/avatars/michael.jpg", "UX Designer @ Airbnb"),
      "https://figma.com", 1708387200000, ["UI/UX", "Prototyping", "Wireframing"]),
    Skill("devops-1", "Docker", "DevOps & Cloud",
      "Containerize applications for consistent environments", Advanced,
      Poster("user-3", "Emily Davis", "/avatars/emily.jpg", "DevOps Engineer @ Microsoft"),
      "https://docker.com", 1709596800000, ["Containers", "Deployment", "CI/CD"]),
    Skill("data-1", "Python for Data Science", "Data Science",
      "Learn Python libraries for data analysis and visualization", Beginner,
      Poster("user-4", "David Smith", "/avatars/david.jpg", "Data Scientist @ Facebook"),
      "https://python.org", 1712707200000, ["Python", "Data Analysis", "Machine Learning"]),
    Skill("mobile-1", "Flutter", "Mobile Development",
      "Build natively compiled applications for mobile, web, and desktop from a single codebase", Intermediate,
      Poster("user-5", "Laura Brown", "/avatars/laura.jpg", "Mobile Developer @ Uber"),
      "https://flutter.dev", 1715731200000, ["Dart", "Cross-platform", "UI"]),
    Skill("prod-1", "Agile Project Management", "Production Management",
      "Learn Agile methodologies for effective project management", Beginner,
      Poster("user-6", "James Wilson", "/avatars/james.jpg", "Project Manager @ Amazon"),
      "https://agilemanifesto.org", 1717200000000, ["Agile", "Scrum", "Kanban"]),
    Skill("be-1", "Node.js", "Backend Development",
      "Build scalable server-side applications with Node.js", Advanced,
      Poster("user-7", "Olivia Taylor", "/avatars/olivia.jpg", "Backend Engineer @ Netflix"),
      "https://nodejs.org", 1721433600000, ["JavaScript", "APIs", "Server"]),
    Skill("fe-2", "Vue.js", "Frontend Development",
      "Progressive framework for building user interfaces", Intermediate,
      Poster("user-8", "Liam Martinez", "/avatars/liam.jpg", "Frontend Developer @ Shopify"),
      "https://vuejs.org", 1723248000000, ["JavaScript", "UI", "Framework"]),
    Skill("ai-1", "AI", "AI",
      "Build AI models and applications", Advanced,
      Poster("user-9", "John Doe", "/avatars/john.jpg", "AI Engineer @ Google"),
      "https://ai.com", 1726358400000, ["AI", "Machine Learning", "Deep Learning"])
  ]

  /** The ids of a list of skills, in list order. */
  function Ids(skills: seq<Skill>): (r: seq<string>)
    ensures |r| == |skills|
    ensures forall i :: 0 <= i < |skills| ==> r[i] == skills[i].id
  {
    seq(|skills|, i requires 0 <= i < |skills| => skills[i].id)
  }

  /** Every entry names a contributor and carries at least one tag. */
  predicate WellFormed(s: Skill) {
    && |s.tags| > 0
    && s.postedBy.id != "" && s.postedBy.name != ""
    && s.postedBy.avatar != "" && s.postedBy.role != ""
  }

  /** Catalogue ids are pairwise distinct, so id-based edit and delete touch one entry. */
  lemma CatalogueIdsDistinct()
    ensures |Catalogue| == 9
    ensures NoDup(Ids(Catalogue))
  {
    var ids := Ids(Catalogue);
    assert ids == ["fe-1", "design-1", "devops-1", "data-1", "mobile-1", "prod-1", "be-1", "fe-2", "ai-1"];
    DistinctIds(ids);
  }

  lemma DistinctIds(ids: seq<string>)
    requires ids == ["fe-1", "design-1", "devops-1", "data-1", "mobile-1", "prod-1", "be-1", "fe-2", "ai-1"]
    ensures NoDup(ids)
  {
  }

  lemma CatalogueWellFormed()
    ensures forall i :: 0 <= i < |Catalogue| ==> WellFormed(Catalogue[i])
  {
  }

  /** The `ai-1` entry's category lies outside the advertised category list. */
  lemma CategoryIsFreeText()
    ensures Catalogue[8].id == "ai-1" && Catalogue[8].category == "AI"
    ensures Catalogue[8].category !in SkillCategories
  {
  }
}
