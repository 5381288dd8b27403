/**
 * The skills dashboard: a signed-in user adds, edits and deletes entries of
 * a local skill list through a modal form. The form keeps tags as one
 * comma-separated text field; submitting parses it back into a list and
 * fills in defaults for the contributor fields.
 *
 * The session's display name and image are passed as strings, "" standing
 * for "no session" or "field absent" (every use goes through `||`). The
 * handler reads the clock three times, for the new id, the contributor id
 * and `createdAt`; the three readings are the parameter `clock`.
 */
module Dashboard {
  import opened Seqs
  import opened Text
  import opened SkillTypes

  /** The modal form's fields. */
  datatype Form = Form(
    name: string,
    category: string,
    description: string,
    level: Level,
    tags: string,
    posterName: string,
    posterRole: string,
    posterAvatar: string,
    resourceUrl: string)

  /**
   * The three clock readings of one submit, in milliseconds: `Date.now()`
   * for the skill id, `Date.now()` again for the contributor id, and
   * `new Date()` for the creation time. They may differ.
   */
  datatype Clock = Clock(skillIdAt: nat, posterIdAt: nat, createdAt: nat)

  /** What a submit does: an alert and no change, or the new skill list. */
  datatype SubmitResult = Rejected(message: string) | Saved(skills: seq<Skill>)

  const RequiredFieldsMessage := "Name, category, and description are required."
  const DefaultAvatar := "/avatars/default.jpg"
  const DefaultRole := "Contributor"
  const DefaultPosterName := "Anonymous"
  const DefaultResourceUrl := "https://example.com"

  /** A tag as the form accepts it: non-empty, without surrounding blanks or commas. */
  predicate CleanTag(t: string) {
    t != "" && IsTrimmed(t) && ',' !in t
  }

  function TrimAll(parts: seq<string>): seq<string> {
    Map(parts, Trim)
  }

  /** The tag field as the form submits it: split on ',', trim each piece, drop empty pieces. */
  function ParseTags(field: string): (r: seq<string>)
    ensures forall i :: 0 <= i < |r| ==> CleanTag(r[i])
    ensures |r| <= |Split(field, ',')|
  {
    var pieces := Split(field, ',');
    var trimmed := TrimAll(pieces);
    assert forall i :: 0 <= i < |trimmed| ==> ',' !in trimmed[i] && IsTrimmed(trimmed[i]) by {
      forall i | 0 <= i < |trimmed| ensures ',' !in trimmed[i] && IsTrimmed(trimmed[i]) {
        var a, b :| 0 <= a <= b <= |pieces[i]| && trimmed[i] == pieces[i][a..b]
                    && AllWhitespace(pieces[i][..a]) && AllWhitespace(pieces[i][b..]);
        assert ',' !in pieces[i];
      }
    }
    Filter(trimmed, t => t != "")
  }

  /** A field without a comma is one tag, trimmed, or no tag when it is blank. */
  lemma ParseTagsSingle(x: string)
    requires ',' !in x
    ensures ParseTags(x) == if IsBlank(x) then [] else [Trim(x)]
  {
    SplitNoSeparator(x);
    TrimAllCons(x, []);
    assert TrimAll([x]) == [Trim(x)];
  }

  /** Each comma-separated part of the field is parsed on its own, in order. */
  lemma ParseTagsAppend(x: string, y: string)
    ensures ParseTags(x + "," + y) == ParseTags(x) + ParseTags(y)
  {
    assert x + "," + y == x + [','] + y;
    SplitConcat(x, ',', y);
    MapAppend(Split(x, ','), Split(y, ','), Trim);
    FilterAppend(TrimAll(Split(x, ',')), TrimAll(Split(y, ',')), t => t != "");
  }

  /**
   * A typed field such as "react, , node," keeps its tags in order and drops
   * the blank piece between two commas and the empty piece after the last.
   */
  lemma ParseTypedTags(t1: string, w: string, t2: string)
    requires CleanTag(t1) && CleanTag(t2) && ',' !in w && IsBlank(w)
    ensures ParseTags(t1 + "," + w + "," + t2 + ",") == [t1, t2]
  {
    var x1 := t1 + "," + w;
    var x2 := x1 + "," + t2;
    assert ParseTags(x1) == [t1] by {
      ParseTagsAppend(t1, w);
      ParseTagsSingle(t1);
      TrimOfTrimmed(t1);
      ParseTagsSingle(w);
    }
    assert ParseTags(x2) == [t1, t2] by {
      ParseTagsAppend(x1, t2);
      ParseTagsSingle(t2);
      TrimOfTrimmed(t2);
    }
    assert ParseTags(x2 + "," + "") == [t1, t2] by {
      ParseTagsAppend(x2, "");
      ParseTagsSingle("");
      TrimOfTrimmed("");
    }
    assert x2 + "," + "" == t1 + "," + w + "," + t2 + ",";
  }

  /** The tag field prefilled when a skill is opened for editing: the tags joined by ", ". */
  function JoinTags(tags: seq<string>): string {
    Join(tags, ", ")
  }

  /** Parsing the prefilled field gives back the tags, whenever every tag is clean. */
  lemma TagsRoundTrip(tags: seq<string>)
    requires forall i :: 0 <= i < |tags| ==> CleanTag(tags[i])
    ensures ParseTags(JoinTags(tags)) == tags
  {
    var trimmed := TrimAll(Split(JoinTags(tags), ','));
    if |tags| == 0 {
      assert Split("", ',') == [""];
      TrimOfTrimmed("");
      assert trimmed == [""];
      assert Filter(trimmed, t => t != "") == [];
    } else {
      SplitTrimJoin("", tags);
      assert "" + JoinTags(tags) == JoinTags(tags);
      assert trimmed == tags;
      FilterAll(trimmed, t => t != "");
    }
  }

  /** Splitting text without a comma gives the text as the only piece. */
  lemma SplitNoSeparator(s: string)
    requires ',' !in s
    ensures Split(s, ',') == [s]
  {
  }

  lemma TrimAllCons(x: string, tail: seq<string>)
    ensures TrimAll([x] + tail) == [Trim(x)] + TrimAll(tail)
  {
    MapCons(x, tail, Trim);
  }

  lemma JoinTagsCons(tags: seq<string>)
    requires |tags| > 1
    ensures JoinTags(tags) == tags[0] + ", " + JoinTags(tags[1..])
  {
  }

  lemma Regroup(w: string, t: string, j: string)
    ensures w + (t + ", " + j) == (w + t) + [','] + (" " + j)
  {
    assert ", " == [','] + " ";
  }

  /** The first comma of the joined field ends the first tag. */
  lemma SplitJoinedStep(w: string, tags: seq<string>)
    requires |tags| > 1 && ',' !in w + tags[0]
    ensures Split(w + JoinTags(tags), ',') == [w + tags[0]] + Split(" " + JoinTags(tags[1..]), ',')
  {
    var t, j := tags[0], JoinTags(tags[1..]);
    JoinTagsCons(tags);
    Regroup(w, t, j);
    SplitAfterPiece(w + t, ',', " " + j);
  }

  lemma SplitTrimOne(w: string, t: string)
    requires AllWhitespace(w) && ',' !in w && CleanTag(t)
    ensures TrimAll(Split(w + JoinTags([t]), ',')) == [t]
  {
    assert JoinTags([t]) == t;
    assert ',' !in w + t;
    SplitNoSeparator(w + t);
    TrimAllCons(w + t, []);
    TrimAfterWhitespace(w, t);
  }

  lemma SplitTrimStep(w: string, tags: seq<string>)
    requires AllWhitespace(w) && ',' !in w
    requires |tags| > 1 && CleanTag(tags[0])
    requires TrimAll(Split(" " + JoinTags(tags[1..]), ',')) == tags[1..]
    ensures TrimAll(Split(w + JoinTags(tags), ',')) == tags
  {
    var t, rest := tags[0], Split(" " + JoinTags(tags[1..]), ',');
    assert Split(w + JoinTags(tags), ',') == [w + t] + rest by {
      assert ',' !in w + t;
      SplitJoinedStep(w, tags);
    }
    assert TrimAll([w + t] + rest) == [t] + tags[1..] by {
      TrimAllCons(w + t, rest);
      TrimAfterWhitespace(w, t);
    }
    assert tags == [t] + tags[1..];
  }

  /**
   * The inductive core of the round trip: with some whitespace `w` in front,
   * splitting the ", "-joined tags and trimming the pieces gives the tags.
   */
  lemma {:induction false} SplitTrimJoin(w: string, tags: seq<string>)
    requires AllWhitespace(w) && ',' !in w
    requires |tags| > 0
    requires forall i :: 0 <= i < |tags| ==> CleanTag(tags[i])
    ensures TrimAll(Split(w + JoinTags(tags), ',')) == tags
    decreases |tags|
  {
    if |tags| == 1 {
      assert tags == [tags[0]];
      SplitTrimOne(w, tags[0]);
    } else {
      var rest := tags[1..];
      assert forall i :: 0 <= i < |rest| ==> CleanTag(rest[i]) by {
        forall i | 0 <= i < |rest| ensures CleanTag(rest[i]) {
          assert rest[i] == tags[i + 1];
        }
      }
      SplitTrimJoin(" ", rest);
      SplitTrimStep(w, tags);
    }
  }

  /** The form opened by "Add skill": blank, first category, level Beginner, session defaults. */
  function AddForm(sessionName: string, sessionImage: string): (f: Form)
    ensures f.name == "" && f.description == "" && f.tags == ""
    ensures f.category == SkillCategories[0] && f.level == Beginner
    ensures f.posterName == sessionName && f.posterRole == "" && f.resourceUrl == ""
    ensures f.posterAvatar == if sessionImage != "" then sessionImage else DefaultAvatar
    ensures f.posterAvatar != ""
  {
    Form("", SkillCategories[0], "", Beginner, "", sessionName, "",
      OrElse(sessionImage, DefaultAvatar), "")
  }

  /** The form opened by "Edit": every field copied from the skill, tags joined by ", ". */
  function EditForm(s: Skill): (f: Form)
    ensures (forall i :: 0 <= i < |s.tags| ==> CleanTag(s.tags[i])) ==> ParseTags(f.tags) == s.tags
  {
    var f := Form(s.name, s.category, s.description, s.level, JoinTags(s.tags),
      s.postedBy.name, s.postedBy.role, s.postedBy.avatar, s.resourceUrl);
    if forall i :: 0 <= i < |s.tags| ==> CleanTag(s.tags[i]) then
      TagsRoundTrip(s.tags);
      f
    else f
  }

  /** The record a submit builds from the form. */
  function BuildSkill(f: Form, editing: Option<Skill>, sessionName: string, sessionImage: string, clock: Clock): Skill {
    Skill(
      if editing.Some? then editing.value.id else "skill-" + Decimal(clock.skillIdAt),
      f.name, f.category, f.description, f.level,
      Poster(
        if editing.Some? then editing.value.postedBy.id else "user-" + Decimal(clock.posterIdAt),
        OrElse(f.posterName, OrElse(sessionName, DefaultPosterName)),
        OrElse(f.posterAvatar, OrElse(sessionImage, DefaultAvatar)),
        OrElse(f.posterRole, DefaultRole)),
      OrElse(f.resourceUrl, DefaultResourceUrl),
      clock.createdAt,
      ParseTags(f.tags))
  }

  /** A saved entry holds the form's own fields, the parsed tags and the submit time. */
  predicate CarriesForm(s: Skill, f: Form, createdAt: nat) {
    && s.name == f.name && s.category == f.category && s.description == f.description
    && s.level == f.level && s.tags == ParseTags(f.tags) && s.createdAt == createdAt
  }

  /**
   * The `||` fallbacks of a saved entry's contributor and link: the form's
   * value, else the session's, else the fixed default.
   */
  predicate Defaulted(s: Skill, f: Form, sessionName: string, sessionImage: string) {
    && s.postedBy.name == (if f.posterName != "" then f.posterName
                           else if sessionName != "" then sessionName else DefaultPosterName)
    && s.postedBy.avatar == (if f.posterAvatar != "" then f.posterAvatar
                             else if sessionImage != "" then sessionImage else DefaultAvatar)
    && s.postedBy.role == (if f.posterRole != "" then f.posterRole else DefaultRole)
    && s.resourceUrl == (if f.resourceUrl != "" then f.resourceUrl else DefaultResourceUrl)
  }

  /** `skills.map(s => s.id === id ? replacement : s)`. */
  function ReplaceById(skills: seq<Skill>, id: string, replacement: Skill): (r: seq<Skill>)
    ensures |r| == |skills|
    ensures forall i :: 0 <= i < |skills| ==> r[i] == if skills[i].id == id then replacement else skills[i]
  {
    seq(|skills|, i requires 0 <= i < |skills| => if skills[i].id == id then replacement else skills[i])
  }

  /**
   * The form's submit handler. A missing name, category or description is
   * rejected with the list unchanged; otherwise an edit replaces the entries
   * carrying the edited id (keeping the ids) and an add appends one entry.
   */
  function Submit(skills: seq<Skill>, f: Form, editing: Option<Skill>,
                  sessionName: string, sessionImage: string, clock: Clock): (r: SubmitResult)
    ensures r.Rejected? <==> f.name == "" || f.category == "" || f.description == ""
    ensures r.Rejected? ==> r.message == RequiredFieldsMessage
    ensures r.Saved? && editing.None? ==>
      |r.skills| == |skills| + 1 && r.skills[..|skills|] == skills
      && r.skills[|skills|].id == "skill-" + Decimal(clock.skillIdAt)
      && r.skills[|skills|].postedBy.id == "user-" + Decimal(clock.posterIdAt)
      && CarriesForm(r.skills[|skills|], f, clock.createdAt)
      && Defaulted(r.skills[|skills|], f, sessionName, sessionImage)
    ensures r.Saved? && editing.Some? ==>
      |r.skills| == |skills|
      && forall i :: 0 <= i < |skills| ==>
           if skills[i].id == editing.value.id then
             r.skills[i].id == editing.value.id
             && r.skills[i].postedBy.id == editing.value.postedBy.id
             && CarriesForm(r.skills[i], f, clock.createdAt)
             && Defaulted(r.skills[i], f, sessionName, sessionImage)
           else r.skills[i] == skills[i]
  {
    if f.name == "" || f.category == "" || f.description == "" then
      Rejected(RequiredFieldsMessage)
    else
      var s := BuildSkill(f, editing, sessionName, sessionImage, clock);
      if editing.Some? then Saved(ReplaceById(skills, editing.value.id, s))
      else
        assert (skills + [s])[..|skills|] == skills;
        Saved(skills + [s])
  }

  /**
   * Whether added or edited, an entry written by a submit never has an empty
   * contributor name, avatar, role or link.
   */
  lemma SubmitDefaults(skills: seq<Skill>, f: Form, editing: Option<Skill>,
                       sessionName: string, sessionImage: string, clock: Clock)
    requires f.name != "" && f.category != "" && f.description != ""
    ensures Submit(skills, f, editing, sessionName, sessionImage, clock).Saved?
    ensures var r := Submit(skills, f, editing, sessionName, sessionImage, clock).skills;
      forall i :: 0 <= i < |r| && (if editing.None? then i == |skills| else skills[i].id == editing.value.id) ==>
        r[i].postedBy.name != "" && r[i].postedBy.avatar != "" && r[i].postedBy.role != "" && r[i].resourceUrl != ""
  {
  }

  /**
   * Filling in the "Add skill" form and saving it credits the session: its
   * name and image, else "Anonymous" and the default avatar, with the
   * default role and link.
   */
  lemma AddCreditsSession(skills: seq<Skill>, name: string, category: string, description: string,
                          sessionName: string, sessionImage: string, clock: Clock)
    requires name != "" && category != "" && description != ""
    ensures
      var f := AddForm(sessionName, sessionImage).(name := name, category := category, description := description);
      var r := Submit(skills, f, None, sessionName, sessionImage, clock);
      && r.Saved?
      && r.skills[|skills|].postedBy == Poster("user-" + Decimal(clock.posterIdAt),
           if sessionName != "" then sessionName else DefaultPosterName,
           if sessionImage != "" then sessionImage else DefaultAvatar,
           DefaultRole)
      && r.skills[|skills|].resourceUrl == DefaultResourceUrl
      && r.skills[|skills|].tags == []
  {
    ParseTagsSingle("");
    TrimOfTrimmed("");
  }

  /** `skills.filter(s => s.id !== id)`. */
  function Delete(skills: seq<Skill>, id: string): (r: seq<Skill>)
    ensures forall i :: 0 <= i < |r| ==> r[i].id != id
    ensures Subseq(r, skills)
    ensures forall x :: x in skills && x.id != id ==> multiset(r)[x] == multiset(skills)[x]
  {
    var keep := (s: Skill) => s.id != id;
    FilterIsSubseq(skills, keep);
    assert forall x :: x in skills && x.id != id ==> multiset(Filter(skills, keep))[x] == multiset(skills)[x] by {
      forall x | x in skills && x.id != id
        ensures multiset(Filter(skills, keep))[x] == multiset(skills)[x]
      {
        FilterCount(skills, keep, x);
      }
    }
    Filter(skills, keep)
  }

  /** Deleting an id no entry carries leaves the list as it was. */
  lemma DeleteAbsent(skills: seq<Skill>, id: string)
    requires id !in Ids(skills)
    ensures Delete(skills, id) == skills
  {
    FilterAll(skills, (s: Skill) => s.id != id);
  }

  lemma DeleteCons(x: Skill, rest: seq<Skill>, id: string)
    ensures Delete([x] + rest, id) == (if x.id != id then [x] else []) + Delete(rest, id)
  {
    assert ([x] + rest)[0] == x && ([x] + rest)[1..] == rest;
  }

  lemma IdsCons(x: Skill, rest: seq<Skill>)
    ensures Ids([x] + rest) == [x.id] + Ids(rest)
  {
    var l := Ids([x] + rest);
    forall i | 0 <= i < |l| ensures l[i] == ([x.id] + Ids(rest))[i] {
      if i > 0 {
        assert ([x] + rest)[i] == rest[i - 1];
      }
    }
  }

  /** With distinct ids, deleting a present id removes exactly one entry. */
  lemma {:induction false} DeleteOne(skills: seq<Skill>, id: string)
    requires NoDup(Ids(skills)) && id in Ids(skills)
    ensures |Delete(skills, id)| == |skills| - 1
    decreases |skills|
  {
    var x, rest := skills[0], skills[1..];
    assert skills == [x] + rest;
    DeleteCons(x, rest, id);
    IdsCons(x, rest);
    var ids := [x.id] + Ids(rest);
    assert ids[1..] == Ids(rest);
    NoDupTail(ids);
    if x.id == id {
      DeleteAbsent(rest, id);
    } else {
      DeleteOne(rest, id);
    }
  }

  /** Adding an entry with a fresh id and deleting it again restores the list. */
  lemma DeleteUndoesAdd(skills: seq<Skill>, s: Skill)
    requires s.id !in Ids(skills)
    ensures Delete(skills + [s], s.id) == skills
  {
    var keep := (x: Skill) => x.id != s.id;
    FilterAppend(skills, [s], keep);
    DeleteAbsent(skills, s.id);
  }

  /** An edit touches nothing but the edited id: deleting that id afterwards gives the same list. */
  lemma {:induction false} EditOnlyTouchesItsId(skills: seq<Skill>, id: string, s: Skill)
    requires s.id == id
    ensures Delete(ReplaceById(skills, id, s), id) == Delete(skills, id)
    decreases |skills|
  {
    if |skills| > 0 {
      EditOnlyTouchesItsId(skills[1..], id, s);
      assert ReplaceById(skills, id, s)[1..] == ReplaceById(skills[1..], id, s);
    }
  }

  /**
   * Saving the edit form unchanged keeps the entry as it was apart from its
   * time stamp, provided its fields were filled in and its tags clean.
   */
  lemma ResaveKeepsSkill(skills: seq<Skill>, s: Skill, sessionName: string, sessionImage: string, clock: Clock)
    requires s.name != "" && s.category != "" && s.description != ""
    requires s.postedBy.name != "" && s.postedBy.role != "" && s.postedBy.avatar != "" && s.resourceUrl != ""
    requires forall i :: 0 <= i < |s.tags| ==> CleanTag(s.tags[i])
    ensures Submit(skills, EditForm(s), Some(s), sessionName, sessionImage, clock)
            == Saved(ReplaceById(skills, s.id, s.(createdAt := clock.createdAt)))
  {
    TagsRoundTrip(s.tags);
  }
}
