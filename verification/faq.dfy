/**
 * The FAQ page: entries loaded from the `faqs` store node, category tabs,
 * an accordion with at most one open entry, per-user upvote toggling, and
 * a signed-in user's question answered by a text generator and stored as a
 * "Pending" entry.
 *
 * The store snapshot is a parameter: `None` is an empty node (`null`),
 * otherwise the records in key order. A signed-in session is `Some(email)`.
 */
module Faq {
  import opened Seqs
  import opened Text
  import opened Listing

  /** A record as stored; `upvotes` and `isAI` may be absent. */
  datatype StoredFaq = StoredFaq(
    question: string,
    answer: string,
    category: string,
    upvotes: Option<seq<string>>,
    isAI: Option<bool>)

  /** An entry as the page holds it, keyed by its store id. */
  datatype Faq = Faq(
    id: string,
    question: string,
    answer: string,
    category: string,
    upvotes: seq<string>,
    isAI: bool)

  /** One record read back, with the page's defaults for absent fields. */
  function FromStored(id: string, s: StoredFaq): (f: Faq)
    ensures f.id == id && f.question == s.question && f.answer == s.answer && f.category == s.category
    ensures s.upvotes.None? ==> f.upvotes == []
    ensures s.upvotes.Some? ==> f.upvotes == s.upvotes.value
    ensures f.isAI <==> s.isAI == Some(true)
  {
    Faq(id, s.question, s.answer, s.category, s.upvotes.GetOr([]), s.isAI.GetOr(false))
  }

  /** The snapshot listener: an empty node gives no entries, otherwise one entry per record, in order. */
  function Load(snapshot: Option<seq<(string, StoredFaq)>>): (r: seq<Faq>)
    ensures snapshot.None? ==> r == []
    ensures snapshot.Some? ==> |r| == |snapshot.value|
    ensures snapshot.Some? ==> forall i :: 0 <= i < |r| ==>
      r[i] == FromStored(snapshot.value[i].0, snapshot.value[i].1)
  {
    match snapshot
    case None => []
    case Some(entries) =>
      seq(|entries|, i requires 0 <= i < |entries| => FromStored(entries[i].0, entries[i].1))
  }

  function FaqCategories(faqs: seq<Faq>): seq<string> {
    seq(|faqs|, i requires 0 <= i < |faqs| => faqs[i].category)
  }

  /** The tabs: "All" then each entry category once. */
  function Categories(faqs: seq<Faq>): (r: seq<string>)
    ensures |r| >= 1 && r[0] == AllTab
    ensures forall i :: 0 <= i < |faqs| ==> faqs[i].category in r
    ensures NoDup(r[1..])
    ensures forall c :: c in r[1..] ==> exists i :: 0 <= i < |faqs| && faqs[i].category == c
  {
    var cats := FaqCategories(faqs);
    var r := CategoryTabs(cats);
    assert forall i :: 0 <= i < |faqs| ==> faqs[i].category in r by {
      forall i | 0 <= i < |faqs| ensures faqs[i].category in r {
        assert cats[i] in cats;
        assert cats[i] in r[1..];
      }
    }
    r
  }

  /** `filteredFaqs`: the entries under the active tab. */
  function Filtered(faqs: seq<Faq>, active: string): (r: seq<Faq>)
    ensures forall f :: f in r <==> f in faqs && Shown(active, f.category)
    ensures active == AllTab ==> r == faqs
    ensures Subseq(r, faqs)
  {
    var keep := (f: Faq) => Shown(active, f.category);
    FilterIsSubseq(faqs, keep);
    assert forall f :: f in Filter(faqs, keep) <==> f in faqs && keep(f) by {
      forall f ensures f in Filter(faqs, keep) <==> f in faqs && keep(f) {
        FilterMembership(faqs, keep, f);
      }
    }
    if active == AllTab then FilterAll(faqs, keep); faqs else Filter(faqs, keep)
  }

  /** `toggleFAQ`: clicking the open entry closes it, clicking any other opens that one. */
  function ToggleOpen(active: Option<int>, index: int): (r: Option<int>)
    ensures r.None? <==> active == Some(index)
    ensures r.Some? ==> r.value == index
  {
    if active == Some(index) then None else Some(index)
  }

  /** Clicking the same entry twice restores the accordion when it was closed or showed that entry. */
  lemma ToggleOpenTwice(active: Option<int>, index: int)
    requires active.None? || active == Some(index)
    ensures ToggleOpen(ToggleOpen(active, index), index) == active
  {
  }

  /**
   * The new upvote list: without the user's email when it was there (every
   * copy removed), with it appended otherwise.
   */
  function ToggleVote(upvotes: seq<string>, email: string): (r: seq<string>)
    ensures email in r <==> email !in upvotes
    ensures email !in upvotes ==> r == upvotes + [email]
    ensures email in upvotes ==> Subseq(r, upvotes) && |r| < |upvotes|
  {
    if email in upvotes then
      var keep := (e: string) => e != email;
      FilterIsSubseq(upvotes, keep);
      FilterMembership(upvotes, keep, email);
      FilterCount(upvotes, keep, email);
      assert multiset(Filter(upvotes, keep))[email] == 0 < multiset(upvotes)[email];
      FilterShorter(upvotes, keep);
      Filter(upvotes, keep)
    else upvotes + [email]
  }

  /** Toggling leaves every other user's votes as they were. */
  lemma ToggleVoteKeepsOthers(upvotes: seq<string>, email: string, other: string)
    requires other != email
    ensures multiset(ToggleVote(upvotes, email))[other] == multiset(upvotes)[other]
  {
    if email in upvotes {
      FilterCount(upvotes, (e: string) => e != email, other);
    }
  }

  /** Voting and then un-voting restores the list. */
  lemma ToggleVoteTwice(upvotes: seq<string>, email: string)
    requires email !in upvotes
    ensures ToggleVote(ToggleVote(upvotes, email), email) == upvotes
  {
    var u := upvotes + [email];
    var keep := (e: string) => e != email;
    FilterAppend(upvotes, [email], keep);
    FilterAll(upvotes, keep);
    assert Filter([email], keep) == [];
  }

  /** The first entry with `id`, as `faqs.find`. */
  function Find(faqs: seq<Faq>, id: string): (r: Option<Faq>)
    ensures r.None? <==> forall i :: 0 <= i < |faqs| ==> faqs[i].id != id
    ensures r.Some? ==> (exists i :: 0 <= i < |faqs| && faqs[i] == r.value && r.value.id == id
                          && forall k :: 0 <= k < i ==> faqs[k].id != id)
  {
    if |faqs| == 0 then None
    else if faqs[0].id == id then Some(faqs[0])
    else
      var r := Find(faqs[1..], id);
      assert r.Some? ==> exists i :: 0 <= i < |faqs| && faqs[i] == r.value && r.value.id == id
                          && forall k :: 0 <= k < i ==> faqs[k].id != id by {
        if r.Some? {
          var i :| 0 <= i < |faqs[1..]| && faqs[1..][i] == r.value && r.value.id == id
                   && forall k :: 0 <= k < i ==> faqs[1..][k].id != id;
          assert faqs[i + 1] == r.value;
          assert forall k :: 0 <= k < i + 1 ==> faqs[k].id != id by {
            forall k | 0 <= k < i + 1 ensures faqs[k].id != id {
              if k > 0 { assert faqs[k] == faqs[1..][k - 1]; }
            }
          }
        }
      }
      r
  }

  const SignInText := "Sign in to upvote! 😅"

  /**
   * What an upvote click does: a signed-out user gets an alert; an unknown
   * id makes the handler throw before writing; otherwise the toggled list is
   * written to `faqs/<id>`.
   */
  datatype Upvoted = SignInAlert | NoSuchEntry | Write(path: string, upvotes: seq<string>)

  function Upvote(faqs: seq<Faq>, session: Option<string>, id: string): (r: Upvoted)
    ensures session.None? <==> r.SignInAlert?
    ensures session.Some? && (forall i :: 0 <= i < |faqs| ==> faqs[i].id != id) <==> r.NoSuchEntry?
    ensures r.Write? ==> (r.path == "faqs/" + id
      && exists i :: 0 <= i < |faqs| && faqs[i].id == id
           && (session.value in r.upvotes <==> session.value !in faqs[i].upvotes))
    ensures r.Write? ==>
      Find(faqs, id).Some? && r.upvotes == ToggleVote(Find(faqs, id).value.upvotes, session.value)
  {
    match session
    case None => SignInAlert
    case Some(email) =>
      match Find(faqs, id)
      case None => NoSuchEntry
      case Some(f) => Write("faqs/" + id, ToggleVote(f.upvotes, email))
  }

  /** The store write seen by the listener: every entry with `id` gets the new list. */
  function ApplyVotes(faqs: seq<Faq>, id: string, upvotes: seq<string>): (r: seq<Faq>)
    ensures |r| == |faqs|
    ensures forall i :: 0 <= i < |faqs| ==>
      r[i] == if faqs[i].id == id then faqs[i].(upvotes := upvotes) else faqs[i]
  {
    seq(|faqs|, i requires 0 <= i < |faqs| =>
      if faqs[i].id == id then faqs[i].(upvotes := upvotes) else faqs[i])
  }

  lemma {:induction false} FindAfterApply(faqs: seq<Faq>, id: string, upvotes: seq<string>)
    requires Find(faqs, id).Some?
    ensures Find(ApplyVotes(faqs, id, upvotes), id) == Some(Find(faqs, id).value.(upvotes := upvotes))
  {
    var a := ApplyVotes(faqs, id, upvotes);
    if faqs[0].id != id {
      assert ApplyVotes(faqs[1..], id, upvotes) == a[1..];
      FindAfterApply(faqs[1..], id, upvotes);
    }
  }

  /** A user who upvotes an entry and then clicks again ends with the entry's votes as they were. */
  lemma UpvoteTwiceRestores(faqs: seq<Faq>, email: string, id: string)
    requires Find(faqs, id).Some? && email !in Find(faqs, id).value.upvotes
    ensures Upvote(faqs, Some(email), id).Write?
    ensures
      var first := Upvote(faqs, Some(email), id);
      Upvote(ApplyVotes(faqs, id, first.upvotes), Some(email), id)
        == Write("faqs/" + id, Find(faqs, id).value.upvotes)
  {
    var f := Find(faqs, id).value;
    var first := Upvote(faqs, Some(email), id);
    FindAfterApply(faqs, id, first.upvotes);
    ToggleVoteTwice(f.upvotes, email);
  }

  const PendingCategory := "Pending"
  const AskFailedText := "Oops, something went wrong generating your FAQ! 😅 Try again later."

  /** The question box and its busy flag. */
  datatype Ask = Ask(newQuestion: string, generating: bool)

  /** After a submit: the box, the record pushed to the store (if any), and the alert shown (if any). */
  datatype Asked = Asked(after: Ask, pushed: Option<StoredFaq>, alert: Option<string>)

  /** The guard that makes a submit do nothing. */
  predicate Ignored(signedIn: bool, ask: Ask) {
    !signedIn || IsBlank(ask.newQuestion) || ask.generating
  }

  /**
   * `handleSubmitQuestion`. `answer` is the generator's reply: `None` when
   * the request or its JSON failed, `Some("")` when it carried no answer.
   * `stored` is the outcome of the store push: `false` when it rejects, in
   * which case nothing is written and the catch keeps the question.
   */
  function SubmitQuestion(signedIn: bool, ask: Ask, answer: Option<string>, stored: bool): (r: Asked)
    ensures Ignored(signedIn, ask) ==> r == Asked(ask, None, None)
    ensures !Ignored(signedIn, ask) ==> !r.after.generating
    ensures r.pushed.Some? <==> !Ignored(signedIn, ask) && answer.Some? && answer.value != "" && stored
    ensures r.pushed.Some? ==>
      r.pushed.value == StoredFaq(ask.newQuestion, answer.value, PendingCategory, Some([]), Some(true))
      && r.after.newQuestion == "" && r.alert.None?
    ensures !Ignored(signedIn, ask) && r.pushed.None? ==>
      r.after.newQuestion == ask.newQuestion && r.alert == Some(AskFailedText)
  {
    if Ignored(signedIn, ask) then Asked(ask, None, None)
    else
      match answer
      case Some(a) =>
        if a == "" || !stored then Asked(Ask(ask.newQuestion, false), None, Some(AskFailedText))
        else Asked(Ask("", false), Some(StoredFaq(ask.newQuestion, OrElse(a, "Our team will answer soon!"), PendingCategory, Some([]), Some(true))), None)
      case None => Asked(Ask(ask.newQuestion, false), None, Some(AskFailedText))
  }

  /**
   * A stored question comes back through the listener as an AI-answered
   * "Pending" entry with no votes, listed under "All" and under "Pending".
   */
  lemma AskedQuestionListed(signedIn: bool, ask: Ask, answer: string,
                            before: seq<(string, StoredFaq)>, key: string)
    requires !Ignored(signedIn, ask) && answer != ""
    ensures
      var rec := SubmitQuestion(signedIn, ask, Some(answer), true).pushed.value;
      var faqs := Load(Some(before + [(key, rec)]));
      var f := Faq(key, ask.newQuestion, answer, PendingCategory, [], true);
      && faqs[|before|] == f
      && f in Filtered(faqs, AllTab)
      && f in Filtered(faqs, PendingCategory)
      && PendingCategory in Categories(faqs)
  {
    var rec := SubmitQuestion(signedIn, ask, Some(answer), true).pushed.value;
    var faqs := Load(Some(before + [(key, rec)]));
    assert (before + [(key, rec)])[|before|] == (key, rec);
    assert faqs[|before|] in faqs;
  }
}
