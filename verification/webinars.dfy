/**
 * The webinars notification form: three interest checkboxes that start
 * ticked, a one-key toggle, the capitalised checkbox labels, and the submit
 * handler with its email check. The session's email ("" without one) is a
 * parameter; the insert's outcome is not looked at by the handler.
 */
module Webinars {
  import opened Seqs
  import opened Text
  import opened Prefs

  const InvalidEmailText := "Please enter a valid email! 😅"

  const StartPrefs := [Pref("dev", true), Pref("design", true), Pref("career", true)]

  /** The checkboxes, in the order they are drawn. */
  const CheckboxKeys := ["dev", "design", "career"]

  datatype Page = Page(email: string, prefs: seq<Pref>, submitted: bool)

  const Initial := Page("", StartPrefs, false)

  /** The row inserted into the sign-up table. */
  datatype Signup = Signup(email: string, preferences: seq<Pref>)

  /** The page afterwards, the row inserted (if any) and the alert shown (if any). */
  datatype Submitted = Submitted(after: Page, insert: Option<Signup>, alert: Option<string>)

  /** `!email || !email.includes('@')` refuses. */
  predicate Acceptable(email: string) {
    email != "" && '@' in email
  }

  /** Every checkbox drawn has a preference, and all start ticked. */
  lemma CheckboxesStartTicked()
    ensures Keys(StartPrefs) == CheckboxKeys
    ensures forall i :: 0 <= i < |CheckboxKeys| ==> Get(Initial.prefs, CheckboxKeys[i]) == Some(true)
  {
  }

  /** `handleSubmit`. */
  function HandleSubmit(p: Page, sessionEmail: string): (r: Submitted)
    ensures !Acceptable(p.email) ==> r.after == p && r.insert.None? && r.alert == Some(InvalidEmailText)
    ensures Acceptable(p.email) ==> r.alert.None? && r.after == Page("", p.prefs, true)
    ensures Acceptable(p.email) ==> r.insert.Some? && r.insert.value.preferences == p.prefs
    ensures Acceptable(p.email) && sessionEmail != "" ==> r.insert.value.email == sessionEmail
    ensures Acceptable(p.email) && sessionEmail == "" ==> r.insert.value.email == p.email
  {
    if !Acceptable(p.email) then Submitted(p, None, Some(InvalidEmailText))
    else Submitted(Page("", p.prefs, true), Some(Signup(OrElse(sessionEmail, p.email), p.prefs)), None)
  }

  /** Whatever row was inserted, its email contains '@' unless it came from the session. */
  lemma InsertedEmailChecked(p: Page, sessionEmail: string)
    requires sessionEmail == "" || '@' in sessionEmail
    ensures HandleSubmit(p, sessionEmail).insert.Some? ==> '@' in HandleSubmit(p, sessionEmail).insert.value.email
  {
  }

  /**
   * After a sign-up the email box is empty, so calling the handler again only
   * raises the alert. The page itself disables the box and the button once
   * submitted, so this second call cannot come from a click; the lemma states
   * what the handler would do if it were reached.
   */
  lemma SecondSubmitRefused(p: Page, sessionEmail: string, other: string)
    requires Acceptable(p.email)
    ensures
      var once := HandleSubmit(p, sessionEmail).after;
      var twice := HandleSubmit(once, other);
      once.submitted && twice.after == once && twice.insert.None? && twice.alert == Some(InvalidEmailText)
  {
  }

  /** `handlePreferenceChange`: flips one checkbox and leaves the rest of the page alone. */
  function TogglePreference(p: Page, key: string): (r: Page)
    ensures key in Keys(p.prefs) ==> Keys(r.prefs) == Keys(p.prefs) && Get(r.prefs, key) == Some(!Get(p.prefs, key).value)
    ensures forall k :: k != key ==> Get(r.prefs, k) == Get(p.prefs, k)
    ensures r.email == p.email && r.submitted == p.submitted
  {
    p.(prefs := Toggle(p.prefs, key))
  }

  /** Clicking a checkbox twice restores the page. */
  lemma TogglePreferenceTwice(p: Page, key: string)
    requires key in Keys(p.prefs)
    ensures TogglePreference(TogglePreference(p, key), key) == p
  {
    ToggleTwice(p.prefs, key);
  }

  /** `key.charAt(0).toUpperCase() + key.slice(1)`. */
  function Label(key: string): (r: string)
    ensures |r| == |key|
    ensures |key| > 0 ==> r[0] == UpperChar(key[0]) && r[1..] == key[1..]
  {
    if |key| == 0 then "" else [UpperChar(key[0])] + key[1..]
  }

  /** Labelling is idempotent: a label already starts with a capital. */
  lemma LabelIdempotent(key: string)
    ensures Label(Label(key)) == Label(key)
  {
    if |key| > 0 {
      assert Label(key)[1..] == key[1..];
    }
  }

  /** Lower-casing a label of a lower-case key gives the key back. */
  lemma LabelLowerRoundTrip(key: string)
    requires forall i :: 0 <= i < |key| ==> 'a' <= key[i] <= 'z'
    ensures Lower(Label(key)) == key
  {
    var r := Lower(Label(key));
    forall i | 0 <= i < |key| ensures r[i] == key[i] {
      if i > 0 {
        assert Label(key)[i] == key[i];
      }
    }
  }

  /** The three checkboxes read "Dev", "Design" and "Career". */
  lemma CheckboxLabels()
    ensures Label(CheckboxKeys[0]) == "Dev"
    ensures Label(CheckboxKeys[1]) == "Design"
    ensures Label(CheckboxKeys[2]) == "Career"
  {
  }
}
