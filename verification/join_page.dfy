/**
 * The community sign-up form: three interest checkboxes that start ticked,
 * a one-key toggle, and the submit handler's effect on the form. The
 * server's answer is a parameter: what `fetch` and `res.json()` produced,
 * or the message of the error they threw.
 */
module JoinPage {
  import opened Seqs
  import opened Text
  import opened Prefs
  import JoinRoute

  const StartPrefs := [Pref("devLogs", true), Pref("techNews", true), Pref("communityEvents", true)]

  const FallbackErrorText := "Something went wrong"
  const JoinFailedText := "Join failed 💀"

  datatype Form = Form(email: string, loading: bool, showModal: bool, prefs: seq<Pref>)

  const Initial := Form("", false, false, StartPrefs)

  /** The answer to the request: a response (`res.ok` and `data.error`, "" when absent), or a thrown error's message. */
  datatype Answer = Answered(ok: bool, error: string) | Thrown(message: string)

  /** The form while the request is out, the form after it, and the alert shown, if any. */
  datatype Joined = Joined(during: Form, after: Form, alert: Option<string>)

  /** The form starts with the same interests the server stores by default. */
  lemma StartPrefsAreServerDefaults()
    ensures StartPrefs == JoinRoute.DefaultPrefs
    ensures Initial.prefs == StartPrefs && Initial.email == "" && !Initial.showModal
  {
  }

  /** `handlePreferenceChange`: flips one checkbox and leaves the rest of the form alone. */
  function TogglePreference(f: Form, key: string): (r: Form)
    ensures key in Keys(f.prefs) ==> Keys(r.prefs) == Keys(f.prefs) && Get(r.prefs, key) == Some(!Get(f.prefs, key).value)
    ensures forall k :: k != key ==> Get(r.prefs, k) == Get(f.prefs, k)
    ensures r.email == f.email && r.loading == f.loading && r.showModal == f.showModal
  {
    f.(prefs := Toggle(f.prefs, key))
  }

  /** Clicking a checkbox twice restores the form. */
  lemma TogglePreferenceTwice(f: Form, key: string)
    requires key in Keys(f.prefs)
    ensures TogglePreference(TogglePreference(f, key), key) == f
  {
    ToggleTwice(f.prefs, key);
  }

  /** The body the form posts: its email and its preferences, always present. */
  function RequestBody(f: Form): (b: JoinRoute.JoinBody)
    ensures b.email == f.email && b.preferences == Some(f.prefs)
  {
    JoinRoute.JoinBody(f.email, Some(f.prefs))
  }

  /** The alert for a failed join: the server's error, else a generic text; a thrown message, else "Join failed". */
  function FailureText(answer: Answer): (t: string)
    ensures t != ""
    ensures answer.Answered? && answer.error != "" ==> t == answer.error
    ensures answer.Thrown? && answer.message != "" ==> t == answer.message
    ensures answer.Answered? && answer.error == "" ==> t == FallbackErrorText
    ensures answer.Thrown? && answer.message == "" ==> t == JoinFailedText
  {
    match answer
    case Answered(_, error) => OrElse(OrElse(error, FallbackErrorText), JoinFailedText)
    case Thrown(message) => OrElse(message, JoinFailedText)
  }

  /**
   * `handleJoin`. On success the modal opens, the email is cleared and the
   * interests reset; on failure an alert is shown and the form is kept.
   * Either way loading ends.
   */
  function HandleJoin(f: Form, answer: Answer): (r: Joined)
    ensures r.during == f.(loading := true)
    ensures !r.after.loading
    ensures answer.Answered? && answer.ok ==>
      r.after == Form("", false, true, StartPrefs) && r.alert.None?
    ensures !(answer.Answered? && answer.ok) ==>
      r.after == f.(loading := false) && r.alert == Some(FailureText(answer))
  {
    var during := f.(loading := true);
    if answer.Answered? && answer.ok then Joined(during, Form("", false, true, StartPrefs), None)
    else Joined(during, f.(loading := false), Some(FailureText(answer)))
  }

  /** How the form reads a server reply: `res.ok` is a 2xx status, `data.error` its error text. */
  function Read(reply: JoinRoute.JoinReply): (a: Answer)
    ensures a.Answered? && (a.ok <==> 200 <= reply.status < 300)
    ensures reply.error.Some? ==> a.error == reply.error.value
  {
    Answered(200 <= reply.status < 300, reply.error.GetOr(""))
  }

  /** The form always sends preferences, so the summary defect of the route never shows from it. */
  lemma FormAvoidsMissingPreferences(f: Form, limits: JoinRoute.Limits, header: string, now: int,
                                     joinedAt: string, storeOk: bool, mailOk: bool)
    ensures JoinRoute.PostAsWritten(limits, header, now, Some(RequestBody(f)), joinedAt, storeOk, mailOk)
            == JoinRoute.Post(limits, header, now, Some(RequestBody(f)), joinedAt, storeOk, mailOk)
  {
    JoinRoute.AgreesWhenPreferencesSent(limits, header, now, Some(RequestBody(f)), joinedAt, storeOk, mailOk);
  }

  /** A sign-up the route refuses for the rate limit shows its text and keeps the form as typed. */
  lemma RateLimitedJoinKeepsForm(f: Form, limits: JoinRoute.Limits, header: string, now: int,
                                 joinedAt: string, storeOk: bool, mailOk: bool)
    requires |JoinRoute.Recent(JoinRoute.History(limits, JoinRoute.ClientKey(header)), now)| >= JoinRoute.RateLimit
    ensures
      var reply := JoinRoute.Post(limits, header, now, Some(RequestBody(f)), joinedAt, storeOk, mailOk);
      var r := HandleJoin(f, Read(reply));
      r.alert == Some(JoinRoute.TooManyText) && r.after == f.(loading := false)
  {
  }

  /** A sign-up the route accepts resets the form and opens the modal. */
  lemma AcceptedJoinResetsForm(f: Form, limits: JoinRoute.Limits, header: string, now: int, joinedAt: string)
    requires |JoinRoute.Recent(JoinRoute.History(limits, JoinRoute.ClientKey(header)), now)| < JoinRoute.RateLimit
    requires JoinRoute.ValidEmail(f.email)
    ensures
      var reply := JoinRoute.Post(limits, header, now, Some(RequestBody(f)), joinedAt, true, true);
      var r := HandleJoin(f, Read(reply));
      r.alert.None? && r.after == Form("", false, true, StartPrefs)
  {
  }
}
