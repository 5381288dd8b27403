/**
 * The community sign-up endpoint: a per-client sliding-window rate limiter,
 * an email check, the subscriber record written under a sanitised key, and
 * the welcome mail's greeting and interest summary.
 *
 * The limiter's map, the clock, the parsed body and the outcomes of the
 * store write and the mail hand-off are parameters; the new map is part of
 * the result. A missing email or header is "".
 */
module JoinRoute {
  import opened Seqs
  import opened Text
  import opened Prefs

  const RateLimit := 5
  const Window := 60000

  const TooManyText := "Too many requests, try again later!"
  const InvalidEmailText := "Invalid email"
  const ServerErrorText := "Server error"

  /** Request timestamps per client key. */
  type Limits = map<string, seq<int>>

  /** `x-forwarded-for || 'unknown'`. */
  function ClientKey(header: string): (k: string)
    ensures k != ""
    ensures header != "" ==> k == header
  {
    OrElse(header, "unknown")
  }

  function History(limits: Limits, key: string): seq<int> {
    if key in limits then limits[key] else []
  }

  predicate IsRecent(now: int, t: int) {
    now - t < Window
  }

  function StillRecent(now: int): int -> bool {
    t => IsRecent(now, t)
  }

  /** The timestamps still inside the window, in order. */
  function Recent(history: seq<int>, now: int): (r: seq<int>)
    ensures forall t :: t in r <==> t in history && IsRecent(now, t)
    ensures Subseq(r, history)
  {
    var keep := StillRecent(now);
    FilterIsSubseq(history, keep);
    assert forall t :: t in Filter(history, keep) <==> t in history && keep(t) by {
      forall t ensures t in Filter(history, keep) <==> t in history && keep(t) {
        FilterMembership(history, keep, t);
      }
    }
    Filter(history, keep)
  }

  /** The limiter's verdict and its map afterwards. */
  datatype Gate = Gate(admitted: bool, limits: Limits)

  /**
   * Five or more recent requests refuse this one and leave the map alone;
   * otherwise the client's history becomes its recent requests plus `now`.
   */
  function Admit(limits: Limits, key: string, now: int): (g: Gate)
    ensures g.admitted <==> |Recent(History(limits, key), now)| < RateLimit
    ensures !g.admitted ==> g.limits == limits
    ensures g.admitted ==> g.limits == limits[key := Recent(History(limits, key), now) + [now]]
    ensures g.admitted ==> |g.limits[key]| <= RateLimit && now in g.limits[key]
  {
    var recent := Recent(History(limits, key), now);
    if |recent| >= RateLimit then Gate(false, limits)
    else Gate(true, limits[key := recent + [now]])
  }

  /** Every stored history holds at most five timestamps. */
  predicate Bounded(limits: Limits) {
    forall k :: k in limits ==> |limits[k]| <= RateLimit
  }

  /** The limiter keeps every history at five entries or fewer. */
  lemma AdmitKeepsBound(limits: Limits, key: string, now: int)
    requires Bounded(limits)
    ensures Bounded(Admit(limits, key, now).limits)
  {
  }

  /** A client's other histories are untouched by its request. */
  lemma AdmitTouchesOneKey(limits: Limits, key: string, other: string, now: int)
    requires other != key
    ensures History(Admit(limits, key, now).limits, other) == History(limits, other)
  {
  }

  /** A client whose whole history is recent and short of the limit is let in, and `now` appended. */
  lemma AdmitFresh(limits: Limits, key: string, now: int)
    requires |History(limits, key)| < RateLimit
    requires forall i :: 0 <= i < |History(limits, key)| ==> IsRecent(now, History(limits, key)[i])
    ensures Admit(limits, key, now) == Gate(true, limits[key := History(limits, key) + [now]])
  {
    FilterAll(History(limits, key), StillRecent(now));
  }

  /** A first request on an empty map. */
  lemma AdmitFirst(key: string, now: int)
    ensures Admit(map[], key, now).limits == map[key := [now]]
  {
    var empty: Limits := map[];
    AdmitFresh(empty, key, now);
    assert History(empty, key) + [now] == [now];
  }

  /** One more recent request from a client holding the only entry of the map. */
  lemma AdmitOnly(key: string, h: seq<int>, now: int)
    requires |h| < RateLimit
    requires forall i :: 0 <= i < |h| ==> IsRecent(now, h[i])
    ensures Admit(map[key := h], key, now).limits == map[key := h + [now]]
  {
    AdmitFresh(map[key := h], key, now);
  }

  /** Requests from one client at the given times, one after another. */
  function Replay(limits: Limits, key: string, times: seq<int>): Limits
    decreases |times|
  {
    if |times| == 0 then limits
    else Admit(Replay(limits, key, times[..|times| - 1]), key, times[|times| - 1]).limits
  }

  /** However many requests arrive, every history stays at five entries or fewer. */
  lemma {:induction false} ReplayKeepsBound(limits: Limits, key: string, times: seq<int>)
    requires Bounded(limits)
    ensures Bounded(Replay(limits, key, times))
    decreases |times|
  {
    if |times| > 0 {
      ReplayKeepsBound(limits, key, times[..|times| - 1]);
      AdmitKeepsBound(Replay(limits, key, times[..|times| - 1]), key, times[|times| - 1]);
    }
  }

  lemma ReplayOne(key: string, now: int)
    ensures Replay(map[], key, [now]) == map[key := [now]]
  {
    var empty: Limits := map[];
    assert [now][..0] == [];
    assert Replay(empty, key, []) == empty;
    AdmitFirst(key, now);
  }

  lemma ReplayStep(key: string, prefix: seq<int>, now: int)
    requires |prefix| < RateLimit
    requires forall i :: 0 <= i < |prefix| ==> IsRecent(now, prefix[i])
    requires Replay(map[], key, prefix) == map[key := prefix]
    ensures Replay(map[], key, prefix + [now]) == map[key := prefix + [now]]
  {
    var times := prefix + [now];
    assert times[..|times| - 1] == prefix && times[|times| - 1] == now;
    AdmitOnly(key, prefix, now);
  }

  /** Times that fit in one window still do without their last entry, which is recent for all of them. */
  lemma WindowPrefix(times: seq<int>)
    requires |times| > 1
    requires forall i, j :: 0 <= i < j < |times| ==> IsRecent(times[j], times[i])
    ensures var prefix := times[..|times| - 1];
      && (forall i, j :: 0 <= i < j < |prefix| ==> IsRecent(prefix[j], prefix[i]))
      && (forall i :: 0 <= i < |prefix| ==> IsRecent(times[|times| - 1], prefix[i]))
  {
  }

  /**
   * Up to five requests that all fall inside one window are all let in, and
   * the client's history is exactly their times.
   */
  lemma {:induction false} ReplayWithinWindow(key: string, times: seq<int>)
    requires 0 < |times| <= RateLimit
    requires forall i, j :: 0 <= i < j < |times| ==> IsRecent(times[j], times[i])
    ensures Replay(map[], key, times) == map[key := times]
    decreases |times|
  {
    if |times| == 1 {
      ReplayOne(key, times[0]);
      assert [times[0]] == times;
    } else {
      var prefix, now := times[..|times| - 1], times[|times| - 1];
      assert times == prefix + [now];
      WindowPrefix(times);
      ReplayWithinWindow(key, prefix);
      ReplayStep(key, prefix, now);
    }
  }

  /** A client with five requests inside the window is refused. */
  lemma FullWindowRefuses(limits: Limits, key: string, now: int)
    requires |History(limits, key)| >= RateLimit
    requires forall i :: 0 <= i < |History(limits, key)| ==> IsRecent(now, History(limits, key)[i])
    ensures !Admit(limits, key, now).admitted
  {
    FilterAll(History(limits, key), StillRecent(now));
  }

  /** A client with at most five requests, one of them older than the window, is let in. */
  lemma WindowSlides(limits: Limits, key: string, now: int)
    requires |History(limits, key)| <= RateLimit
    requires exists t :: t in History(limits, key) && !IsRecent(now, t)
    ensures Admit(limits, key, now).admitted
  {
    FilterShorter(History(limits, key), StillRecent(now));
  }

  /**
   * Five requests that fit inside one minute are all let in; a sixth at or
   * after the fifth is refused exactly when it comes less than a minute
   * after the first.
   */
  lemma SixthRequestRefused(key: string, times: seq<int>, now: int)
    requires |times| == RateLimit
    requires forall i, j :: 0 <= i < j < |times| ==> times[i] <= times[j]
    requires IsRecent(times[|times| - 1], times[0])
    requires times[|times| - 1] <= now
    ensures Replay(map[], key, times) == map[key := times]
    ensures !Admit(Replay(map[], key, times), key, now).admitted <==> IsRecent(now, times[0])
  {
    ReplayWithinWindow(key, times);
    var l := map[key := times];
    assert History(l, key) == times;
    if IsRecent(now, times[0]) {
      FullWindowRefuses(l, key, now);
    } else {
      WindowSlides(l, key, now);
    }
  }

  /** `!email || !email.includes('@')` rejects. */
  predicate ValidEmail(email: string) {
    email != "" && '@' in email
  }

  /** `subscribers/<email with every '.' replaced by '_'>`. */
  function SubscriberPath(email: string): (p: string)
    ensures '.' !in p
    ensures StartsWith(p, "subscribers/") && |p| == 12 + |email|
    ensures forall i :: 0 <= i < |email| && email[i] != '.' ==> p[12 + i] == email[i]
    ensures forall i :: 0 <= i < |email| && email[i] == '.' ==> p[12 + i] == '_'
  {
    "subscribers/" + ReplaceDots(email)
  }

  const DefaultPrefs := [Pref("devLogs", true), Pref("techNews", true), Pref("communityEvents", true)]

  datatype Subscriber = Subscriber(email: string, preferences: seq<Pref>, joinedAt: string)

  /** The welcome mail's variable parts: recipient, greeting name, and interest summary. */
  datatype Welcome = Welcome(to: string, name: string, interests: string)

  predicate IsLowerAscii(c: char) { 'a' <= c <= 'z' }
  predicate IsUpperAscii(c: char) { 'A' <= c <= 'Z' }

  /** `s.replace(/([a-z])([A-Z])/g, '$1 $2')`: a space between a lower-case letter and a following capital. */
  function SpaceCamel(s: string): (r: string)
    ensures |r| >= |s|
    ensures |s| > 0 ==> |r| > 0 && r[0] == s[0]
    decreases |s|
  {
    if |s| == 0 then ""
    else if |s| >= 2 && IsLowerAscii(s[0]) && IsUpperAscii(s[1]) then [s[0], ' ', s[1]] + SpaceCamel(s[2..])
    else [s[0]] + SpaceCamel(s[1..])
  }

  /** No lower-case letter directly before a capital. */
  predicate Separated(r: string) {
    forall i :: 0 <= i < |r| - 1 ==> !(IsLowerAscii(r[i]) && IsUpperAscii(r[i + 1]))
  }

  /** No lower-case letter is left directly before a capital. */
  lemma {:induction false} SpaceCamelSeparates(s: string)
    ensures Separated(SpaceCamel(s))
    decreases |s|
  {
    var r := SpaceCamel(s);
    if |s| > 0 {
      if |s| >= 2 && IsLowerAscii(s[0]) && IsUpperAscii(s[1]) {
        var rest := SpaceCamel(s[2..]);
        SpaceCamelSeparates(s[2..]);
        assert r == [s[0], ' ', s[1]] + rest;
        assert r[0] == s[0] && r[1] == ' ' && r[2] == s[1];
        forall i | 0 <= i < |r| - 1 ensures !(IsLowerAscii(r[i]) && IsUpperAscii(r[i + 1])) {
          if i >= 3 {
            assert r[i] == rest[i - 3] && r[i + 1] == rest[i - 2];
            assert !(IsLowerAscii(rest[i - 3]) && IsUpperAscii(rest[i - 3 + 1]));
          } else if i == 2 {
            assert r[i] == s[1];
            assert !IsLowerAscii(s[1]);
          } else {
            assert !IsUpperAscii(' ');
          }
        }
      } else {
        var rest := SpaceCamel(s[1..]);
        SpaceCamelSeparates(s[1..]);
        assert r == [s[0]] + rest;
        forall i | 0 <= i < |r| - 1 ensures !(IsLowerAscii(r[i]) && IsUpperAscii(r[i + 1])) {
          if i >= 1 {
            assert r[i] == rest[i - 1] && r[i + 1] == rest[i];
            assert !(IsLowerAscii(rest[i - 1]) && IsUpperAscii(rest[i - 1 + 1]));
          } else if |s| >= 2 {
            assert s[1..][0] == s[1];
            assert r[0] == s[0] && r[1] == rest[0] == s[1];
          }
        }
      }
    }
  }

  /** Taking out spaces undoes `SpaceCamel`: it only ever inserts spaces. */
  function NoSpaces(s: string): string {
    Filter(s, (c: char) => c != ' ')
  }

  lemma NoSpacesAppend(a: string, b: string)
    ensures NoSpaces(a + b) == NoSpaces(a) + NoSpaces(b)
  {
    FilterAppend(a, b, (c: char) => c != ' ');
  }

  lemma NoSpacesCons(c: char, t: string)
    ensures NoSpaces([c] + t) == (if c != ' ' then [c] else []) + NoSpaces(t)
  {
    assert ([c] + t)[0] == c && ([c] + t)[1..] == t;
  }

  lemma NoSpacesPair(x: char, y: char)
    requires x != ' ' && y != ' '
    ensures NoSpaces([x, ' ', y]) == [x, y] && NoSpaces([x, y]) == [x, y]
  {
    NoSpacesCons(y, []);
    NoSpacesCons(' ', [y]);
    NoSpacesCons(x, [' ', y]);
    NoSpacesCons(x, [y]);
    assert [x, ' ', y] == [x] + [' ', y] && [' ', y] == [' '] + [y] && [y] == [y] + [];
    assert [x, y] == [x] + [y];
  }

  lemma {:induction false} SpaceCamelOnlyInsertsSpaces(s: string)
    ensures NoSpaces(SpaceCamel(s)) == NoSpaces(s)
    decreases |s|
  {
    if |s| > 0 {
      if |s| >= 2 && IsLowerAscii(s[0]) && IsUpperAscii(s[1]) {
        var head, rest := [s[0], s[1]], s[2..];
        assert SpaceCamel(s) == [s[0], ' ', s[1]] + SpaceCamel(rest);
        assert s == head + rest;
        SpaceCamelOnlyInsertsSpaces(rest);
        NoSpacesAppend([s[0], ' ', s[1]], SpaceCamel(rest));
        NoSpacesAppend(head, rest);
        NoSpacesPair(s[0], s[1]);
      } else {
        var head, rest := [s[0]], s[1..];
        assert SpaceCamel(s) == head + SpaceCamel(rest);
        assert s == head + rest;
        SpaceCamelOnlyInsertsSpaces(rest);
        NoSpacesAppend(head, SpaceCamel(rest));
        NoSpacesAppend(head, rest);
      }
    }
  }

  /** The interests line: the keys switched on, joined by ", ", camel case spaced, lower-cased. */
  function Interests(prefs: seq<Pref>): (r: string)
    ensures forall i :: 0 <= i < |r| ==> !IsUpperAscii(r[i])
    ensures |r| >= |Join(TrueKeys(prefs), ", ")|
  {
    Lower(SpaceCamel(Join(TrueKeys(prefs), ", ")))
  }

  /** After a character that is not a lower-case letter, the scan starts afresh. */
  lemma {:induction false} SpaceCamelAppend(a: string, b: string)
    requires |a| > 0 && !IsLowerAscii(a[|a| - 1])
    ensures SpaceCamel(a + b) == SpaceCamel(a) + SpaceCamel(b)
    decreases |a|
  {
    var ab := a + b;
    assert ab[0] == a[0];
    if |a| == 1 {
      assert ab[1..] == b;
      assert SpaceCamel(ab) == [a[0]] + SpaceCamel(b);
      assert SpaceCamel(a) == [a[0]] + SpaceCamel([]);
    } else if IsLowerAscii(a[0]) && IsUpperAscii(a[1]) {
      assert ab[1] == a[1];
      var tail := a[2..];
      assert ab[2..] == tail + b;
      assert SpaceCamel(ab) == [a[0], ' ', a[1]] + SpaceCamel(tail + b);
      assert SpaceCamel(a) == [a[0], ' ', a[1]] + SpaceCamel(tail);
      if |a| == 2 {
        assert tail == [] && tail + b == b;
      } else {
        SpaceCamelAppend(tail, b);
      }
    } else {
      assert ab[1] == a[1];
      var tail := a[1..];
      assert ab[1..] == tail + b;
      assert SpaceCamel(ab) == [a[0]] + SpaceCamel(tail + b);
      assert SpaceCamel(a) == [a[0]] + SpaceCamel(tail);
      SpaceCamelAppend(tail, b);
    }
  }

  lemma KeysThree(x: Pref, y: Pref, z: Pref)
    ensures Keys([x, y, z]) == [x.key, y.key, z.key]
  {
    KeysCons(x, [y, z]);
    KeysCons(y, [z]);
    KeysCons(z, []);
    assert [x, y, z] == [x] + ([y] + ([z] + []));
  }

  lemma DefaultKeys()
    ensures TrueKeys(DefaultPrefs) == ["devLogs", "techNews", "communityEvents"]
  {
    TrueKeysAllOn(DefaultPrefs);
    KeysThree(DefaultPrefs[0], DefaultPrefs[1], DefaultPrefs[2]);
  }

  lemma JoinThree(x: string, y: string, z: string)
    ensures Join([x, y, z], ", ") == x + ", " + y + ", " + z
  {
    assert [x, y, z][1..] == [y, z];
    assert [y, z][1..] == [z];
    assert Join([z], ", ") == z;
    assert Join([y, z], ", ") == y + ", " + z;
    assert x + ", " + (y + ", " + z) == x + ", " + y + ", " + z;
  }

  lemma DefaultKeysJoined()
    ensures Join(TrueKeys(DefaultPrefs), ", ") == "devLogs, " + "techNews, " + "communityEvents"
  {
    DefaultKeys();
    JoinThree("devLogs", "techNews", "communityEvents");
  }

  /** Text without capitals is left as it is. */
  lemma {:induction false} SpaceCamelNoCapitals(s: string)
    requires forall i :: 0 <= i < |s| ==> !IsUpperAscii(s[i])
    ensures SpaceCamel(s) == s
    decreases |s|
  {
    if |s| > 0 {
      SpaceCamelNoCapitals(s[1..]);
    }
  }

  /** A lower-case word followed by a capital gets one space before the capital. */
  lemma {:induction false} SpaceCamelWordCapital(w: string, u: char, t: string)
    requires |w| > 0 && (forall i :: 0 <= i < |w| ==> IsLowerAscii(w[i])) && IsUpperAscii(u)
    ensures SpaceCamel(w + [u] + t) == w + [' ', u] + SpaceCamel(t)
    decreases |w|
  {
    var s := w + [u] + t;
    if |w| == 1 {
      assert s[2..] == t;
    } else {
      assert s[1..] == w[1..] + [u] + t;
      SpaceCamelWordCapital(w[1..], u, t);
      assert w + [' ', u] + SpaceCamel(t) == [w[0]] + (w[1..] + [' ', u] + SpaceCamel(t));
    }
  }

  lemma SpacedDevLogs(w: string, t: string, s: string)
    requires w == "dev" && t == "ogs, " && s == w + ['L'] + t
    ensures SpaceCamel(s) == "dev Logs, "
  {
    SpaceCamelNoCapitals(t);
    SpaceCamelWordCapital(w, 'L', t);
  }

  lemma SpacedTechNews(w: string, t: string, s: string)
    requires w == "tech" && t == "ews, " && s == w + ['N'] + t
    ensures SpaceCamel(s) == "tech News, "
  {
    SpaceCamelNoCapitals(t);
    SpaceCamelWordCapital(w, 'N', t);
  }

  lemma SpacedCommunityEvents(w: string, t: string, s: string)
    requires w == "community" && t == "vents" && s == w + ['E'] + t
    ensures SpaceCamel(s) == "community Events"
  {
    SpaceCamelNoCapitals(t);
    SpaceCamelWordCapital(w, 'E', t);
  }

  lemma LowerAppend(a: string, b: string)
    ensures Lower(a + b) == Lower(a) + Lower(b)
  {
  }

  lemma LowerDevLogs(s: string)
    requires s == "dev Logs, "
    ensures Lower(s) == "dev logs, "
  {
  }

  lemma LowerTechNews(s: string)
    requires s == "tech News, "
    ensures Lower(s) == "tech news, "
  {
  }

  lemma LowerCommunityEvents(s: string)
    requires s == "community Events"
    ensures Lower(s) == "community events"
  {
  }

  lemma {:induction false} SpaceCamelThree(a: string, b: string, c: string)
    requires |a| > 0 && !IsLowerAscii(a[|a| - 1])
    requires |b| > 0 && !IsLowerAscii(b[|b| - 1])
    ensures SpaceCamel(a + b + c) == SpaceCamel(a) + SpaceCamel(b) + SpaceCamel(c)
  {
    SpaceCamelAppend(b, c);
    SpaceCamelAppend(a, b + c);
    assert a + b + c == a + (b + c);
  }

  lemma {:induction false} SpacedSummary(a: string, b: string, c: string)
    requires a == "devLogs, " && b == "techNews, " && c == "communityEvents"
    ensures SpaceCamel(a + b + c) == "dev Logs, " + "tech News, " + "community Events"
  {
    SpaceCamelThree(a, b, c);
    SpacedDevLogs("dev", "ogs, ", a);
    SpacedTechNews("tech", "ews, ", b);
    SpacedCommunityEvents("community", "vents", c);
  }

  lemma LoweredSummary()
    ensures Lower("dev Logs, " + "tech News, " + "community Events") == "dev logs, " + "tech news, " + "community events"
  {
    LowerAppend("dev Logs, " + "tech News, ", "community Events");
    LowerAppend("dev Logs, ", "tech News, ");
    LowerDevLogs("dev Logs, ");
    LowerTechNews("tech News, ");
    LowerCommunityEvents("community Events");
  }

  /** With every default interest switched on, the mail names all three in plain words. */
  lemma DefaultInterests()
    ensures Interests(DefaultPrefs) == "dev logs, " + "tech news, " + "community events"
  {
    DefaultKeysJoined();
    SpacedSummary("devLogs, ", "techNews, ", "communityEvents");
    LoweredSummary();
  }

  /**
   * The handler's result: status, error text (if any), the limiter map, the
   * stored record and the mail handed to the mail service.
   */
  datatype JoinReply = JoinReply(
    status: int,
    error: Option<string>,
    limits: Limits,
    stored: Option<(string, Subscriber)>,
    mail: Option<Welcome>)

  /** A parsed body; `preferences` is `None` when the request has none. */
  datatype JoinBody = JoinBody(email: string, preferences: Option<seq<Pref>>)

  /**
   * The route as written. The summary reads the request's own `preferences`,
   * not the defaulted ones that were stored, so a request without
   * preferences fails after the subscriber was stored, and no mail goes out.
   */
  function PostAsWritten(limits: Limits, header: string, now: int, body: Option<JoinBody>,
                         joinedAt: string, storeOk: bool, mailOk: bool): (r: JoinReply)
    ensures r.status == 200 ==> body.Some? && body.value.preferences.Some?
    ensures r.status == 200 ==> r.stored.Some? && r.mail.Some?
  {
    var key := ClientKey(header);
    var gate := Admit(limits, key, now);
    if !gate.admitted then JoinReply(429, Some(TooManyText), limits, None, None)
    else
      match body
      case None => JoinReply(500, Some(ServerErrorText), gate.limits, None, None)
      case Some(b) =>
        if !ValidEmail(b.email) then JoinReply(400, Some(InvalidEmailText), gate.limits, None, None)
        else if !storeOk then JoinReply(500, Some(ServerErrorText), gate.limits, None, None)
        else
          var record := (SubscriberPath(b.email), Subscriber(b.email, b.preferences.GetOr(DefaultPrefs), joinedAt));
          match b.preferences
          case None => JoinReply(500, Some(ServerErrorText), gate.limits, Some(record), None)
          case Some(prefs) =>
            var mail := Welcome(b.email, BeforeFirst(b.email, '@'), Interests(prefs));
            if mailOk then JoinReply(200, None, gate.limits, Some(record), Some(mail))
            else JoinReply(500, Some(ServerErrorText), gate.limits, Some(record), Some(mail))
  }

  /**
   * A request with only an email, once the limiter lets it in and the store
   * write succeeds, is stored and then answered 500 without a welcome mail,
   * whatever the mail service would have done.
   */
  lemma MissingPreferencesFailsAfterStoring(limits: Limits, header: string, now: int,
                                            email: string, joinedAt: string, mailOk: bool)
    requires Admit(limits, ClientKey(header), now).admitted
    requires ValidEmail(email)
    ensures
      var r := PostAsWritten(limits, header, now, Some(JoinBody(email, None)), joinedAt, true, mailOk);
      r.status == 500 && r.mail.None?
      && r.stored == Some((SubscriberPath(email), Subscriber(email, DefaultPrefs, joinedAt)))
  {
  }

  /**
   * The route with the summary built from the preferences it stored: a
   * request without preferences is welcomed with the defaults.
   */
  function Post(limits: Limits, header: string, now: int, body: Option<JoinBody>,
                joinedAt: string, storeOk: bool, mailOk: bool): (r: JoinReply)
    ensures var recent := Recent(History(limits, ClientKey(header)), now);
      && (r.status == 429 <==> |recent| >= RateLimit)
      && (r.status == 429 ==> r.limits == limits && r.stored.None? && r.mail.None?)
      && (r.status != 429 ==> r.limits == limits[ClientKey(header) := recent + [now]])
    ensures r.status == 400 <==> r.status != 429 && body.Some? && !ValidEmail(body.value.email)
    ensures r.status == 400 ==> r.error == Some(InvalidEmailText) && r.stored.None? && r.mail.None?
    ensures r.status == 429 ==> r.error == Some(TooManyText)
    ensures r.status == 200 <==>
      r.status != 429 && body.Some? && ValidEmail(body.value.email) && storeOk && mailOk
    ensures r.status == 200 ==>
      var b := body.value;
      var prefs := b.preferences.GetOr(DefaultPrefs);
      && r.error.None?
      && r.stored == Some((SubscriberPath(b.email), Subscriber(b.email, prefs, joinedAt)))
      && r.mail == Some(Welcome(b.email, BeforeFirst(b.email, '@'), Interests(prefs)))
    ensures r.status == 500 ==>
      && r.error == Some(ServerErrorText)
      && (r.stored.Some? <==> body.Some? && ValidEmail(body.value.email) && storeOk)
      && (r.stored.Some? ==> !mailOk && r.stored == Some((SubscriberPath(body.value.email),
            Subscriber(body.value.email, body.value.preferences.GetOr(DefaultPrefs), joinedAt))))
    ensures r.status in {200, 400, 429, 500}
    ensures Bounded(limits) ==> Bounded(r.limits)
  {
    var key := ClientKey(header);
    var gate := Admit(limits, key, now);
    if !gate.admitted then JoinReply(429, Some(TooManyText), limits, None, None)
    else
      match body
      case None => JoinReply(500, Some(ServerErrorText), gate.limits, None, None)
      case Some(b) =>
        if !ValidEmail(b.email) then JoinReply(400, Some(InvalidEmailText), gate.limits, None, None)
        else if !storeOk then JoinReply(500, Some(ServerErrorText), gate.limits, None, None)
        else
          var prefs := b.preferences.GetOr(DefaultPrefs);
          var record := (SubscriberPath(b.email), Subscriber(b.email, prefs, joinedAt));
          var mail := Welcome(b.email, BeforeFirst(b.email, '@'), Interests(prefs));
          if mailOk then JoinReply(200, None, gate.limits, Some(record), Some(mail))
          else JoinReply(500, Some(ServerErrorText), gate.limits, Some(record), Some(mail))
  }

  /** A mail failure leaves the subscriber stored and answers with the server error. */
  lemma MailFailureKeepsSubscriber(limits: Limits, header: string, now: int, b: JoinBody, joinedAt: string)
    requires Admit(limits, ClientKey(header), now).admitted && ValidEmail(b.email)
    ensures
      var r := Post(limits, header, now, Some(b), joinedAt, true, false);
      && r.status == 500 && r.error == Some(ServerErrorText)
      && r.stored == Some((SubscriberPath(b.email), Subscriber(b.email, b.preferences.GetOr(DefaultPrefs), joinedAt)))
  {
  }

  /** Both versions agree whenever the request carries preferences. */
  lemma AgreesWhenPreferencesSent(limits: Limits, header: string, now: int, body: Option<JoinBody>,
                                  joinedAt: string, storeOk: bool, mailOk: bool)
    requires body.Some? ==> body.value.preferences.Some?
    ensures PostAsWritten(limits, header, now, body, joinedAt, storeOk, mailOk)
            == Post(limits, header, now, body, joinedAt, storeOk, mailOk)
  {
  }

  /** With the correction, a request with only an email is welcomed with all three default interests. */
  lemma MissingPreferencesWelcomed(limits: Limits, header: string, now: int, email: string, joinedAt: string)
    requires Admit(limits, ClientKey(header), now).admitted
    requires ValidEmail(email)
    ensures
      var r := Post(limits, header, now, Some(JoinBody(email, None)), joinedAt, true, true);
      r.status == 200
      && r.mail == Some(Welcome(email, BeforeFirst(email, '@'), "dev logs, " + "tech news, " + "community events"))
  {
    DefaultInterests();
  }

  /** The limiter runs first: a request with a bad email still uses up quota. */
  lemma InvalidEmailUsesQuota(limits: Limits, header: string, now: int, email: string,
                              joinedAt: string, storeOk: bool, mailOk: bool)
    requires !ValidEmail(email)
    requires |Recent(History(limits, ClientKey(header)), now)| < RateLimit
    ensures
      var r := Post(limits, header, now, Some(JoinBody(email, None)), joinedAt, storeOk, mailOk);
      r.status == 400 && History(r.limits, ClientKey(header)) == Recent(History(limits, ClientKey(header)), now) + [now]
  {
  }
}
