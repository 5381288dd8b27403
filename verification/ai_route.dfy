/**
 * The skills-advisor endpoint: it lists the catalogue's skill names,
 * categories and tags for the prompt, asks one of two text generators
 * (chosen by the request's `provider`, default "gemini"), strips Markdown
 * code fences from the answer and returns it. Any failure is answered with
 * status 200 and a fixed payload suggesting every catalogue skill.
 *
 * The generators are oracles: `Some(text)` is the text they returned,
 * `None` stands for a thrown error. A `null` chat-completion content is
 * passed as `Some("")`, as the route's `|| ''` turns it into "".
 */
module AiRoute {
  import opened Seqs
  import opened Text
  import opened SkillTypes

  const DefaultProvider := "gemini"
  const FallbackText := "AI request failed. Here are all available skills:"

  /** The skill names, in catalogue order. */
  function SkillNames(catalogue: seq<Skill>): (r: seq<string>)
    ensures |r| == |catalogue|
    ensures forall i :: 0 <= i < |r| ==> r[i] == catalogue[i].name
  {
    seq(|catalogue|, i requires 0 <= i < |catalogue| => catalogue[i].name)
  }

  /** `[...new Set(categories)]`: each catalogue category once. */
  function AllCategories(catalogue: seq<Skill>): (r: seq<string>)
    ensures NoDup(r)
    ensures forall i :: 0 <= i < |catalogue| ==> catalogue[i].category in r
    ensures forall c :: c in r ==> exists i :: 0 <= i < |catalogue| && catalogue[i].category == c
  {
    var cats := seq(|catalogue|, i requires 0 <= i < |catalogue| => catalogue[i].category);
    var r := Distinct(cats);
    assert forall i :: 0 <= i < |catalogue| ==> catalogue[i].category in r by {
      forall i | 0 <= i < |catalogue| ensures catalogue[i].category in r {
        assert cats[i] in cats;
      }
    }
    r
  }

  /** `[...new Set(catalogue.flatMap(s => s.tags))]`: each catalogue tag once. */
  function AllTags(catalogue: seq<Skill>): (r: seq<string>)
    ensures NoDup(r)
    ensures forall t :: t in r <==> exists i :: 0 <= i < |catalogue| && t in catalogue[i].tags
  {
    var tagLists := seq(|catalogue|, i requires 0 <= i < |catalogue| => catalogue[i].tags);
    var r := Distinct(Flatten(tagLists));
    assert forall t :: t in r <==> exists i :: 0 <= i < |catalogue| && t in catalogue[i].tags by {
      forall t ensures t in r <==> exists i :: 0 <= i < |catalogue| && t in catalogue[i].tags {
        if t in r {
          var i :| 0 <= i < |tagLists| && t in tagLists[i];
          assert t in catalogue[i].tags;
        }
        if exists i :: 0 <= i < |catalogue| && t in catalogue[i].tags {
          var i :| 0 <= i < |catalogue| && t in catalogue[i].tags;
          assert t in tagLists[i];
        }
      }
    }
    r
  }

  /** No run of three backticks anywhere in `s`. */
  predicate NoFence(s: string) {
    forall i :: 0 <= i < |s| - 2 ==> !(s[i] == '`' && s[i + 1] == '`' && s[i + 2] == '`')
  }

  /**
   * `s.replace(/```json|```/g, '')`: a left-to-right scan that deletes each
   * "```json" or, failing that, each "```" it meets.
   */
  function StripFences(s: string): (r: string)
    ensures |r| <= |s|
    ensures NoFence(r)
    ensures '`' !in s ==> r == s
    ensures |r| > 0 && r[0] == '`' ==> |s| > 0 && s[0] == '`'
    ensures |r| > 1 && r[0] == '`' && r[1] == '`' ==> |s| > 1 && s[0] == '`' && s[1] == '`'
    decreases |s|
  {
    if |s| == 0 then ""
    else if StartsWith(s, "```json") then
      assert s[0] == s[..7][0];
      StripFences(s[7..])
    else if StartsWith(s, "```") then StripFences(s[3..])
    else
      var rest := StripFences(s[1..]);
      [s[0]] + rest
  }

  /** A substring of fence-free text is fence-free. */
  lemma NoFenceSlice(s: string, i: int, j: int)
    requires NoFence(s) && 0 <= i <= j <= |s|
    ensures NoFence(s[i..j])
  {
    var t := s[i..j];
    forall k | 0 <= k < |t| - 2
      ensures !(t[k] == '`' && t[k + 1] == '`' && t[k + 2] == '`')
    {
      assert t[k] == s[i + k] && t[k + 1] == s[i + k + 1] && t[k + 2] == s[i + k + 2];
    }
  }

  /** The clean-up applied to every generated answer: strip the fences, then trim. */
  function CleanReply(raw: string): (r: string)
    ensures NoFence(r) && IsTrimmed(r)
    ensures '`' !in raw ==> r == Trim(raw)
  {
    var stripped := StripFences(raw);
    var i, j :| 0 <= i <= j <= |stripped| && Trim(stripped) == stripped[i..j]
                && AllWhitespace(stripped[..i]) && AllWhitespace(stripped[j..]);
    NoFenceSlice(stripped, i, j);
    Trim(stripped)
  }

  /** Fence-free text passes through the stripper untouched. */
  lemma {:induction false} StripFenceFree(s: string)
    requires NoFence(s)
    ensures StripFences(s) == s
    decreases |s|
  {
    if |s| > 0 {
      assert !(|s| > 2 && s[0] == '`' && s[1] == '`' && s[2] == '`');
      assert !StartsWith(s, "```");
      assert !StartsWith(s, "```json");
      NoFenceSlice(s, 1, |s|);
      StripFenceFree(s[1..]);
      assert s == [s[0]] + s[1..];
    }
  }

  /** A first character that is not a backtick is kept. */
  lemma StripPlainHead(s: string)
    requires |s| > 0 && s[0] != '`'
    ensures StripFences(s) == [s[0]] + StripFences(s[1..])
  {
    if |s| >= 3 { assert s[..3][0] == s[0]; }
    assert !StartsWith(s, "```");
    if |s| >= 7 { assert s[..7][0] == s[0]; }
    assert !StartsWith(s, "```json");
  }

  /** Text without backticks in front of the rest is kept as it is. */
  lemma {:induction false} StripFencesPlainPrefix(x: string, y: string)
    requires '`' !in x
    ensures StripFences(x + y) == x + StripFences(y)
    decreases |x|
  {
    if |x| > 0 {
      var c, rest := x[0], x[1..];
      assert StripFences(x + y) == [c] + StripFences(rest + y) by {
        var s := x + y;
        assert s[0] == c;
        assert s[1..] == rest + y;
        StripPlainHead(s);
      }
      assert '`' !in rest;
      StripFencesPlainPrefix(rest, y);
      assert x == [c] + rest;
    } else {
      assert x + y == y;
    }
  }

  /** An opening "```json" fence is deleted whole. */
  lemma StripOpeningFence(open: string, y: string)
    requires open == "```json"
    ensures StripFences(open + y) == StripFences(y)
  {
    var s := open + y;
    assert s[..7] == open;
    assert s[7..] == y;
  }

  /** A closing "```" fence at the end is deleted. */
  lemma StripClosingFence(close: string)
    requires close == "```"
    ensures StripFences(close) == ""
  {
    assert close[..3] == close;
    assert !StartsWith(close, "```json");
    assert close[3..] == "";
  }

  /**
   * A reply wrapped in a JSON code fence, with text in front of it: the
   * fences go and the surrounding text and the fenced body are kept.
   */
  lemma StripFencedReply(a: string, b: string)
    requires '`' !in a && '`' !in b
    ensures StripFences(a + "```json" + b + "```") == a + b
  {
    StripFencedBetween(a, b, "```json", "```");
  }

  lemma StripFencedBetween(a: string, b: string, open: string, close: string)
    requires '`' !in a && '`' !in b && open == "```json" && close == "```"
    ensures StripFences(a + open + b + close) == a + b
  {
    var tail := b + close;
    var t := open + tail;
    assert a + open + b + close == a + t;
    StripFencesPlainPrefix(a, t);
    StripOpeningFence(open, tail);
    StripFencesPlainPrefix(b, close);
    StripClosingFence(close);
    assert b + "" == b;
  }

  /** A fenced JSON answer is cleaned to its trimmed body. */
  lemma CleanFencedReply(a: string, b: string)
    requires '`' !in a && '`' !in b
    ensures CleanReply(a + "```json" + b + "```") == Trim(a + b)
  {
    StripFencedReply(a, b);
  }

  /** Cleaning a cleaned answer changes nothing. */
  lemma CleanReplyIdempotent(raw: string)
    ensures CleanReply(CleanReply(raw)) == CleanReply(raw)
  {
    var c := CleanReply(raw);
    StripFenceFree(c);
    TrimOfTrimmed(c);
  }

  /**
   * A request body the route could parse. `provider` is `None` only when the
   * field is absent: the destructuring default does not replace `null`, so a
   * `null` or non-string provider is some `Some` value other than "gemini".
   */
  datatype Request = Request(query: string, provider: Option<string>)

  /** What the route answers with: the cleaned generated text, or the fallback JSON payload. */
  datatype Body = Generated(text: string) | Suggestions(response: string, suggestedSkills: seq<string>)

  datatype Response = Response(status: int, body: Body)

  /** The destructuring default: an absent provider means "gemini". */
  function ProviderOf(req: Request): string {
    req.provider.GetOr(DefaultProvider)
  }

  /** The catch-all answer: the apology text and every catalogue skill name. */
  function Fallback(catalogue: seq<Skill>): Response {
    Response(200, Suggestions(FallbackText, SkillNames(catalogue)))
  }

  /**
   * The route handler. `req` is `None` when the body was not JSON; `gemini`
   * and `openai` are what each generator would return. The provider picks
   * which one is consulted; a failure of the consulted one gives the fallback.
   */
  function Respond(catalogue: seq<Skill>, req: Option<Request>,
                   gemini: Option<string>, openai: Option<string>): (r: Response)
    ensures r.status == 200
    ensures r.body.Generated? ==> NoFence(r.body.text) && IsTrimmed(r.body.text)
    ensures r.body.Suggestions? ==> r == Fallback(catalogue)
    ensures req.None? ==> r == Fallback(catalogue)
    ensures req.Some? ==>
      var used := if ProviderOf(req.value) == DefaultProvider then gemini else openai;
      (used.None? <==> r.body.Suggestions?)
      && (used.Some? ==> r.body == Generated(CleanReply(used.value)))
  {
    match req
    case None => Fallback(catalogue)
    case Some(q) =>
      var used := if ProviderOf(q) == DefaultProvider then gemini else openai;
      match used
      case None => Fallback(catalogue)
      case Some(text) => Response(200, Generated(CleanReply(text)))
  }

  /** Without a provider field the route never consults the second generator. */
  lemma DefaultProviderIgnoresOpenAi(catalogue: seq<Skill>, query: string,
                                     gemini: Option<string>, o1: Option<string>, o2: Option<string>)
    ensures Respond(catalogue, Some(Request(query, None)), gemini, o1)
            == Respond(catalogue, Some(Request(query, None)), gemini, o2)
  {
  }

  /** The fallback payload lists exactly the catalogue's skill names, in order. */
  lemma FallbackListsCatalogue()
    ensures Fallback(Catalogue).body.suggestedSkills
            == ["React.js", "Figma", "Docker", "Python for Data Science", "Flutter",
                "Agile Project Management", "Node.js", "Vue.js", "AI"]
  {
  }
}
