# SkillsConnect core rules in Dafny

SkillsConnect is a Next.js site where people share and discover skills. Most
of it is rendering, animation and vendor calls. Spread through its pages and
API routes is a set of small sequential rules, and this project states them
as pure functions over immutable data and proves properties of them:

- the skill catalogue and its record type (`SkillTypes`);
- the dashboard's add, edit and delete, with comma-separated tag parsing and
  default filling (`Dashboard`);
- the skills page's text search, category filter and AI-suggestion filter
  (`SkillSearch`);
- the advisor endpoint's distinct category and tag lists, code-fence
  stripping and catch-all fallback (`AiRoute`);
- the blog, FAQ and insights lists, with their category tabs and filters
  (`Blog`, `Faq`, `Insights`, sharing `Listing`);
- the typing endpoint's conversation key and store path (`TypingRoute`);
- the assistant widget's chat path and send transition (`Bot`);
- the chat endpoint's retry loop with exponential backoff (`SkillsBot`);
- the sign-up endpoint's sliding-window rate limiter, email check, storage
  key and welcome-mail summary (`JoinRoute`);
- the sign-up and webinar forms' preference toggles and submit handlers
  (`JoinPage`, `Webinars`, sharing `Prefs`).

There are also two helper modules:

- `Seqs` holds `Option`, filtering, subsequences, de-duplication in
  first-appearance order and flattening.
- `Text` holds the JavaScript string operations the code uses: `trim`,
  `toLowerCase`, `includes`, `split`, `join` and `replace(/\./g, '_')`. It
  also has the string comparison behind `sort()` and decimal formatting.

Everything outside the model is passed in as a parameter:

- clock readings;
- the session;
- store snapshots;
- the answers of text generators, news feeds and mail or store writes.

An absent, `null` or empty string field is modelled as `""` wherever the code
only tests it with `||` or `!`. The advisor endpoint's `provider` is the one
exception: its destructuring default replaces only an absent field, so the
model's `None` is an absent provider, and a `null` or non-string provider is
some `Some` value other than "gemini".

## Model

| member | source | states |
|---|---|---|
| SkillTypes.ParseLevel | types/skills.ts:1 | a text is a level exactly when it is one of the four level names |
| SkillTypes.LevelNameRoundTrip | types/skills.ts:1 | level names and the four levels are in one-to-one correspondence |
| SkillTypes.SkillCategoriesDistinct | types/skills.ts:20-28 | the advertised category list has seven pairwise distinct names |
| SkillTypes.CatalogueIdsDistinct | types/skills.ts:32-177 | the catalogue has nine entries with pairwise distinct ids, which id-based edit and delete rely on |
| SkillTypes.CatalogueWellFormed | types/skills.ts:9-17 | every catalogue entry has a non-empty tag list and a contributor with id, name, avatar and role |
| SkillTypes.CategoryIsFreeText | types/skills.ts:161-176 | the `ai-1` entry's category "AI" is outside the advertised category list, so a skill's category is free text |
| SkillTypes.Ids | types/skills.ts:32-177 | the ids of a skill list, position by position |
| Dashboard.ParseTags | app/dashboard/page.tsx:83 | every parsed tag is non-empty, trimmed and comma-free, and there are no more tags than comma-separated pieces |
| Dashboard.ParseTagsSingle | app/dashboard/page.tsx:83 | a field without a comma is one tag, its trimmed text, or no tag when it is blank |
| Dashboard.ParseTagsAppend | app/dashboard/page.tsx:83 | the parts on either side of a comma are parsed on their own and their tags concatenated in order |
| Dashboard.ParseTypedTags | app/dashboard/page.tsx:83 | a typed field such as "react, , node," gives its two tags in order, dropping the blank and the trailing empty piece |
| Dashboard.TagsRoundTrip | app/dashboard/page.tsx:43 | parsing the ", "-joined prefill gives back the original tags whenever each is non-empty, trimmed and comma-free |
| Dashboard.SplitTrimJoin | app/dashboard/page.tsx:83 | splitting ", "-joined clean tags on ',' and trimming each piece gives the tags back, even after leading blanks |
| Dashboard.AddForm | app/dashboard/page.tsx:53-67 | the add form starts blank, on the first category and level Beginner, with empty role and link. It is prefilled with the session's name, and with the session's image or else the default avatar |
| Dashboard.AddCreditsSession | app/dashboard/page.tsx:53-92 | saving a filled-in add form credits the session's name and image, else "Anonymous" and the default avatar, with the default role and link and no tags |
| Dashboard.EditForm | app/dashboard/page.tsx:36-50 | the edit form's tag field parses back to the skill's tags when those are clean |
| Dashboard.ReplaceById | app/dashboard/page.tsx:95 | replacement leaves length and order alone and swaps exactly the entries with the given id |
| Dashboard.Submit | app/dashboard/page.tsx:70-100 | a submit is rejected, with the required-fields message, exactly when name, category or description is empty. An add appends one entry after the unchanged list, with id `skill-<t1>` and contributor id `user-<t2>` for the first two clock readings, and with the form's name, category, description and level, the parsed tags and the third reading as creation time. An edit keeps length and order; each edited entry keeps its id and contributor id and takes the form's fields, the parsed tags and the third reading; no other entry changes. Added and edited entries both get the contributor and link fallbacks |
| Dashboard.SubmitDefaults | app/dashboard/page.tsx:86-90 | the contributor name falls back to the session name, then "Anonymous". The avatar falls back to the session image, then "/avatars/default.jpg". The role falls back to "Contributor" and the link to "https://example.com". Whether added or edited, an entry a submit writes never has an empty contributor name, avatar, role or link |
| Dashboard.Delete | app/dashboard/page.tsx:103-106 | no kept entry has the id; the rest keep their relative order and every one of their copies |
| Dashboard.DeleteAbsent | app/dashboard/page.tsx:104 | deleting an id that no entry carries leaves the list unchanged |
| Dashboard.DeleteOne | app/dashboard/page.tsx:104 | with distinct ids, deleting a present id removes exactly one entry |
| Dashboard.DeleteUndoesAdd | app/dashboard/page.tsx:97-104 | adding an entry with a fresh id and deleting it again gives back the list |
| Dashboard.EditOnlyTouchesItsId | app/dashboard/page.tsx:95 | an edit changes nothing outside the edited id: deleting that id afterwards gives the same list as before the edit |
| Dashboard.ResaveKeepsSkill | app/dashboard/page.tsx:36-100 | opening a complete skill for editing and saving it unchanged restores the entry, apart from its time stamp |
| SkillSearch.ByCategory | app/skills/page.tsx:49-51 | "All" keeps the list; otherwise exactly the skills of that category, in catalogue order |
| SkillSearch.ByQuery | app/skills/page.tsx:57-61 | exactly the skills whose lowercased name, or one of whose lowercased tags, contains the lowercased query, in catalogue order |
| SkillSearch.SearchEffect | app/skills/page.tsx:46-68 | a blank query shows the active category, and the whole catalogue for "All". A standard search keeps exactly the text matches in the category. An AI-mode search leaves the list as it was. Results are a subsequence of the catalogue |
| SkillSearch.CategoryAfterMatch | app/skills/page.tsx:57-66 | filtering the category after the text match gives the same list as filtering it first |
| SkillSearch.MatchIgnoresQueryCase | app/skills/page.tsx:59-60 | the match does not depend on the query's letter case |
| SkillSearch.EmptyQueryMatchesAll | app/skills/page.tsx:59 | every skill matches the empty query |
| SkillSearch.AiFilter | app/skills/page.tsx:86-93 | a skill is kept exactly when its name or one of its tags was suggested, in catalogue order; a missing list keeps none |
| SkillSearch.AiSearch | app/skills/page.tsx:70-99 | a blank query changes nothing. Otherwise loading ends, a failure keeps the list and shows the fallback text, and a reply shows the suggested skills and the reply text |
| AiRoute.SkillNames | app/api/ai/route.ts:13 | the skill names, position by position |
| AiRoute.AllCategories | app/api/ai/route.ts:14 | no duplicates; every catalogue category is present and nothing else |
| AiRoute.AllTags | app/api/ai/route.ts:15 | no duplicates; a text is present exactly when some catalogue entry carries it as a tag |
| AiRoute.StripFences | app/api/ai/route.ts:44 | the result is no longer than the input and has no run of three backticks; text without backticks passes unchanged |
| AiRoute.CleanReply | app/api/ai/route.ts:61-62 | a cleaned answer is trimmed and fence-free; without backticks it is just the trimmed text |
| AiRoute.StripFencesPlainPrefix | app/api/ai/route.ts:44 | text without backticks in front of the rest is kept unchanged |
| AiRoute.StripFencedReply | app/api/ai/route.ts:44 | a reply "```json" + b + "```" after text a, neither with backticks, becomes a + b: both fences go and everything else stays |
| AiRoute.CleanFencedReply | app/api/ai/route.ts:61-62 | a fenced JSON reply is cleaned to its trimmed surrounding and fenced text |
| AiRoute.StripFenceFree | app/api/ai/route.ts:44 | fence-free text passes the stripper untouched |
| AiRoute.CleanReplyIdempotent | app/api/ai/route.ts:44 | cleaning a cleaned answer changes nothing |
| AiRoute.Respond | app/api/ai/route.ts:8-78 | status is always 200. The provider, "gemini" when absent, picks the generator: "gemini" the first, anything else the second. Its text comes back cleaned, and any failure gives the fallback payload |
| AiRoute.DefaultProviderIgnoresOpenAi | app/api/ai/route.ts:11-49 | without a provider field the second generator's outcome does not matter |
| AiRoute.FallbackListsCatalogue | app/api/ai/route.ts:70-73 | the fallback suggests all nine catalogue skill names in catalogue order |
| Listing.CategoryTabs | app/resources/blog/page.tsx:49 | "All" first, then each category exactly once, and nothing else |
| Blog.Categories | app/resources/blog/page.tsx:49 | the tabs are "All" followed by every post's category exactly once, and nothing else |
| Blog.BlogTabs | app/resources/blog/page.tsx:10-49 | the blog's tabs are "All", "Development", "Design" and "Company": the repeated category appears once |
| Blog.RepeatedFirstDropped | app/resources/blog/page.tsx:49 | de-duplication keeps the first appearance of a repeated entry and drops the later one |
| Blog.Filtered | app/resources/blog/page.tsx:51-56 | a post is kept exactly when its lowercased title or snippet contains the lowercased query and it is shown under the tab; kept posts stay in order |
| Blog.EmptySearchShowsAll | app/resources/blog/page.tsx:51-56 | the empty query under "All" lists every post |
| Blog.EmptySearchByCategory | app/resources/blog/page.tsx:51-56 | the empty query under a tab lists exactly that tab's posts |
| Faq.FromStored | app/resources/faq/page.tsx:36-43 | a loaded entry keeps id, question, answer and category. Missing upvotes become the empty list, and the entry is AI-answered only when the record says so |
| Faq.Load | app/resources/faq/page.tsx:33-48 | an empty node gives no entries, otherwise one entry per record, in order |
| Faq.Categories | app/resources/faq/page.tsx:53 | the tabs are "All" followed by every entry's category exactly once, and nothing else |
| Faq.Filtered | app/resources/faq/page.tsx:55-57 | "All" keeps every entry; otherwise exactly the entries of that category, in order |
| Faq.ToggleOpen | app/resources/faq/page.tsx:59-61 | clicking the open entry closes the accordion; clicking any other opens that one |
| Faq.ToggleOpenTwice | app/resources/faq/page.tsx:59-61 | two clicks on one entry restore a closed accordion, or one showing that entry |
| Faq.ToggleVote | app/resources/faq/page.tsx:103-105 | afterwards the user has voted exactly when they had not before. An absent email is appended once; a present one is removed everywhere and the list shrinks |
| Faq.ToggleVoteKeepsOthers | app/resources/faq/page.tsx:103-105 | other users' votes keep their count |
| Faq.ToggleVoteTwice | app/resources/faq/page.tsx:103-105 | voting and un-voting gives back the list |
| Faq.Find | app/resources/faq/page.tsx:102 | the first entry with the id, or none exactly when no entry has it |
| Faq.Upvote | app/resources/faq/page.tsx:99-109 | without a session only the sign-in alert is shown. An unknown id writes nothing. Otherwise the first entry with the id has its vote list toggled for the user, and that list is written to `faqs/<id>` |
| Faq.ApplyVotes | app/resources/faq/page.tsx:108 | the write changes the upvotes of the entries with the id and nothing else |
| Faq.FindAfterApply | app/resources/faq/page.tsx:102-108 | after the write the entry with the id carries the new list |
| Faq.UpvoteTwiceRestores | app/resources/faq/page.tsx:99-109 | a user who had not voted, clicking twice, leaves the entry's votes as they were |
| Faq.SubmitQuestion | app/resources/faq/page.tsx:63-97 | no session, a blank question or a pending request does nothing. A non-empty answer stores a "Pending", AI-answered record with no votes and clears the box. A missing answer, a failed request or a rejected store push stores nothing, keeps the question and alerts. Generating ends either way |
| Faq.AskedQuestionListed | app/resources/faq/page.tsx:33-88 | a stored question comes back as the last entry, listed under "All" and under a "Pending" tab |
| Insights.ToInsight | app/insights/page.tsx:37-45 | the id is the position plus one, title and url are kept, and a missing source name, description or image gets its fixed default |
| Insights.Transform | app/insights/page.tsx:37-38 | at most six cards, one per leading article in order |
| Insights.TransformIdsAndDefaults | app/insights/page.tsx:37-42 | cards are numbered 1, 2, … and none has an empty category, description or image |
| Insights.TransformIgnoresTail | app/insights/page.tsx:37 | articles after the sixth make no difference |
| Insights.Fetch | app/insights/page.tsx:25-56 | loading ends either way. A failure shows the error text and no cards; a feed shows exactly the cards transformed from its leading articles |
| Insights.FetchIgnoresTail | app/insights/page.tsx:25-38 | a feed longer than six articles shows the same page as its first six |
| Insights.Categories | app/insights/page.tsx:23 | the tabs are "All" followed by every card category exactly once, and nothing else |
| Insights.Filtered | app/insights/page.tsx:84-86 | "All" keeps every card; otherwise exactly the cards of that category, in order |
| Insights.UnnamedSourceUnderTechNews | app/insights/page.tsx:40-86 | an article without a source name is listed under "Tech News" |
| TypingRoute.SortPair | app/api/messages/route.ts:17-18 | the two addresses in non-decreasing order |
| TypingRoute.ChatId | app/api/messages/route.ts:17-20 | the key is the smaller address, '_', then the other, each with every '.' replaced by '_' |
| TypingRoute.ChatIdSymmetric | app/api/messages/route.ts:17-20 | both participants derive the same conversation key |
| TypingRoute.ChatIdCollides | app/api/messages/route.ts:20 | the key is not injective: a dot and an underscore in an address give the same key |
| TypingRoute.TypingPath | app/api/messages/route.ts:21 | for slash-free inputs the path splits into "typing", the skill, the conversation key and the dot-free user address |
| TypingRoute.Post | app/api/messages/route.ts:5-33 | a missing field or a non-boolean flag gives 400 and no write. A valid request writes only the flag at the typing path. Status 200 with success exactly when valid and written; a malformed body gives 500 |
| TypingRoute.ParticipantsShareConversation | app/api/messages/route.ts:17-21 | the two participants' flags sit under one conversation node, each under its own address |
| Bot.ChatPath | components/Bot.tsx:78 | the path is "chat/" and the address with every '.' replaced by '_'; other characters are kept in place |
| Bot.SharedChatPath | components/Bot.tsx:78 | two addresses share a conversation exactly when they have the same length and differ only where both hold '.' or '_' |
| Bot.ChatPathCollides | components/Bot.tsx:41 | addresses differing only in dots and underscores share one conversation |
| Bot.AssistantText | components/Bot.tsx:97-129 | never empty. A failed request or an error field gives the error text; otherwise the reply, or the fallback when the reply is empty |
| Bot.SendMessage | components/Bot.tsx:65-134 | a blank input or no session changes nothing. Otherwise the trimmed, non-empty user text is appended and the input is cleared, with loading and typing on. Then exactly one assistant entry follows, loading and typing go off, and both entries are pushed to the chat path |
| Bot.SendStoresWhatItShows | components/Bot.tsx:79-128 | the two store pushes hold exactly the two entries appended to the list, in order |
| Bot.OneAssistantEntryPerSend | components/Bot.tsx:97-129 | each send adds one user entry and one assistant entry, the latter the reply, the fallback or the error text |
| Bot.AdvisorFallbackShowsNothing | components/Bot.tsx:91-105 | a payload carrying only `response` shows the empty-reply fallback |
| SkillsBot.Loop | app/api/skillsbot/route.ts:6-25 | the number of attempts is between one and the limit. Every wait follows a 429 failure and the waits double from the initial delay. A returned text is the trimmed text of the last attempt. A rethrown error is the last attempt's, and a 429 is rethrown only on the final attempt |
| SkillsBot.Generate | app/api/skillsbot/route.ts:6-25 | at most three attempts, with waits of 1000 · 2^k ms |
| SkillsBot.RetryIffRateLimited | app/api/skillsbot/route.ts:16-22 | an attempt is followed by another exactly when it failed with 429 and was not the last permitted one |
| SkillsBot.TwoRateLimitsThenText | app/api/skillsbot/route.ts:9-19 | two 429s then a text: three attempts, waits of 1000 and 2000 ms, the trimmed text returned |
| SkillsBot.ThreeRateLimitsThrow | app/api/skillsbot/route.ts:16-22 | three 429s: the third is rethrown after waits of 1000 and 2000 ms |
| SkillsBot.OtherFailureNotRetried | app/api/skillsbot/route.ts:16-22 | any other failure is rethrown at once, after one attempt |
| SkillsBot.Post | app/api/skillsbot/route.ts:27-69 | a missing key gives 500 before anything else. A missing or non-string prompt gives 400. An empty reply gives 500, and success is 200 with the generator's trimmed, non-empty text as the reply |
| SkillsBot.RateLimitedTwiceThenReplies | app/api/skillsbot/route.ts:6-57 | two 429s then a non-blank text: the route replies 200 with that text trimmed |
| SkillsBot.RateLimitedThriceFails | app/api/skillsbot/route.ts:6-66 | three 429s: the rethrown error is answered 500 with the processing error |
| SkillsBot.KeyCheckedFirst | app/api/skillsbot/route.ts:29-35 | without a key neither the body nor the generator matters |
| SkillsBot.BlankTextIsNoResponse | app/api/skillsbot/route.ts:14-55 | a whitespace-only generated text is reported as no response |
| JoinRoute.ClientKey | app/api/join/route.ts:15 | the forwarded-for header, else "unknown"; never empty |
| JoinRoute.Recent | app/api/join/route.ts:20 | exactly the timestamps younger than 60000 ms, in order |
| JoinRoute.Admit | app/api/join/route.ts:19-26 | a request is let in exactly when fewer than five recent ones are stored. A refusal leaves the map alone; an admission stores the recent ones plus now, at most five |
| JoinRoute.AdmitKeepsBound | app/api/join/route.ts:22-26 | no stored history ever exceeds five entries |
| JoinRoute.AdmitTouchesOneKey | app/api/join/route.ts:26 | a request changes only its own client's history |
| JoinRoute.AdmitFresh | app/api/join/route.ts:19-26 | a client whose whole short history is recent gets now appended |
| JoinRoute.ReplayKeepsBound | app/api/join/route.ts:19-26 | any sequence of requests keeps every history at five entries or fewer |
| JoinRoute.ReplayWithinWindow | app/api/join/route.ts:19-26 | up to five requests inside one window are all let in and form the history |
| JoinRoute.FullWindowRefuses | app/api/join/route.ts:22-24 | five requests inside the window refuse the next |
| JoinRoute.WindowSlides | app/api/join/route.ts:20-22 | once a stored request leaves the window, a client at the limit is let in again |
| JoinRoute.SixthRequestRefused | app/api/join/route.ts:10-26 | after five requests within a minute, a sixth is refused exactly when it comes less than a minute after the first |
| Text.ReplaceDots | app/api/join/route.ts:36 | same length; every '.' becomes '_' and every other character stays in place |
| Text.ReplaceDotsSameKey | app/api/join/route.ts:36 | two texts sanitise alike exactly when they have the same length and differ only where both hold '.' or '_' |
| JoinRoute.SubscriberPath | app/api/join/route.ts:36 | "subscribers/" and the address with every '.' replaced by '_', other characters in place |
| JoinRoute.SpaceCamelSeparates | app/api/join/route.ts:52 | after spacing, no lower-case letter directly precedes a capital |
| JoinRoute.SpaceCamelOnlyInsertsSpaces | app/api/join/route.ts:52 | spacing only inserts spaces: without spaces the text is unchanged |
| JoinRoute.Interests | app/api/join/route.ts:52 | the summary has no capitals and is at least as long as the joined keys |
| JoinRoute.DefaultInterests | app/api/join/route.ts:39-52 | the default preferences read "dev logs, tech news, community events" |
| JoinRoute.PostAsWritten | app/api/join/route.ts:13-64 | the handler as written: success only for requests with preferences, and then with a stored record and a mail |
| JoinRoute.MissingPreferencesFailsAfterStoring | app/api/join/route.ts:36-59 | as written, any admitted request with only an email, once stored, keeps the subscriber with default preferences, sends no mail and answers 500, whatever the mail service would do |
| JoinRoute.Post | app/api/join/route.ts:13-64 | 429 exactly when five recent requests are stored, with the map and the store untouched. Otherwise the history is updated before anything else. A bad email gives 400. 200 exactly when the email is valid and store and mail succeed, with no error text, and the record under the sanitised key, defaulted preferences and the greeting before '@'. 429 carries the too-many-requests text, 400 the invalid-email text with nothing stored or mailed, and 500 the server-error text. A 500 has a stored record exactly when the email was valid and the store write succeeded, which means the mail failed. Histories stay bounded |
| JoinRoute.MailFailureKeepsSubscriber | app/api/join/route.ts:37-62 | a mail failure after the store write leaves the subscriber stored and answers 500 with the server-error text |
| JoinRoute.AgreesWhenPreferencesSent | app/api/join/route.ts:39-52 | with preferences present, the corrected handler behaves as written |
| JoinRoute.MissingPreferencesWelcomed | app/api/join/route.ts:39-59 | corrected, any admitted request with only an email is welcomed with all three default interests |
| JoinRoute.InvalidEmailUsesQuota | app/api/join/route.ts:19-32 | an invalid email still consumes a slot of the client's quota |
| Prefs.Get | app/join/page.tsx:42 | a key has a flag exactly when it is present, and the flag is the object's |
| Prefs.Toggle | app/join/page.tsx:41-43 | the named flag is negated in place and nothing else changes; an absent key is added switched on |
| Prefs.ToggleTwice | app/join/page.tsx:41-43 | toggling a present key twice gives back the object |
| Prefs.TrueKeys | app/api/join/route.ts:52 | exactly the keys switched on, in key order |
| Prefs.TrueKeysAllOn | app/api/join/route.ts:52 | with every flag on, all keys are listed |
| JoinPage.StartPrefsAreServerDefaults | app/join/page.tsx:11-15 | all three interests start ticked, the same defaults the server stores |
| JoinPage.TogglePreference | app/join/page.tsx:41-43 | one checkbox flips; the other checkboxes and the rest of the form are unchanged |
| JoinPage.TogglePreferenceTwice | app/join/page.tsx:41-43 | clicking a checkbox twice restores the form |
| JoinPage.RequestBody | app/join/page.tsx:25 | the form always sends its email and its preferences |
| JoinPage.FailureText | app/join/page.tsx:29-35 | never empty: the server's error, else "Something went wrong"; a thrown message, else "Join failed" |
| JoinPage.HandleJoin | app/join/page.tsx:17-39 | loading is on during the request and off after it. Success opens the modal, clears the email and re-ticks the interests; failure alerts and keeps the form |
| JoinPage.Read | app/join/page.tsx:28-29 | the reply counts as ok exactly for a 2xx status |
| JoinPage.FormAvoidsMissingPreferences | app/join/page.tsx:25 | from this form the route as written and the corrected route answer alike |
| JoinPage.RateLimitedJoinKeepsForm | app/join/page.tsx:29-35 | a rate-limited join shows the route's text and keeps the form |
| JoinPage.AcceptedJoinResetsForm | app/join/page.tsx:31-33 | an accepted join resets the form and opens the modal |
| Webinars.CheckboxesStartTicked | app/resources/webinars/page.tsx:25-29 | each drawn checkbox has a preference, and all start ticked |
| Webinars.HandleSubmit | app/resources/webinars/page.tsx:42-50 | an empty address or one without '@' alerts and changes nothing. Otherwise one row is inserted with the session's address if any, else the typed one. The page shows submitted with an empty box |
| Webinars.InsertedEmailChecked | app/resources/webinars/page.tsx:43-45 | an inserted address contains '@' unless the session supplied one without it |
| Webinars.SecondSubmitRefused | app/resources/webinars/page.tsx:43-49 | after a sign-up the empty box makes a second call of the handler only alert; the page disables the box and button once submitted, so no click reaches it |
| Webinars.TogglePreference | app/resources/webinars/page.tsx:52-54 | one checkbox flips; nothing else changes |
| Webinars.TogglePreferenceTwice | app/resources/webinars/page.tsx:52-54 | clicking a checkbox twice restores the page |
| Webinars.Label | app/resources/webinars/page.tsx:98 | the key with its first character upper-cased and the rest unchanged |
| Webinars.LabelIdempotent | app/resources/webinars/page.tsx:98 | labelling a label changes nothing |
| Webinars.LabelLowerRoundTrip | app/resources/webinars/page.tsx:98 | lower-casing the label of a lower-case key gives the key back |
| Webinars.CheckboxLabels | app/resources/webinars/page.tsx:89-98 | the checkboxes read "Dev", "Design" and "Career" |

## Left out

- Case mapping covers ASCII letters only. JavaScript's `toLowerCase` and
  `toUpperCase` also map other letters.
- String ordering compares characters as Dafny `char` values. For text
  outside the Basic Multilingual Plane this can differ from JavaScript's
  UTF-16 code-unit order.
- Clock readings (`Date.now()`, `new Date()`) are parameters. The chat
  widget's stored `toISOString()` times are kept as the millisecond readings
  they encode one to one; the sign-up record's `joinedAt` text is an opaque
  string parameter. Waiting is not modelled: backoff delays are
  returned as data.
- Vendor SDKs and prompt texts are outcomes passed in as parameters: Gemini,
  OpenAI, Cohere, Resend, Firebase, Supabase and NewsAPI.
- Store subscriptions (`onValue`), the overlapping async handlers in the chat
  widget, and the shared in-memory limiter map are modelled one request at a
  time, without concurrency.
- Rendering, animation, icons, sharing and redirects are left out. So are the
  not-found and login pages, the email templates, and the other vendor-only
  routes.
- JSON values that are not strings, such as a numeric email, or an object
  in place of `suggestedSkills`, are left out. An absent or non-string field
  reads as `None` or `""`, except the advisor's `provider`, where only an
  absent field is `None`.
- The typing, messaging and chat code has no message sequence numbers, no
  typing-indicator expiry and no subscription fan-out, so none is modelled.
- Bot.SendMessage: store push failures inside the send handler are left
  out. A failed first push would abort the handler before any state change.
- Bot.ChatPath: a session without an email renders the path as
  "chat/undefined"; nothing further is stated about it.
- Bot.AssistantText: the widget posts `prompt` to the advisor endpoint, which
  reads `query` and answers with `response`, not `reply`. So with that endpoint
  as written every successful reply shows the empty-reply fallback. The model
  takes the parsed answer's fields as given and shows this through
  `Bot.AdvisorFallbackShowsNothing`.
- SkillsBot.Loop, SkillsBot.Generate and SkillsBot.Post require one vendor
  answer for every attempt the loop may make. That is a modelling device, not
  a restriction of the source.
- JoinRoute.Post and JoinRoute.PostAsWritten: the store write and the mail
  hand-off are single success flags. `mailOk` false stands for a send call
  that throws: the stored record stays and the route answers 500. If the mail
  SDK instead reports an error in its return value without throwing, the
  route as written answers 200; the model assumes failures throw.
- JoinRoute.Interests: the summary is stated by its shape (no capitals,
  spacing, only inserted spaces) and by its value for the default
  preferences, not by a closed formula for every input.
- Webinars.HandleSubmit: the insert's result is not inspected by the page, so
  the model assumes it returns. The webinar list fetch is left out.
- Insights.Fetch: the card icon is left out.
- SkillsBot.Post: the catch-all 500 also carries `details` with the error's
  message, which the model drops because vendor error messages are not
  modelled.
- Prefs.TrueKeys: keys are listed in insertion order. `Object.keys` would list
  integer-like keys first; none of the forms' keys is one.
- Faq.SubmitQuestion: the question text sent to the answer generator is not
  modelled; only the generator's answer is a parameter.

## Findings

| source | as written | input that shows it | evidently intended | confidence | as-written member | corrected member |
|---|---|---|---|---|---|---|
| app/api/join/route.ts:52 | the interest summary calls `Object.keys(preferences)` on the request's raw `preferences`, which line 39 had only defaulted for storage | a POST with body `{"email": "a@b.c"}` and no `preferences` | the summary is built from the defaulted preferences that were stored, so the subscriber is welcomed with all three interests | high, not executed | JoinRoute.PostAsWritten (shown by JoinRoute.MissingPreferencesFailsAfterStoring: the subscriber is stored, no mail goes out, status 500) | JoinRoute.Post (with JoinRoute.MissingPreferencesWelcomed) |
