# Saku portfolio: recommender, proxy, project grid and contact form

A Dafny model of the logic behind a portfolio web site. The site lists past
automation projects and lets a visitor describe a need in free text. It then
shows matching projects.

- **Local recommender** (`js/ai-recommend.js`, module `AiRecommend` with
  `Ranking`). The query is lower-cased. Each category scores 10 per keyword it
  contains, and a technology preference is read off a second keyword table.
  Each project scores its category's score, plus 8 for the preferred
  technology, plus 5 per query word (longer than one character) found in its
  text, plus 2 when featured. Projects scoring above 0 are stably sorted by
  score, best first, and the top five become recommendations with a match
  score of `min(5 * score, 98)`. `callGeminiAPI` falls back to this matcher
  when the proxy is not configured or fails. Rendering skips recommendations
  whose id is not in the catalog. A query that trims to nothing is ignored.
- **Proxy** (`worker/index.js`, module `Worker`). `OPTIONS` is answered for
  CORS. `POST /api/recommend` is handled, and anything else gets 404. The
  handler keeps a per-address fixed window of 60 000 ms with at most 10
  admitted requests. Its state is the `RateLimiter` class holding
  `rateLimitMap`. After the charge, it sends 400 for an empty or over-long
  query and 500 when the API key is missing. Otherwise it passes the upstream
  JSON on, or answers 500 on any upstream failure.
- **Project grid** (`js/project-renderer.js`, module `ProjectRenderer`).
  `hexToRgba` goes through a model of `parseInt(…, 16)` and `String.slice`.
  Cards show at most five tags and a "+n" badge. The `ProjectGrid` class holds
  `currentCategory`, `displayCount` and the open modal, and its methods filter,
  load 12 more, and open or close the detail modal.
- **Contact form** (`js/contact.js`, module `Contact`). The e-mail regular
  expression `^[^\s@]+@[^\s@]+\.[^\s@]+$` is written as a decidable predicate.
  It is proved equal to the pattern's meaning, "three non-empty runs without
  whitespace or '@', joined by '@' and '.'". The submit handler's check order
  and the subject and message defaults are modelled as well.

`Text` holds the JavaScript string operations the code relies on: the
ECMAScript `\s` set, `trim`, `toLowerCase`, `includes` and `join`. `Catalog`
holds the `PROJECTS` list and the `CATEGORIES` table, which come from a data
file that is not part of this model. They are therefore parameters.

Two points where a reader might expect something other than what the code
does; the model follows the code. The comment at `js/ai-recommend.js:46`
speaks of detecting whether excel or python is wanted, which suggests one
choice, but the `break` at `js/ai-recommend.js:52` only leaves the inner
keyword loop, so a later technology with a hit overwrites an earlier one and
"python" wins over "excel" (`AiRecommend.PreferenceIsLastHit`,
`AiRecommend.PythonOverridesExcel`). One might also expect the proxy to check
that the upstream payload has a `recommendations` array, but it passes the
parsed JSON on as it is (`worker/index.js:196-198`), and the browser reads
`data.recommendations` unchecked. The model therefore lets that field be
missing, and rendering then fails with the error message.

## Model

| member | source | states |
|---|---|---|
| Text.TrimStart | js/ai-recommend.js:207 | the result is a suffix of the input behind an all-whitespace prefix, and does not start with whitespace |
| Text.TrimEnd | js/ai-recommend.js:207 | the result is a prefix ahead of an all-whitespace suffix, and does not end with whitespace |
| Text.TrimEmptyIff | js/ai-recommend.js:207-208 | `trim()` yields "" exactly when every character is ECMAScript whitespace |
| Text.TrimIdempotent | worker/index.js:146 | trimming twice is trimming once |
| Text.Lower | js/ai-recommend.js:33 | lower-casing keeps the length |
| Text.ContainsIff | js/ai-recommend.js:40 | `includes` holds exactly when the keyword occurs at some index |
| Text.AbsentFirstChar | js/ai-recommend.js:40 | a keyword whose first character is absent from the query is not included |
| Catalog.Find | js/project-renderer.js:134 | a result exactly when some project has the id; the result is the first such project |
| Catalog.FindOwnId | js/ai-recommend.js:141 | with unique ids, looking up a project's own id finds that project |
| Catalog.CategoryFor | js/project-renderer.js:24 | the category's entry if present, else the "other" entry; nothing only when both are missing |
| Ranking.Candidates | js/ai-recommend.js:80 | keeps exactly the entries whose score is above 0 |
| Ranking.CandidatesIncreasing | js/ai-recommend.js:80 | the filter keeps catalog order |
| Ranking.Insert | js/ai-recommend.js:81 | one insertion step adds exactly the inserted element (multiset) |
| Ranking.SortByScore | js/ai-recommend.js:81 | the sort is a permutation of its input |
| Ranking.InsertSorted | js/ai-recommend.js:81 | inserting an element that precedes all others in catalog order keeps score-descending, tie-stable order |
| Ranking.SortSorted | js/ai-recommend.js:81 | over catalog-ordered input, the result is score-descending with ties in catalog order (a stable sort) |
| Ranking.Ranked | js/ai-recommend.js:79-82 | the filtered, sorted and cut list; RankedProperties and RankedIsTop carry its contract |
| Ranking.RankedProperties | js/ai-recommend.js:79-82 | at most five entries, each a positive-scoring input, in that order |
| Ranking.RankedIsTop | js/ai-recommend.js:79-82 | a positive-scoring input left out means exactly five entries, each ranking ahead of it |
| AiRecommend.KeywordMapDistinct | js/ai-recommend.js:10-21 | the category keys of `KEYWORD_MAP` are distinct |
| AiRecommend.ScoresOver | js/ai-recommend.js:37-44 | the `scores` object; ScoresOverDomain and ScoresOverAt carry its contract |
| AiRecommend.KeywordHitsCount | js/ai-recommend.js:39-43 | the hit count is the number of keyword positions contained in the query |
| AiRecommend.ScoresOverDomain | js/ai-recommend.js:37-38 | every category is scored and no other key; scores are non-negative |
| AiRecommend.ScoresOverAt | js/ai-recommend.js:37-44 | a category's score is 10 × the number of its keywords contained in the query |
| AiRecommend.ScoreAtLeast | js/ai-recommend.js:37-44 | any set of distinct contained keywords of a category gives it at least 10 each |
| AiRecommend.ScoreAtMost | js/ai-recommend.js:37-44 | a category with no contained keyword outside a given set scores at most 10 per element of that set |
| AiRecommend.CategoryScores | js/ai-recommend.js:37-44 | the nested loops compute exactly the category score map |
| AiRecommend.PreferenceOver | js/ai-recommend.js:47-55 | `techPreference`; PreferenceIsLastHit and PreferenceOfLastHit carry its contract |
| AiRecommend.PreferenceIsLastHit | js/ai-recommend.js:47-55 | no preference exactly when no technology has a hit; otherwise it is the last technology with a hit |
| AiRecommend.PreferenceOfLastHit | js/ai-recommend.js:47-55 | a technology with a hit and none after it with a hit is the preference |
| AiRecommend.PythonOverridesExcel | js/ai-recommend.js:47-55 | any python keyword gives "python"; else any excel keyword gives "excel"; else no preference |
| AiRecommend.TechPreference | js/ai-recommend.js:47-55 | the loop with its inner `break` computes exactly that preference |
| AiRecommend.TechBonusIffPreferred | js/ai-recommend.js:63-64 | the bonus is 8 exactly when the preference equals the project's type, and 0 otherwise |
| AiRecommend.RunLength | js/ai-recommend.js:67 | the run before the first separator of `[\s、,。.]` |
| AiRecommend.Runs | js/ai-recommend.js:67 | the non-empty `split` pieces; RunsArePieces, RunsComplete, RunsSplit, RunsOfRun and RunsOfSeparators carry its contract |
| AiRecommend.RunsArePieces | js/ai-recommend.js:67 | every split piece is non-empty, separator-free and contained in the query |
| AiRecommend.RunLengthBeforeSeparator | js/ai-recommend.js:67 | the first piece ends at the first separator, whatever follows it |
| AiRecommend.RunsSplit | js/ai-recommend.js:67 | cutting the query at a separator gives the pieces before it followed by the pieces after it, in order |
| AiRecommend.RunsOfRun | js/ai-recommend.js:67 | a non-empty separator-free text is one piece |
| AiRecommend.RunsOfSeparators | js/ai-recommend.js:67 | separators alone give no piece |
| AiRecommend.RunsLeading | js/ai-recommend.js:67 | a separator-free head ended by a separator or the end of the text is a piece |
| AiRecommend.RunsAfterSeparator | js/ai-recommend.js:67 | the pieces after a separator are the last pieces of the whole text |
| AiRecommend.RunsComplete | js/ai-recommend.js:67 | every maximal separator-free stretch of the query is a piece |
| AiRecommend.Words | js/ai-recommend.js:67 | the query words; LongWordsSub, LongWordsAppend, LongWordsSingle, WordsSplit, WordsArePieces and SingleWord carry its contract |
| AiRecommend.LongWordsSub | js/ai-recommend.js:67 | the length filter keeps exactly the pieces longer than one character |
| AiRecommend.LongWordsAppend | js/ai-recommend.js:67 | the length filter works piece by piece: it keeps order and repeated words |
| AiRecommend.LongWordsSingle | js/ai-recommend.js:67 | one piece is kept exactly when it is longer than one character |
| AiRecommend.WordsSplit | js/ai-recommend.js:67 | the words around a separator are the words before it followed by the words after it, repeats kept |
| AiRecommend.WordsArePieces | js/ai-recommend.js:67 | every query word is longer than one character, separator-free and contained in the query |
| AiRecommend.SingleWord | js/ai-recommend.js:67 | a separator-free query longer than one character is its only word |
| AiRecommend.ProjectScore | js/ai-recommend.js:58-75 | a project's score; ScoreProject, ScoreLowerBound, CategoryKeywordFloor and TechBonusIffPreferred carry its contract |
| AiRecommend.WordHitsAppend | js/ai-recommend.js:68-70 | word hits add up over concatenated word lists, so a repeated word counts each time |
| AiRecommend.MoreWordsScore | js/ai-recommend.js:58-75 | every further query word found in the project's text adds 5 to its score |
| AiRecommend.RepeatedWordCountsTwice | js/ai-recommend.js:67-70 | a word typed twice around a separator is two query words and adds 10 to a project whose text contains it |
| AiRecommend.ScoreProject | js/ai-recommend.js:58-75 | the loop over the words computes exactly the project score |
| AiRecommend.ScoredCatalog | js/ai-recommend.js:58-76 | one entry per project, at its catalog index, in catalog order |
| AiRecommend.ScoreLowerBound | js/ai-recommend.js:59-73 | every score is non-negative, and at least 2 for a featured project |
| AiRecommend.CategoryKeywordFloor | js/ai-recommend.js:59 | a project whose category has a keyword contained in the query scores at least 10 |
| AiRecommend.LocalRecommend | js/ai-recommend.js:32-89 | the method's result equals the specified recommendations |
| AiRecommend.MatchScore | js/ai-recommend.js:87 | `matchScore`; RecommendationsFromCatalog carries its contract |
| AiRecommend.Recommendations | js/ai-recommend.js:79-88 | `localRecommend`'s answer; RecommendationsFromCatalog, RecommendationsOrdered and OmittedMeansOutranked carry its contract |
| AiRecommend.RecommendationsFromCatalog | js/ai-recommend.js:79-88 | at most five results, each built from a positive-scoring catalog project, with matchScore = min(5·score, 98) in (0, 98] |
| AiRecommend.RecommendationsOrdered | js/ai-recommend.js:79-82 | scores never increase along the results, and equal scores keep catalog order |
| AiRecommend.OmittedMeansOutranked | js/ai-recommend.js:79-82 | a positive-scoring or featured project is recommended, or five results score at least as high |
| AiRecommend.CallGeminiAPI | js/ai-recommend.js:94-114 | local exactly when the URL is the placeholder or the call fails; local answers are the local matcher's; remote answers are passed on unchecked |
| AiRecommend.ShippedAlwaysLocal | js/ai-recommend.js:7 | with the shipped URL, every answer is the local matcher's |
| AiRecommend.Resolving | js/ai-recommend.js:141-142 | keeps exactly the recommendations whose id is in the catalog |
| AiRecommend.RenderCardsSpec | js/ai-recommend.js:139-170 | the cards are the resolving recommendations in order, each with the project its id finds and that project's category entry |
| AiRecommend.RenderCardsFails | js/ai-recommend.js:141-143 | rendering fails exactly when a resolving recommendation's category entry (and "other") is missing |
| AiRecommend.RenderRecommendations | js/ai-recommend.js:119-187 | the error message exactly for a missing list or a card that cannot be built; "no match" exactly for an empty list; a listing announces the list's length, says whether Gemini answered and shows the cards RenderCards builds |
| AiRecommend.SubmitAIQuery | js/ai-recommend.js:207-211 | the query is ignored exactly when the input is all whitespace |
| AiRecommend.ResolvingAll | js/ai-recommend.js:141-142 | when every id resolves, nothing is skipped |
| AiRecommend.LocalResultsResolve | js/ai-recommend.js:141-142 | the local matcher's results never dangle |
| AiRecommend.ShippedSubmitNeverFails | js/ai-recommend.js:201-246 | as shipped, with an "other" category, the error message never shows, and a listing has one card per announced result |
| AiRecommend.ExampleLowered | js/ai-recommend.js:33 | the worked query lower-cases as expected |
| AiRecommend.ExampleKeywords | js/ai-recommend.js:40 | the lowered worked query contains "youtube", "動画", "編集" and "自動化" |
| AiRecommend.YoutubeFloor | js/ai-recommend.js:37-44 | a query containing "youtube", "動画" and "編集" gives the youtube category at least 30 |
| AiRecommend.YoutubeExactly | js/ai-recommend.js:37-44 | hitting exactly those three youtube keywords gives the category exactly 30 |
| AiRecommend.ExampleYoutubeOthers | js/ai-recommend.js:40 | the lowered worked query contains none of the other eight youtube keywords |
| AiRecommend.AutomationPrefersPython | js/ai-recommend.js:47-55 | a query containing "自動化" prefers python |
| AiRecommend.ExampleQueryScores | js/ai-recommend.js:32-55 | for "YouTubeの動画編集を自動化したい", youtube scores exactly 30 and the preference is python |
| Worker.RouteOf | worker/index.js:94-113 | `OPTIONS` is the preflight; `POST /api/recommend` is handled; everything else is 404 |
| Worker.RateKeyBuckets | worker/index.js:124-126 | clients without an address share "rate:unknown"; distinct addresses get distinct keys |
| Worker.CurrentWindow | worker/index.js:127-132 | the window in force for a key; WindowRule carries its contract |
| Worker.WindowRule | worker/index.js:127-132 | a missing or expired entry is a fresh window ending 60 000 ms from now; otherwise the stored entry |
| Worker.Charge | worker/index.js:134-142 | the rate check and count update; ChargeProperties, ExpiredWindowRestarts, AtMostTenPerWindow and FreshClientAtMostTen carry its contract |
| Worker.ChargeProperties | worker/index.js:127-142 | admitted exactly below 10; a refusal changes nothing; an admission adds 1 to the key's count in the same window and leaves other keys alone; counts stay in [1, 10] |
| Worker.ExpiredWindowRestarts | worker/index.js:129-142 | after expiry, a request is admitted and starts a new window with count 1 |
| Worker.AtMostTenPerWindow | worker/index.js:134-142 | within one window, a key admits at most 10 minus its count so far |
| Worker.FreshClientAtMostTen | worker/index.js:127-142 | a new client's requests within 60 000 ms of its first are admitted at most 10 times |
| Worker.CheckQuery | worker/index.js:145-153 | accepted exactly when the trimmed query is a non-empty string of at most 500 characters; a body that does not parse or a non-string query is a 500 |
| Worker.QueryLengthBoundary | worker/index.js:146-153 | 500 characters are accepted, 501 are rejected, and whitespace alone is rejected |
| Worker.Respond | worker/index.js:144-205 | the answer after admission; RespondOrder carries its contract |
| Worker.Handle | worker/index.js:117-206 | `handleRecommend`; HandleOrder carries its contract |
| Worker.RespondOrder | worker/index.js:148-205 | 400 exactly for a bad query; no key means 500 before the upstream call; 200 exactly with a key and JSON upstream, which is passed on verbatim |
| Worker.HandleOrder | worker/index.js:123-205 | 429 exactly at the limit, with the table untouched; any other answer follows the charge |
| Worker.RateLimiter.constructor | worker/index.js:89 | the map starts empty |
| Worker.RateLimiter.ChargeRequest | worker/index.js:124-142 | the map update equals the charge function |
| Worker.RateLimiter.HandleRecommend | worker/index.js:117-206 | the response and new map equal the handler function, and the map invariant is kept |
| Worker.RateLimiter.Fetch | worker/index.js:92-114 | preflight and 404 leave the map alone; the recommend route is the handler |
| ProjectRenderer.HexValue | js/project-renderer.js:14 | a hexadecimal digit's value is below 16 |
| ProjectRenderer.HexRun | js/project-renderer.js:14 | `parseInt` reads the longest prefix of hexadecimal digits |
| ProjectRenderer.ParseIntHexSkipsSpace | js/project-renderer.js:14 | leading whitespace is skipped before the sign |
| ProjectRenderer.ParseTwoDigits | js/project-renderer.js:14-16 | two hexadecimal digits parse to 16·high + low, within [0, 255] |
| ProjectRenderer.ParseIntHexNaN | js/project-renderer.js:14-16 | "", "0x" and "#" give NaN |
| ProjectRenderer.Slice | js/project-renderer.js:14-16 | `slice` never grows the string and is the plain substring when the bounds fit |
| ProjectRenderer.ColorSlices | js/project-renderer.js:14-16 | in a 7-character string the three slices are the digit pairs |
| ProjectRenderer.HexToRgba | js/project-renderer.js:13-18 | the rgba text; WellFormedComponents, ComponentsAre, ShortColourGivesNaN and ColorRoundTrip carry its contract |
| ProjectRenderer.WellFormedComponents | js/project-renderer.js:13-18 | a "#rrggbb" colour gives three components in [0, 255], read from the digit pairs |
| ProjectRenderer.ShortColourGivesNaN | js/project-renderer.js:16 | a colour of five characters or fewer prints NaN for blue |
| ProjectRenderer.HexDigitRoundTrip | js/project-renderer.js:14 | a formatted digit is a hexadecimal digit with that value |
| ProjectRenderer.FormatColorDigits | js/project-renderer.js:13-18 | a formatted colour is a "#rrggbb" colour whose digit pairs carry its components |
| ProjectRenderer.ComponentsAre | js/project-renderer.js:14-16 | the parsed components of a well-formed colour are its digit-pair values |
| ProjectRenderer.ColorRoundTrip | js/project-renderer.js:13-18 | formatting three bytes as "#rrggbb" and parsing them back gives the bytes |
| ProjectRenderer.CardTags | js/project-renderer.js:25-32 | the first min(5, n) tags are shown; "+k" appears exactly when there are more than 5, and shown + k = n |
| ProjectRenderer.BadgeText | js/project-renderer.js:29-32 | the "+n" badge text; BadgeShownIffCut carries its contract |
| ProjectRenderer.BadgeShownIffCut | js/project-renderer.js:29-32 | the badge shows exactly when there are more than five tags, and n is the number of tags not shown |
| ProjectRenderer.TypeLabel | js/project-renderer.js:38-41 | "Python" exactly for type "python", otherwise "Excel VBA", each with its background |
| ProjectRenderer.Card | js/project-renderer.js:23-45 | a card exactly when a category entry is found; it shows the project's id, title, tags, type badge and category chip |
| ProjectRenderer.Cards | js/project-renderer.js:107 | one card per visible project, or failure exactly at a project without a category entry |
| ProjectRenderer.InCategory | js/project-renderer.js:100 | `PROJECTS.filter`; InCategoryMembers and InCategoryOrder carry its contract |
| ProjectRenderer.InCategoryMembers | js/project-renderer.js:100 | the filter keeps exactly the projects of that category |
| ProjectRenderer.InCategoryOrder | js/project-renderer.js:100 | the filtered projects sit at strictly increasing catalog positions, and these include every position of that category |
| ProjectRenderer.Filtered | js/project-renderer.js:96-100 | the whole catalog for "all", else the category filter; PageProperties carries what the grid shows of it |
| ProjectRenderer.Page | js/project-renderer.js:96-118 | one `renderProjects`; PageProperties, MoreShowsPrefix and PagesAfterLoads carry its contract |
| ProjectRenderer.PageProperties | js/project-renderer.js:96-118 | the first min(displayCount, n) filtered projects are shown; "load more" exactly when some are hidden, and then it counts them; the total is n |
| ProjectRenderer.MoreShowsPrefix | js/project-renderer.js:103 | a larger display count only appends to what is visible |
| ProjectRenderer.PagesAfterLoads | js/project-renderer.js:96-128 | at display count 12(k+1), 12(k+1) projects, or all of them, are visible, as a prefix of the filtered list, with "load more" exactly when more remain |
| ProjectRenderer.ModalFor | js/project-renderer.js:133-163 | no modal exactly when no project has the id or its category entry is missing; otherwise the modal of the first project with that id, with its title, all its tags and its type badge |
| ProjectRenderer.ModalOpensForCatalogIds | js/project-renderer.js:133-137 | with unique ids and an "other" entry, every catalog project's modal opens on that project |
| ProjectRenderer.ProjectGrid.constructor | js/project-renderer.js:6-7 | the grid starts on "all" with 12 shown and no modal |
| ProjectRenderer.ProjectGrid.FilterProjects | js/project-renderer.js:77-80 | sets the category, resets the count to 12 and renders |
| ProjectRenderer.ProjectGrid.LoadMoreProjects | js/project-renderer.js:125-128 | adds 12 to the count; what was visible stays a prefix of what is visible |
| ProjectRenderer.ProjectGrid.OpenProjectModal | js/project-renderer.js:133-135 | an unknown id changes nothing; otherwise that project's modal is open; the grid invariant is kept |
| ProjectRenderer.FilterThenLoadMore | js/project-renderer.js:77-128 | a filter click and then k "load more" clicks leave that category, a count of 12(k+1), the modal as it was, and the page at that count |
| ProjectRenderer.ProjectGrid.CloseProjectModal | js/project-renderer.js:195-199 | the modal is closed; the grid state and its invariant are kept |
| Contact.FirstAt | js/contact.js:82 | the position of the first '@', or none when there is none |
| Contact.PlainSlice | js/contact.js:82 | a non-empty run of `[^\s@]` characters is one `[^\s@]+` |
| Contact.ValidChars | js/contact.js:82 | in an accepted address every character except the '@' is in `[^\s@]` |
| Contact.ValidMatchesPattern | js/contact.js:82 | every accepted address splits as the pattern requires |
| Contact.ComposeChars | js/contact.js:82 | where each character of a composed address comes from |
| Contact.FirstAtAfter | js/contact.js:82 | the first '@' of a composed address is its separator |
| Contact.PatternIsValid | js/contact.js:82 | every string the pattern matches is accepted |
| Contact.IsValidEmail | js/contact.js:81-83 | `isValidEmail`; IsValidEmailIff, ValidMatchesPattern and PatternIsValid carry its contract |
| Contact.IsValidEmailIff | js/contact.js:81-83 | `isValidEmail` holds exactly when the regular expression matches |
| Contact.ValidEmailHasOneAt | js/contact.js:82 | an accepted address holds exactly one '@' |
| Contact.WhiteSpaceNeverMatches | js/contact.js:82 | a string with any whitespace does not match |
| Contact.AcceptedExamples | js/contact.js:82 | "a@b.c" and "a@b.c.d" are accepted |
| Contact.RejectedExamples | js/contact.js:82 | "a@b", "a@.c", "a@b." and "@b.c" are rejected |
| Contact.OrDefault | js/contact.js:46 | the value when it is non-empty, else the fallback |
| Contact.Validate | js/contact.js:19-33 | a missing name or e-mail is reported first, then a malformed e-mail; otherwise the trimmed name and a valid e-mail go on |
| Contact.BlankNameIsMissing | js/contact.js:25-28 | a whitespace-only name is reported as missing |
| Contact.SubjectDefaults | js/contact.js:49 | the subject uses "その他" without a category, else the category, and distinct names give distinct subjects |
| Contact.Subject | js/contact.js:49 | the subject line; SubjectDefaults carries its contract |
| Contact.MessageBody | js/contact.js:50 | the message text; MessageBodyDefaults and MessageBodyEnds carry its contract |
| Contact.MessageBodyDefaults | js/contact.js:50 | "未選択" stands in for a missing category and for a missing budget, each on its own |
| Contact.MessageBodyEnds | js/contact.js:50 | a filled category opens the body; the detail closes it, or "undefined" when the field is missing |
| Contact.Submit | js/contact.js:12-75 | the submit handler; SubmitOrder carries its contract |
| Contact.SubmitOrder | js/contact.js:25-63 | nothing is sent unless both checks pass; what is sent has a valid e-mail and a non-empty name and goes to the site's address; success shows, and the form resets, only on the service's `success` |
| Contact.MessageStyle | js/contact.js:92-106 | the green classes, the check icon and the delayed clear for type "success"; the red classes and the warning icon for any other type |

## Left out

- DOM work is not modelled: `innerHTML` templates, `escapeHtml`, element lookups, button states, focus, animation delays and `form.reset()` beyond a flag. Views are records of the values the templates embed.
- `fetch`, `async`/`await`, `response.json()` and `JSON.parse` become abstract outcome parameters (`RemoteOutcome`, `Upstream`, `Delivery`, `Body`). Payloads are kept as opaque text.
- `Date.now()` is the `now` parameter, and the `CF-Connecting-IP` header is the `clientIP` parameter.
- The API key and `form.dataset.formKey` are parameters.
- Concurrent requests touching `rateLimitMap` are not modelled; each request runs to completion.
- Entries of the rate map are never evicted in the source, and the model does the same (no eviction).
- CORS headers and the `Content-Type` header are not modelled; responses carry only a status and a body.
- The model does not include the `message` field that the worker's 500 body adds from the exception text.
- The prompt text sent upstream, the model name, its generation settings and the key in the URL are not modelled.
- `console.warn`, `console.error` and the 5-second `setTimeout` are not modelled; `setTimeout` is kept only as the `clearsLater` flag.
- AiRecommend.MatchScore: `Math.round((score / 20) * 100)` is `5 * score` exactly, because scores are integers. No floating point is modelled.
- Text.LowerChar: `toLowerCase` is modelled for ASCII letters only. Full Unicode case mapping is not modelled; the shipped keywords are ASCII or Japanese, which has no case.
- String lengths count characters. JavaScript counts UTF-16 code units, so the 500-character limit and `w.length > 1` differ for characters outside the Basic Multilingual Plane.
- `scores[project.category] || 0` is modelled as a missing key giving 0. JavaScript's inherited object properties (a category named "constructor", say) are not modelled.
- In the mail fallback, only its occurrence (`FallbackShown`) is modelled: the `mailto:` link text and `encodeURIComponent` are not.
- `hexToRgba`'s `alpha` is passed as its printed text ("0.1"), because number-to-string conversion of floats is not modelled.
- The project fields `image`, `detail`, `estimatedPrice` and `priceNote` only choose between template branches or are printed verbatim, so they are not modelled.
- The `featured` badge is modelled only as a flag.
- The modal's `document.body.style.overflow` and `display` changes are summarised by the grid's `modal` field.
- A remote answer (`RemoteOutcome`) is modelled as a list of well-formed recommendation records, or as a missing list. A `recommendations` field that is a string, a number or an array holding `null` entries is not modelled, although the proxy passes such JSON on unchecked; `renderRecommendations` would then throw or walk its characters.
- A missing category entry with no "other" fallback makes the source throw on the first use of `cat`. The model yields `None` there, and in the recommendation panel it yields the error message.
- js/main.js, PROJECTS and CATEGORIES: the navigation and scroll effects in js/main.js, and the catalog data file, are not part of this model; catalog and category table are parameters.
- The example buttons and the Enter-key handler of js/ai-recommend.js:249-277 only call `submitAIQuery` or fill the input, so they are not modelled separately.
