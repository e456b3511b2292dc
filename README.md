# summarize-rss, modelled in Dafny

summarize-rss is a batch job. It reads the unread articles of each
FreshRSS category through the Google Reader API, asks Amazon Bedrock to
pick the ones useful to a DevOps engineer, mails the picks through Amazon
SES, and marks every fetched article as read. This project models that
program's decision logic and proves what it promises:

- `Config`: reading the configuration from the environment (`src/config.ts`).
- `Selection`: the numbered prompt `filterArticles` sends, and the defensive
  parse of the model's reply into selected and unselected articles
  (`src/bedrock/client.ts`).
- `Email`: `escapeHtml`, the text and HTML bodies and the subject of the
  digest (`src/ses/client.ts`).
- `FreshRss`: the FreshRSS client (`src/freshrss/freshrss.ts`).
  - It is a class that holds the cached token and the requests it has sent.
  - Each method is proved equal to a function of the client state.
  - The HTTP server is a parameter, which answers a request given the
    requests before it.
- `Pipeline`: `main` (`src/index.ts`) as a loop over categories.
  - Its collaborators are oracles: a `FeedClient` for `IFreshRSSClient`, and
    `Services` for the Bedrock `Converse` call and the SES send.
  - Each oracle answers a call as a function of the calls made before it.
  - A run is the trace of the calls it makes, and whether it ended in an
    error.
  - The run is defined for any `Steps`: the user message, the selection read
    from the reply, and the message mailed. `main` uses `MainSteps`, which
    are the `Selection` and `Email` functions above.
  - Properties of the trace are proved once for every `Steps`, and then
    instantiated for `main`.
- `CategoryConfig` and `Summarization`: the two constant lookup tables
  (`src/freshrss/freshRSSCategoryConfig.ts`,
  `src/summarization/summarization.ts`).
- `Strings`: the JavaScript built-ins the program relies on, over
  `seq<char>`. These are `trim`, `split`, `join`, `startsWith`, `replace`,
  `parseInt(s, 10)` and the decimal rendering of a count.
- `Articles`, `Results` and `MockFeed`: the shared `Article` record,
  `Option`/`Result`, and the mock client's fixed data (`src/freshrss/mock.ts`).

The model follows the code, in particular:

- Selected indices are not deduplicated. A number repeated in the reply
  selects its article twice.
- The digest has no section for the articles that were not selected. Only
  the selected list is rendered.
- `main` never looks up the category table. `getCategoryConfig` and the
  summarization table are modelled on their own.
- There is no per-category error containment. The first error ends the
  whole run, and the process exits with status 1.
- The subject is `[RSS] 本日のおすすめ記事 (N件)`, with N the number of
  articles mailed.

## Model

| member | source | states |
|---|---|---|
| Articles.Ids | src/index.ts:50 | one id per article, the id of the article at the same position |
| Config.GetEnvOrThrow | src/config.ts:8-14 | succeeds exactly when the variable is present and non-empty, with its value; otherwise the error names the key |
| Config.GetEnvOrDefault | src/config.ts:16-18 | the value whenever the key is present, even when it is empty; the default only when the key is absent |
| Config.GetEnvBoolean | src/config.ts:20-24 | the default when the key is absent; otherwise true exactly for `"true"` and `"1"`, so `""` and `"TRUE"` are false |
| Config.LoadConfig | src/config.ts:27-49 | a loaded config has the mock flag of `USE_FRESHRSS_MOCK`; under the mock the three FreshRSS fields are `""`, and otherwise they are the set values; the regions are the variables or `us-east-1` / `ap-northeast-1`; the SES addresses are the set values |
| Config.LoadConfigFailsOnFirstUnset | src/config.ts:29-49 | the load fails exactly when a required variable is unset, and the error names the first one in the object literal's order; the FreshRSS variables are required only without the mock, the SES addresses always |
| Config.MockIgnoresFreshRssVariables | src/config.ts:33-35 | under the mock, removing the three FreshRSS variables from the environment leaves the loaded config unchanged |
| CategoryConfig.GetCategoryConfig | src/freshrss/freshRSSCategoryConfig.ts:13-17 | the table entry exactly for the table's keys, and `None` (the source's `null`) for every other id, never an error |
| CategoryConfig.TableLists | src/freshrss/freshRSSCategoryConfig.ts:23-42 | label k of the five maps to owner `a_takamin` and summarization config id k |
| CategoryConfig.OnlyListedLabels | src/freshrss/freshRSSCategoryConfig.ts:16 | a lookup finds an entry exactly for the five listed labels |
| CategoryConfig.EveryOwnerIsOwner | src/freshrss/freshRSSCategoryConfig.ts:23-42 | every entry's owner is `a_takamin` |
| CategoryConfig.TableIsBijection | src/freshrss/freshRSSCategoryConfig.ts:23-42 | distinct labels name distinct config ids, and every summarization config id is named by some label |
| CategoryConfig.EveryCategoryResolves | src/freshrss/freshRSSCategoryConfig.ts:25-41 | every config id the category table names is found by the summarization table's `get` |
| Summarization.Get | src/summarization/summarization.ts:21-29 | the table entry exactly when the id is a key; otherwise the error `Unknown SummarizationConfigID: <id>` |
| Summarization.KeysAreConfigIds | src/summarization/summarization.ts:5-10 | the table's keys are exactly the five members of the id union, so `get` never throws for a well-typed id |
| Summarization.PromptCarriesAttribution | src/summarization/summarization.ts:86 | every prompt contains the summarize-rss attribution sentence |
| Summarization.EveryEntrySonnetWithAttribution | src/summarization/summarization.ts:32-342 | every entry `get` returns runs on the Claude Sonnet 4.5 id, and its prompt carries the attribution sentence |
| Selection.UserMessage | src/bedrock/client.ts:46-52 | the fixed request, a blank line, then one numbered title per line; `UserMessageListsEveryArticle` and `PromptLineNumber` state the lines |
| Selection.UserMessageListsEveryArticle | src/bedrock/client.ts:46-52 | line i of the user message is `(i+1). title_i`, and line i+1 follows it after one newline |
| Selection.PromptLineNumber | src/bedrock/client.ts:47 | prompt line k (1-based) starts with the decimal k and `. ` |
| Selection.TokenIndex | src/bedrock/client.ts:79 | `parseInt(token.trim(), 10) - 1`: a digits-only token names its value minus one (`DigitsToken`), and a token with no digit is `NaN` (`SentinelIsNaN`, `BlankIsNaN`) |
| Selection.DigitsToken | src/bedrock/client.ts:79 | a token made of digits only reads as its decimal value minus one |
| Selection.InRangeIndices | src/bedrock/client.ts:80 | every index kept is below the number of articles |
| Selection.IndexSet | src/bedrock/client.ts:82 | the set has exactly the indices of the list |
| Selection.FilterArticles | src/bedrock/client.ts:40-43 | an empty article list gives empty selected and empty unselected lists, whatever the reply |
| Selection.UnselectedIndicesMembers | src/bedrock/client.ts:86-88 | the reference list of unselected indices holds exactly the positions below n that are not chosen |
| Selection.UnselectedIndicesIncreasing | src/bedrock/client.ts:86-88 | those positions are in strictly increasing order |
| Selection.UnselectedIndicesCount | src/bedrock/client.ts:86-88 | those positions and the chosen positions below n number n together |
| Selection.UnselectedIsProjection | src/bedrock/client.ts:86-88 | the source's index filter equals the projection of the articles onto the unchosen positions, in original order |
| Selection.UnselectedNoneChosen | src/bedrock/client.ts:86-88 | filtering with no chosen index keeps every article |
| Selection.InRangeIndicesCount | src/bedrock/client.ts:77-80 | an in-range index occurs as often as tokens name it (repetitions kept); out-of-range and `NaN` tokens contribute nothing |
| Selection.InRangeIndicesAppend | src/bedrock/client.ts:77-80 | the filter works token by token, so indices come out in token order |
| Selection.InRangeIndicesAllNaN | src/bedrock/client.ts:80 | tokens that all read as `NaN` select nothing |
| Selection.ParseSelection | src/bedrock/client.ts:70-88 | the reply read into selected and unselected articles: the early exit or the parse, as `ParseSelectionShape` and `Partition` state |
| Selection.ParseSelectionShape | src/bedrock/client.ts:70-88 | on both the early exit and the parse, selected is the projection of the selected indices and unselected the articles at the other positions |
| Selection.PartitionOfIndices | src/bedrock/client.ts:82-88 | for in-range indices: chosen and kept positions are disjoint, cover every position, and the unselected count plus the distinct chosen count is the article count |
| Selection.Partition | src/bedrock/client.ts:77-88 | the same partition for the indices parsed from any reply, with selected being `articles[i]` for each kept index in token order |
| Selection.SelectedAreArticles | src/bedrock/client.ts:83-85 | every selected article is one of the input articles |
| Selection.SentinelIsNaN | src/bedrock/client.ts:70 | the sentinel `なし` is one token that reads as `NaN` |
| Selection.BlankIsNaN | src/bedrock/client.ts:70 | every token of a whitespace-only reply reads as `NaN` |
| Selection.EarlyExitAgreesWithParser | src/bedrock/client.ts:70-73 | the early exit returns selected `[]` and unselected the articles unchanged, and the parser would have selected nothing either |
| Selection.DigitsReply | src/bedrock/client.ts:77-79 | a reply made of digits only passes the early exit and is one token naming its value minus one |
| Selection.DecimalReply | src/bedrock/client.ts:79 | the reply `k` (k ≥ 1) is one token naming index k-1 |
| Selection.SingleIndexReply | src/bedrock/client.ts:77-88 | a reply whose only token names in-range index i selects exactly `[articles[i]]` and leaves n-1 unselected |
| Selection.ReplyNamesPromptLine | src/bedrock/client.ts:46-88 | replying with the number in front of prompt line k selects exactly the article on that line |
| Selection.ThreeNumberSelection | src/bedrock/client.ts:70-88 | any reply of three comma-free tokens reading 1, 3 (twice) and 99 over three articles selects `[a, c, c]` and leaves `[b]` unselected |
| Selection.RepeatedAndOutOfRange | src/bedrock/client.ts:70-88 | the reply `"1,3,3,99"` over three articles selects `[a, c, c]` and leaves `[b]` unselected: 99 is out of range and dropped, and 3 selects its article twice |
| Strings.Trim | src/bedrock/client.ts:79 | `trim()`: both ends stripped of JavaScript white space and line terminators, as `TrimStartSpec`, `TrimEndSpec` and `TrimEmptyIffWhitespace` state |
| Strings.TrimStartSpec | src/bedrock/client.ts:79 | trimming the start drops a whitespace prefix and keeps a suffix that starts with a non-whitespace character |
| Strings.TrimEndSpec | src/bedrock/client.ts:79 | trimming the end drops a whitespace suffix and keeps a prefix that ends with a non-whitespace character |
| Strings.TrimEmptyIffWhitespace | src/bedrock/client.ts:70 | `trim()` is empty exactly when the string is whitespace only |
| Strings.Split | src/bedrock/client.ts:78 | `split` yields at least one piece, and no piece contains the separator |
| Strings.Join | src/bedrock/client.ts:48 | `join(sep)`: the parts in order with the separator between neighbours, as `JoinPartAt`, `JoinSplit` and `SplitJoin` state |
| Strings.JoinSplit | src/bedrock/client.ts:78 | joining the pieces of a split with the separator gives back the string |
| Strings.SplitJoin | src/freshrss/freshrss.ts:44 | splitting a join of separator-free lines gives back the lines |
| Strings.SplitLength | src/bedrock/client.ts:78 | a split has one more piece than there are separators |
| Strings.JoinPartAt | src/bedrock/client.ts:48 | every part occurs in the join at its offset |
| Strings.IndexOf | src/freshrss/freshrss.ts:49 | the first occurrence of the pattern, or none when it does not occur |
| Strings.ReplaceFirst | src/freshrss/freshrss.ts:49 | `replace` with a string pattern: only the first occurrence found by `IndexOf` is replaced (`ReplaceFirstOfPrefix`) |
| Strings.ReplaceFirstOfPrefix | src/freshrss/freshrss.ts:49 | `replace("Auth=", "")` on a line starting with `Auth=` drops exactly that prefix |
| Strings.ReplaceAll | src/ses/client.ts:63-67 | `replace(/c/g, rep)`: every occurrence of the character replaced, the rest kept in place; `EscapeHtmlAppend` and `EscapeHtmlIsPerCharacter` build on it |
| Strings.ParseInt | src/bedrock/client.ts:79 | `parseInt(s, 10)`: leading white space, an optional sign, the longest digit run; `NaN` without a digit (`ParseIntNaN`), and a rendered count read back (`ParseIntOfDecimal`) |
| Strings.LeadingDigits | src/bedrock/client.ts:79 | the longest all-digit prefix |
| Strings.DecimalString | src/ses/client.ts:80 | the rendering of a count is non-empty decimal digits without a leading zero |
| Strings.ParseIntOfDecimal | src/bedrock/client.ts:79 | `parseInt` reads back a rendered count, whatever non-digit text follows it |
| Strings.DecimalStringInjective | src/ses/client.ts:80 | different counts render differently |
| Strings.ParseIntOfSigned | src/bedrock/client.ts:79 | `parseInt` reads `+` followed by digits as their value and `-` followed by digits as its negation, so a reply token `-2` names index -3 and is filtered out |
| Strings.ParseIntNaN | src/bedrock/client.ts:79-80 | a string with no digit after the optional sign parses to `NaN` |
| Email.EscapeHtml | src/ses/client.ts:62-68 | `escapeHtml`: equal to escaping each character on its own (`EscapeHtmlIsPerCharacter`), and undone by decoding the four entities (`EscapeHtmlRoundTrip`) |
| Email.EscapeHtmlIsPerCharacter | src/ses/client.ts:62-68 | the chain of four replacements, `&` first, equals escaping each character on its own |
| Email.EscapeHtmlAppend | src/ses/client.ts:62-68 | escaping a concatenation escapes each part in place, so characters keep their order |
| Email.EscapeHtmlHasNoMarkup | src/ses/client.ts:62-68 | the output has no `<`, `>` or `"` |
| Email.EscapeHtmlAmpersands | src/ses/client.ts:63-67 | every `&` of the output starts `&amp;`, `&lt;`, `&gt;` or `&quot;` |
| Email.EscapeHtmlRoundTrip | src/ses/client.ts:63-67 | decoding the four entities recovers the input |
| Email.EscapeHtmlFixedPoint | src/ses/client.ts:62-68 | a string without `&`, `<`, `>` and `"` is unchanged |
| Email.ComposeEmail | src/ses/client.ts:72-95 | the message goes from the configured sender to the one recipient; an empty list gives the two "no articles" bodies |
| Email.TextBody | src/ses/client.ts:11-29 | `buildEmailBody`: the "no articles" text for an empty list; otherwise the heading, the entries a blank line apart, a rule and the footer (`BodiesOpenWithHeading`, `TextBodyListsArticles`, `BodiesCloseWithFooter`) |
| Email.HtmlBody | src/ses/client.ts:31-60 | `buildEmailHtml`: the "no articles" paragraph for an empty list; otherwise the heading, one escaped list item per article, and the footer (`BodiesOpenWithHeading`, `HtmlBodyListsArticles`, `HtmlBodyInOrder`, `BodiesCloseWithFooter`) |
| Email.Subject | src/ses/client.ts:80 | `[RSS] 本日のおすすめ記事 (N件)`, whose count `parseInt` reads back (`SubjectNamesCount`) and which differs for different counts (`SubjectInjective`) |
| Email.SubjectNamesCount | src/ses/client.ts:80 | the subject is `[RSS] 本日のおすすめ記事 (` followed by a count that `parseInt` reads as the number of articles |
| Email.SubjectInjective | src/ses/client.ts:80 | different counts give different subjects |
| Email.HeadingNamesCount | src/ses/client.ts:23 | the heading names the count the same way |
| Email.BodiesOpenWithHeading | src/ses/client.ts:23-50 | both bodies of a non-empty digest open with the heading carrying the count |
| Email.BodiesCloseWithFooter | src/ses/client.ts:26-57 | both bodies of a non-empty digest end with the summarize-rss footer: the text body after a `---` rule, the HTML body in a paragraph after an `<hr>` |
| Email.TextBodyListsArticles | src/ses/client.ts:16-28 | entry i is `- [feedTitle] title`, a newline, two spaces and the url; it occurs in the text body, and entry i+1 follows it after a blank line |
| Email.HtmlBodyListsArticles | src/ses/client.ts:36-44 | the list item of article i, with feed title, url and title escaped, occurs in the HTML body |
| Email.HtmlBodyInOrder | src/ses/client.ts:36-44 | list item i+1 follows list item i after one newline |
| FreshRss.FindAuthLine | src/freshrss/freshrss.ts:44 | a line found starts with `Auth=` and is one of the lines; none is found exactly when no line starts with `Auth=` |
| FreshRss.FindAuthLineFirst | src/freshrss/freshrss.ts:44 | the first line starting with `Auth=` is the one found |
| FreshRss.LoginOutcome | src/freshrss/freshrss.ts:39-49 | the token of a login reply or the error `authenticate` throws, as `LoginReadsAuthLine` and `LoginFailures` state |
| FreshRss.AuthenticateStep | src/freshrss/freshrss.ts:19-52 | `authenticate` on the client state: the cached token without a request, or one login whose token is cached (`AuthenticateCachesToken`) |
| FreshRss.LoginReadsAuthLine | src/freshrss/freshrss.ts:43-49 | an ok login reply whose first `Auth=` line is `Auth=<token>` yields `<token>` |
| FreshRss.LoginFailures | src/freshrss/freshrss.ts:39-47 | a non-ok status and a reply without an `Auth=` line are the two errors; a token always comes from an `Auth=` line |
| FreshRss.AuthenticateCachesToken | src/freshrss/freshrss.ts:19-52 | a truthy cached token is returned without a request; otherwise one login request is sent, a success caches the token, and a failure leaves the cache as it was |
| FreshRss.FolderIds | src/freshrss/freshrss.ts:74-76 | the ids of exactly the tags of type `folder` |
| FreshRss.FolderIdsAppend | src/freshrss/freshrss.ts:74-76 | folder ids keep the reply's order |
| FreshRss.ToArticle | src/freshrss/freshrss.ts:101-106 | same id and title, feed title from `origin.title`, url the first canonical link or `""` |
| FreshRss.ToArticles | src/freshrss/freshrss.ts:101-106 | one article per item, in order |
| FreshRss.EditTagForm | src/freshrss/freshrss.ts:135-140 | the form is `a=` the read state, `T=` the edit token, then one `i=` per id in order |
| FreshRss.BuildEditTagBody | src/freshrss/freshrss.ts:135-140 | the loop that appends one field per id builds that form |
| FreshRss.MarkAsReadStep | src/freshrss/freshrss.ts:109-157 | `markAsRead` on the client state: nothing for no ids, otherwise login, the token GET and the `edit-tag` POST (`MarkNothingSendsNothing`, `MarkAsReadPostsEveryId`, `NonOkStatusThrows`) |
| FreshRss.MarkNothingSendsNothing | src/freshrss/freshrss.ts:110-113 | `markAsRead([])` succeeds without logging in or sending anything |
| FreshRss.MarkAsReadPostsEveryId | src/freshrss/freshrss.ts:116-152 | a successful `markAsRead` ends with the token GET and the `edit-tag` POST, whose form names every id in order after the edit token the server handed out |
| FreshRss.NonOkStatusThrows | src/freshrss/freshrss.ts:54-157 | whether the token was cached or just fetched: a failed login ends `getMyCategories`, `getUnreadArticles` and a non-empty `markAsRead` with the login's error; after a successful login, a non-ok status of the tag list, the stream, the edit token or the `edit-tag` POST is the error naming that status |
| FreshRss.FreshRssClient.constructor | src/freshrss/freshrss.ts:17 | a new client has no token and has sent nothing |
| FreshRss.FreshRssClient.Fetch | src/freshrss/freshrss.ts:25-37 | the reply is the server's answer given the earlier requests, and the request is logged |
| FreshRss.FreshRssClient.Authenticate | src/freshrss/freshrss.ts:19-52 | the result and new state of `authenticate` |
| FreshRss.FreshRssClient.GetMyCategories | src/freshrss/freshrss.ts:54-79 | the result and new state of `getMyCategories` |
| FreshRss.FreshRssClient.GetUnreadArticles | src/freshrss/freshrss.ts:81-107 | the result and new state of `getUnreadArticles` |
| FreshRss.FreshRssClient.MarkAsRead | src/freshrss/freshrss.ts:109-157 | the result and new state of `markAsRead` |
| Pipeline.RunProgram | src/index.ts:21-61 | with the SES client assumed built (see "Left out"), the calls and exit code are those of the whole program: config load, `main`, and exit 1 on any error |
| Pipeline.ProcessAll | src/index.ts:30-55 | the `for` loop makes the calls of the loop over the categories and stops at the first error |
| Pipeline.ProcessOne | src/index.ts:31-54 | the body of the loop makes the calls of one iteration |
| Pipeline.ProcessCategory | src/index.ts:31-54 | one iteration of the loop: fetch, then on a non-empty result filter, mail and mark (`ProcessCategorySound`, `ProcessCategoryFetchesOnce`, `MailCarriesSelection`) |
| Pipeline.ProcessCategorySound | src/index.ts:31-54 | one iteration keeps the trace well formed; it fails exactly when its last call failed, and otherwise ends where the next one may begin |
| Pipeline.FilterSound | src/index.ts:38-41 | the same for the filter and what follows it |
| Pipeline.MailSound | src/index.ts:43-46 | the same for the mail and what follows it |
| Pipeline.MarkSound | src/index.ts:48-51 | the same for `markAsRead` |
| Pipeline.ProcessCategoriesSound | src/index.ts:30-55 | the same for the whole loop |
| Pipeline.ProcessCategoryFetchesOnce | src/index.ts:32 | one iteration fetches its category once and no other |
| Pipeline.IterationFetchesItsCategory | src/index.ts:30-32 | the loop body of `main` fetches exactly its own category |
| Pipeline.CompletedLoopFetchesAll | src/index.ts:30-32 | a loop that completes fetches every category once, in the order given |
| Pipeline.FailedLoopFetchesPrefix | src/index.ts:30-55 | a loop that fails has fetched a non-empty prefix of the categories, in order, and nothing after the one that failed |
| Pipeline.RunMain | src/index.ts:21-56 | `main` for a loaded config: `getMyCategories`, then the loop over its categories (`RunMainSound`, `RunMainCategoriesInOrder`) |
| Pipeline.Program | src/index.ts:13-61 | the whole program with the SES client assumed built: load the config, then `main`; any error ends it (`ConfigFailsFirst`, `ExitCodeReportsError`) |
| Pipeline.RunMainSound | src/index.ts:28-55 | `main` makes a well-formed trace that opens with `getMyCategories` and fails exactly when its last call got an error |
| Pipeline.RunMainCategoriesInOrder | src/index.ts:29-32 | `main` fetches the categories in the order `getMyCategories` returned them: all of them when it completes, a non-empty prefix when it fails |
| Pipeline.EmptyFetchSkips | src/index.ts:33-36 | a fetch that found nothing is followed by the next fetch, not by a filter, a mail or `markAsRead` |
| Pipeline.FetchThenFilter | src/index.ts:32-40 | a non-empty fetch is followed by `Converse` on its numbered titles |
| Pipeline.FilterThenMail | src/index.ts:40-45 | `Converse` is followed by the mail |
| Pipeline.MailThenMark | src/index.ts:45-51 | the mail is followed by `markAsRead` |
| Pipeline.CompletedIterations | src/index.ts:32-51 | in a run that did not fail, every non-empty fetch is followed by `Converse`, the mail and `markAsRead` of all its ids |
| Pipeline.MailCarriesSelection | src/index.ts:40-45 | the mail is the message composed from exactly the articles selected from the reply to the fetch before it |
| Pipeline.MainMailCarriesSelection | src/index.ts:40-45 | in `main`, the mail renders for the configured addresses exactly what `filterArticles` selected, and `Converse` got the numbered titles of the fetch |
| Pipeline.MarkNamesEveryFetched | src/index.ts:50-51 | `markAsRead` names the ids of every fetched article, in fetch order, whatever was selected |
| Pipeline.ConfigFailsFirst | src/config.ts:29-49 | a config that fails to load ends the program before any call, with exit code 1 |
| Pipeline.NothingAfterError | src/index.ts:58-61 | no call follows one that got an error |
| Pipeline.ExitCodeReportsError | src/index.ts:58-61 | the exit code is 1 exactly when some call got an error |
| Pipeline.CreateFreshRssClient | src/index.ts:13-19 | `createFreshRSSClient`: the mock client when `useMock` is set, the remote client otherwise (`MockIgnoresRemote`, `MockRun`, `RemoteRunFollowsClient`) |
| Pipeline.RemoteRunFollowsClient | src/index.ts:13-19 | with the mock switched off, `main` runs on the remote client: the trace is well formed against it and fails exactly when one of its calls, or a Bedrock or SES call, got an error |
| Pipeline.MockIgnoresRemote | src/index.ts:13-19 | with the mock switched on, the FreshRSS client passed in is never used |
| Pipeline.MockRun | src/freshrss/mock.ts:60-74 | with the mock, the two mock categories are fetched in order, every `markAsRead` names the eight mock articles, and only the Bedrock or SES call can fail |

## Left out

- Network I/O has no model of its own. `fetch`, the Bedrock `Converse` call
  and the SES send are oracles: functions of the calls made before them and
  of the request. Loading `.env.local` is replaced by passing the
  environment in as a map.
- Promises and `await`: every call runs to completion before the next one,
  as `main` awaits each of them.
- `src/logger.ts` and every log call: they only write to the console.
- `Pipeline.FeedClient` is the `IFreshRSSClient` interface, taken as an
  oracle. The real client is modelled on its own in `FreshRss`, and no lemma
  composes the two.
- `Pipeline.Steps`: the run is defined for any steps. Only `MainSteps`
  comes from the source, and `MainMailCarriesSelection` instantiates the
  mail property for it.
- The text of `SYSTEM_PROMPT` is not modelled. `config.bedrock.modelId`
  (read at `src/bedrock/client.ts:45` and `:55`) is not defined by
  `config`, so the model id and the system prompt are left out of the
  `Converse` call, which carries only the user message.
- The summarization prompts are placeholders around the real attribution
  sentence. Only the presence of that sentence and the model id are stated.
- `src/ses/client.ts:9` builds the SES client with `config.aws.region`, but
  `config` (`src/config.ts:29-49`) has no `aws` section. As written, reading
  `region` of `undefined` throws a `TypeError` when `src/index.ts` imports
  `./ses/client.js`, before `main` runs and before any request. So the
  program exits with status 1 for every environment, and a type checker
  rejects the line. `Pipeline.Program` and `Pipeline.RunProgram` assume that
  the client is built, as with `config.ses.region`, and model the program the
  rest of the code describes. The AWS clients and their regions are not
  modelled otherwise.
- JSON decoding. A reply carries its body both as text and as an
  already-decoded value: a tag list, a stream of items, or anything else.
  A reply that lacks the fields the client reads is the error
  `MalformedReplyMessage`, in place of the runtime's `TypeError` text.
  A stream item's `canonical` links are taken to carry `href`: the source
  gives `""` for a first entry without one (`item.canonical[0]?.href ?? ""`),
  a case the model's list of link strings cannot express.
- URL and form encoding. URLs are built by concatenation, as in the source.
  The `URLSearchParams` serialisation of a form and the `Content-Type`
  headers are left out. A form is its list of fields.
- Strings.ParseInt: does not model the loss of precision of JavaScript
  numbers above 2^53. Values are unbounded integers.
- Strings are sequences of Unicode scalar values, while JavaScript strings
  are UTF-16. Lengths differ for characters outside the Basic Multilingual
  Plane. Only the ends of `trim` and the offsets in the lemmas depend on
  lengths.
- CategoryConfig.GetCategoryConfig: does not model lookups of inherited
  object keys such as `"constructor"`, which JavaScript resolves through the
  prototype instead of giving `null`. The table is a finite map. The same
  holds for Summarization.Get.
- Selection.FilterArticles: the `a !== undefined` filter at
  `src/bedrock/client.ts:85` is left out. Every index that reaches it is in
  range, so it removes nothing.
- The mock client is its constant data (`MockFeed`) wrapped as a
  `FeedClient`. Its log calls and its no-op `markAsRead` are not modelled
  beyond returning success.
- `src/bedrock/model.ts` and `src/freshrss/client.ts` are constants and
  types. They appear as `Articles.BedrockModel` and `Articles.Article`.
- The purity of the table lookups ("same id, same result") holds of every
  Dafny function, so it has no lemma of its own.
