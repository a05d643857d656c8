# Trading-support bot: entitlement and weekly quota, in Dafny

This project models the core of a Telegram trading-support assistant. Its
server keeps one row per user: a package (`trial`, `Starter`, `Pro`, `Elite`
or anything an operator typed), a count of requests in the current weekly
window, when the trial started, and when the window started. Before a chat
request reaches the completion service, the server does four things in order:

1. It refuses an expired trial.
2. It restarts a window older than seven days.
3. It refuses the request when the count has reached the package's limit.
4. Otherwise it writes the count plus one.

After this it looks up the topic's prompt builder. The web client shows the
remaining allowance and decides when to force the upgrade screen, each with
its own limit table.

Modules: one per source file, with the server file split in two, plus three shared helper modules (`Limits`, `Objects`, `Wrappers`):

- `Limits` (limits.dfy): `Limit = Unbounded | Bounded(n)` in place of JavaScript's `Infinity`, `Reached`, i.e. `count >= limit`, and the clients' `LIMITS[pkg] ?? 0`.
- `Entitlement` (entitlement.dfy): the rules of server/server.js as functions. It covers rows, the limit table, the weekly reset, the consume step, the trial gate, the status reply, the two plan transitions and the whole chat handler (`HandleChat`).
- `UserStore` (store.dfy): class `Store`, which holds the `users` table as a `map` field. Its methods are the handlers, written step by step as the server runs them. Each is proved to answer and leave the table exactly as the `Entitlement` function says.
- `Prompts` (prompts.dfy): server/prompts.js. The system prompt, the five builders (through one `Template` per topic), `parts.join("\n\n")` and the topic lookup.
- `Menu` (menu.dfy): app/src/screens/Menu.jsx.
- `App` (app.dfy): app/src/App.jsx.
- `Objects` (objects.dfy): property reads on JavaScript object literals.
- `Wrappers` (wrappers.dfy): `Option`.

Times are integer milliseconds. `PRO_WEEKLY_LIMIT`, `STARTER_WEEKLY_LIMIT`
and `TRIAL_DURATION_HOURS` are the fields of `Entitlement.Config`.
`DefaultConfig` is (10, 5, 24). In the request body, a field that is missing
or empty (falsy in JavaScript) is the empty string.

The model follows the code, also where other text in the program promises
something else:

- A trial gets the Starter limit, 5 a week, and lasts `TRIAL_DURATION_HOURS` (24 by default). The start-trial screen (app/src/App.jsx:133) offers a "3-day trial with 15 messages".
- Pro gets 10 requests a week and never expires. The bot's greeting (bot/bot.js:9) offers a "PRO plan for 30 days with no sending limits".

Other behaviour of the code that the model keeps:

- The trial is checked only by the chat handler, not inside `checkAndIncrement`.
- Paid packages never expire.
- `activate` keeps `trial_start`.
- Nothing makes the read-modify-write atomic.
- The status endpoint reports `requests_week` without the weekly reset (server/server.js:130). After a stale week the menu can show a Pro row at 10 as "0 left" while the server admits its next request, so `Menu.RemainingIsWhatServerAdmits` and `App.ShowUpgradeMatchesServer` hold only within a live window.
- Reading an object literal with a key from outside also finds the members every object inherits (`toString`, `__proto__` and ten more). This holds for `prompts[topic]` on the server and for `LIMITS[pkg]` in both client screens. Module `Objects` (objects.dfy) models that read, and `Limits.ClientLimit` models the clients' `LIMITS[pkg] ?? 0`.

## Model

| member | source | states |
|---|---|---|
| Entitlement.NewTrial | server/server.js:62-72 | the upserted row is a trial with no requests whose trial and window both start now |
| Entitlement.Lookup | server/server.js:46-84 | getUser returns the stored row when there is one, otherwise the fresh trial row |
| Entitlement.Admit | server/server.js:59-76 | after getUser the id is present, and every row stored before is unchanged |
| UserStore.Store.GetUser | server/server.js:46-84 | returns `Lookup` and leaves the table as `Admit` says: an existing row is returned unchanged and nothing is written |
| Entitlement.WeeklyLimit | server/server.js:100-106 | Elite, and only Elite, is unbounded; Pro gets the Pro limit; Starter and trial get the Starter limit; any other package gets 0 |
| Entitlement.ResetWindow | server/server.js:92-99 | a window strictly older than seven days restarts at now with count 0; package and trial start are kept; afterwards the window is never stale |
| Entitlement.Consume | server/server.js:88-116 | the decision's limit is the package's; allowed iff the count after the reset is below it; the count then rises by exactly 1 if allowed and by 0 if not |
| UserStore.Store.CheckAndIncrement | server/server.js:88-116 | performs the reset write, the limit check and the increment write in place; the answer and the new table are those of `Consume` on the looked-up row |
| Entitlement.QuotaNeverExceeded | server/server.js:108-115 | a count at or below a finite limit is still at or below it after a request |
| Entitlement.DeniedChangesNothing | server/server.js:93-108 | a denied request leaves the row as the reset left it, and untouched within a live window |
| Entitlement.EliteAndUnknownPackages | server/server.js:101-108 | Elite is never denied; a package outside the table is always denied |
| Entitlement.StaleWindowAtLimitAdmitted | server/server.js:93-113 | the reset runs before the check, so for a package whose limit is not 0 a stale window at its limit admits the request and ends with count 1, the window restarting now |
| Entitlement.ExactlyOneWeekKeepsWindow | server/server.js:93 | exactly seven days after the window start there is no reset |
| Entitlement.ResetOncePerWindow | server/server.js:93-99 | resetting twice at the same time is resetting once |
| Entitlement.BurstSaturates | server/server.js:88-116 | of k requests in a row in one window, exactly the first `limit - used` are admitted, and none when the count is already above the limit; the count stops at the limit, or stays where it was above it |
| Entitlement.EliteBurstAllAdmitted | server/server.js:102-115 | every one of any number of Elite requests is admitted |
| Entitlement.StatusOf | server/server.js:121-131 | trialActive iff a trial with elapsed time below the duration; expired iff a trial that is not active; both false for other packages; package and count are passed through |
| UserStore.Store.UserStatus | server/server.js:119-132 | creates the row if absent, then answers `StatusOf` of it |
| Entitlement.GateDenialMeansExpired | server/server.js:187-192 | whenever the chat gate refuses a trial, the status says expired; they differ only when elapsed time equals the duration |
| Entitlement.StatusAndGateDisagreeAtBoundary | server/server.js:124 | at exactly the trial duration the status says expired (strict `<`) while the chat gate, with its strict `>`, still admits |
| Entitlement.TrialGateDenies | server/server.js:187-192 | only a trial row is refused, and a trial row exactly when now is strictly more than the trial length after its start |
| Entitlement.NewTrialIsLive | server/server.js:66-72 | a freshly created trial passes the chat gate, and it is active iff the duration is positive |
| Entitlement.TrialStarted | server/server.js:135-149 | rejected iff the user id is missing; otherwise the row becomes a fresh trial starting now and other rows are untouched |
| UserStore.Store.StartTrial | server/server.js:135-149 | writes the `TrialStarted` table, or nothing when it rejects |
| Entitlement.Activated | server/server.js:152-164 | rejected iff user id or package is missing; otherwise sets the package, count 0 and window start now, keeps the trial start (time 0 for a new row), and leaves other rows untouched |
| UserStore.Store.Activate | server/server.js:152-164 | writes the `Activated` table, or nothing when it rejects |
| Entitlement.ActivationTakesEffectAtOnce | server/server.js:155-162 | right after an activation the next request is judged by the new package's limit, and admitted iff that limit is not 0 |
| Entitlement.StartTrialTakesEffectAtOnce | server/server.js:139-147 | right after start-trial the next chat passes the trial gate, and it is admitted iff the Starter limit is positive |
| Entitlement.HandleChat | server/server.js:180-222 | the handler as the server runs it, with `prompts[topic]`: only the requesting user's row can change or appear, every other row is kept, and after anything but the missing-field refusal the user's row exists |
| Entitlement.Dispatch | server/server.js:201-221 | after the charge: "Unknown topic" iff the lookup found nothing; no response iff it found an inherited member that throws; something is sent iff it found a builder or a member that returns, and then the answer comes from the completion service; for a builder, what is sent is its messages on the message and image description |
| Entitlement.ReplyFrom | server/server.js:213-221 | a reply iff the completion has content, and then the reply is that content; "OpenAI request failed" iff the call failed; "No reply from OpenAI" otherwise |
| UserStore.Store.Chat | server/server.js:180-222 | runs the handler's steps against the table: field check, getUser, trial gate, checkAndIncrement, `prompts[topic]`, the builder call and the reply. Its answer, new table and sent payload are those of `HandleChat` |
| Entitlement.MissingFieldsChangeNothing | server/server.js:182 | a request without user id, topic or message is refused and nothing is read or written |
| Entitlement.ExpiredTrialConsumesNothing | server/server.js:187-193 | an expired trial is refused before any quota is spent |
| Entitlement.LimitReachedKeepsReset | server/server.js:195-198 | a request over its quota gets "Request limit reached" with its package's limit; the row is stored as the weekly reset left it, its count unchanged, and nothing is sent |
| Entitlement.RefusalsExactly | server/server.js:182-198 | "Missing required fields" iff a field is missing; "Trial expired" iff the fields are present and the trial gate refuses the row; "Request limit reached" iff, besides, the gate passes and the quota check denies |
| Entitlement.UnknownTopicStillConsumes | server/server.js:195-202 | every admitted request is counted whatever its topic; "Unknown topic" is answered iff the topic is neither a builder key nor an inherited member name, and then nothing is sent |
| Entitlement.InheritedTopicAfterCharge | server/server.js:195-211 | an admitted request whose topic is an inherited member name is counted and passes the topic guard; the nine members that throw leave it unanswered, and the other three send their return value for completion |
| Entitlement.SentOnlyWhenAdmitted | server/server.js:195-211 | something is sent iff all fields are present, the gate passes, the request is admitted and the topic is a builder key or one of `constructor`, `toString` and `isPrototypeOf`; it is a message list iff the topic is a builder key, and then it is that builder's messages; the request has been counted |
| Entitlement.ReplyOnlyAfterSending | server/server.js:207-221 | a reply is returned iff something was sent and the completion came back with content |
| Entitlement.FirstChatOfNewUser | server/server.js:185-211 | a new user's first chat on a builder topic at default limits is admitted, sends that builder's messages, and leaves a trial row with count 1 |
| Entitlement.HandleChatOwnKeys | server/server.js:180-222 | the handler with the lookup restricted to the five builders: every request is answered, and only message lists are sent |
| Entitlement.OwnKeysAnswerEveryRequest | server/server.js:201-204 | the own-key handler equals the server's handler on every topic that is not an inherited name; on those it charges the same and sends nothing |
| Prompts.TopicOf | server/prompts.js:38-109 | a key selects a builder iff it is one of the five topic keys, and the builder found is the one exported under that key |
| Prompts.TopicKeyRoundTrip | server/prompts.js:38-109 | every topic's key selects that topic |
| Prompts.FiveTopicKeys | server/prompts.js:38-109 | there are exactly five keys, one per topic |
| Prompts.Parts | server/prompts.js:39-53 | a builder has 1 part, or 2 for trade_setup, plus one screenshot part that comes first iff the URL is non-empty |
| Prompts.Build | server/prompts.js:31-36 | exactly two messages: the system prompt as the system message, then the user message, whose content is the topic's `Content` |
| Prompts.JoinCons | server/prompts.js:54 | joining puts a blank line between a part and the rest |
| Prompts.LayoutOf | server/prompts.js:54 | the joined parts are the template's head, the user's text and the template's tail |
| Prompts.ContentLayout | server/prompts.js:39-108 | every builder's user content is a head that depends only on topic and URL, then the user's text verbatim, then a tail that depends only on the topic |
| Prompts.LabelsDiffer | server/prompts.js:42-104 | each topic's screenshot label and input label differ at some position inside both |
| Prompts.ScreenshotFirstIffImageOf | server/prompts.js:41-43 | when a template's two labels differ, its content starts with the screenshot label iff the URL is non-empty |
| Prompts.ScreenshotFirstIffImage | server/prompts.js:41-43 | the content starts with the topic's screenshot label iff an image reference was given; the default `""` adds nothing |
| Prompts.NoImageSinglePart | server/prompts.js:58-108 | without an image, the four single-part builders send their label, the user's text and their instruction, and nothing else |
| Prompts.PromptsProperty | server/server.js:201-202 | `prompts[topic]` finds a builder iff the topic is one of the five keys, and then that key's builder; an inherited member iff the topic is one of the twelve Object.prototype names; nothing otherwise |
| Prompts.OwnBuilderProperty | server/server.js:201-202 | the own-key read finds exactly the five builders and never an inherited member |
| Prompts.InheritedNamePassesTopicGuard | server/server.js:201-202 | the topic `"toString"` passes the `!promptBuilder` guard although no builder has that name |
| Prompts.CallBuilder | server/server.js:204 | a found builder returns its messages; `constructor`, `toString` and `isPrototypeOf` return something that is not a message list; every other inherited member throws, and so does anything that is not a function |
| Prompts.GuardedCallOutcomes | server/server.js:201-204 | of the topics past the guard, the five keys yield messages, three inherited names yield something else, and the other nine throw |
| Limits.ClientLimit | app/src/screens/Menu.jsx:13 | `LIMITS[pkg] ?? 0`: the table's entry if it has one, else the inherited member for an Object.prototype name, else 0 |
| Menu.MenuLimit | app/src/screens/Menu.jsx:4-13 | trial 5, Starter 5, Pro 10, Elite unbounded (and only Elite); an inherited member for each of the twelve Object.prototype names; 0 for any other package |
| Menu.RemainingThisWeek | app/src/screens/Menu.jsx:14 | "unlimited" iff Elite; NaN iff an Object.prototype name; otherwise a count never above the limit, with used plus remaining equal to the limit while used is at most the limit, and 0 once used reaches it |
| Menu.DisplayedLimit | app/src/screens/Menu.jsx:23 | "∞" iff Elite; the number iff the remaining figure is a count, and then it is the menu's limit; nothing for the eleven inherited functions; a failed render for `__proto__` |
| Menu.MenuAgreesWithServerDefaults | app/src/screens/Menu.jsx:4-13 | the menu's table is the server's at default limits on every package name except the twelve inherited ones; for those the menu finds a member and the server gives 0 |
| Menu.RemainingIsWhatServerAdmits | app/src/screens/Menu.jsx:14 | within a live window, for every package: "unlimited" means every next request is admitted, a count n means exactly the next n are, and NaN appears only where the server admits none |
| Menu.MenuTopicsHaveBuilders | app/src/screens/Menu.jsx:30-43 | every menu button names a topic with a builder, and every builder has a button |
| App.AppLimit | app/src/App.jsx:8-11 | trial 15, Elite unbounded (and only Elite); an inherited member for each Object.prototype name; 0 for every other package, Starter and Pro included |
| App.ShowUpgradeAsWritten | app/src/App.jsx:73-77 | the upgrade screen is forced iff the package is neither Elite nor an Object.prototype name, and either it is not trial, or the trial has expired, or it has at least 15 requests |
| App.PaidSubscriberAlwaysSeesUpgrade | app/src/App.jsx:73-77 | as written, a Starter or Pro subscriber with no requests is sent to the upgrade screen although the server admits their next request |
| App.TrialLimitDisagreesWithServer | app/src/App.jsx:8-11 | as written, a live trial at 5 requests sees the menu although the server refuses its next request |
| App.ShowUpgradeMatchesServer | app/src/App.jsx:71-82 | with the server's table, upgrade is forced iff the trial has expired or the server would refuse the next request in this window |
| App.NextShowUpgrade | app/src/App.jsx:71-82 | a loaded status sets the flag to the as-written condition, whatever it was before; a refusal from the chat screen sets it |
| App.ShowUpgradeAfter | app/src/App.jsx:71-82 | after a sequence of status loads and refusals the flag is decided by the last event alone; earlier ones are forgotten |
| App.StatusLoadOverridesRefusal | app/src/App.jsx:121 | a status loaded after a refusal replaces the flag the refusal set with the as-written condition for that status |
| App.Render | app/src/App.jsx:94-159 | fixed precedence: Telegram wait, then error, then loading, then upgrade, then chat (topic set), then start-trial (trial not active), then menu; each screen iff its own condition holds and no earlier one's does |
| App.ExpiredTrialSeesUpgrade | app/src/App.jsx:110-112 | once its status has loaded, an expired trial lands on the upgrade screen whatever the topic or the earlier events |
| App.StartTrialPromptUnreachable | app/src/App.jsx:129-150 | once the flag is recomputed from a status the server produced, the start-trial prompt cannot be shown, under the as-written condition and under the corrected one |

## Left out

- Storage, HTTP, uploads and the completion call. Supabase is the `users` map. Express routing, multer and the `images` table of `/api/upload` are not modelled. The OpenAI call is the `Completion` parameter of `Chat`: it is the service's answer to whatever was sent, and a thrown error and an empty reply become `CompletionError` and `NoReply`. A payload that is not a message list is left to that parameter too; the service is expected to reject it, which the handler turns into "OpenAI request failed".
- What Express does after a handler throws. When the builder call throws (server/server.js:204, outside the `try`), the handler writes no response; `NoResponse` records that, and the framework's own reaction is not modelled.
- Errors from the store. The model's select always succeeds. In the code a failed select falls through to `upsert(..., {onConflict: "id"})` (server/server.js:63-76), which overwrites an existing row, a paid one included, with a fresh trial. A failed upsert, which the server throws, is not modelled either. Write errors in the other handlers are ignored by the server and not modelled.
- Activated: a row it inserts gets trial start 0, which assumes `trial_start` has no column default (a missing value reads as `new Date(null)`, time 0). The table's schema is not part of this model.
- Concurrency. Each request is handled alone. The server reads the count and writes count + 1 with no condition, so two simultaneous requests can both pass at `limit - 1`. The model says nothing about that race.
- Clocks. Each request has one `now`; the server reads the clock several times per request. Dates are integer milliseconds with no ISO-string round trip. The status compares `elapsedMs < hours * 3600000`, which is equivalent to the server's `elapsedMs / 3600000 < hours`.
- Configuration. `parseInt` of the environment variables is not modelled: the three values are natural numbers, so a malformed or negative variable is not represented.
- Types in the request body. Fields are strings; a non-string value in the JSON body is not represented.
- The client's side effects: React state updates, Telegram WebApp polling with `setInterval`/`setTimeout`, axios, and the Chat, Upgrade, Trial and entry screens. Only the pure decisions of App.jsx and Menu.jsx are modelled. In `App.Render` the flag is a parameter; `App.ShowUpgradeAfter` gives its value after the effect has run. The one render that React performs before the effect is not modelled. `Menu.DisplayedLimit`'s `RenderFails` stands for the render throwing; what the page then shows is not modelled.
- Payments. `/api/submit-payment` and payment approval are not modelled: their server code is not part of this model.

## Findings

| source | as written | input that shows it | evidently intended | confidence | as-written member | corrected member |
|---|---|---|---|---|---|---|
| app/src/App.jsx:8-11 | App's `LIMITS` lists only `trial: 15` and `Elite`, so `LIMITS[pkg] ?? 0` gives Starter and Pro a limit of 0, and `requestsWeek >= 0` forces the upgrade screen | a status `{package: "Pro", requestsWeek: 0, expired: false}`: a paying subscriber sees only the upgrade screen; a live trial at 5 requests sees the menu while the server refuses it | the client uses the server's table: trial 5, Starter 5, Pro 10, Elite unbounded, any other package 0 | not executed; high for Starter and Pro, medium for the trial value, since the start-trial screen (app/src/App.jsx:133) itself promises 15 messages | App.PaidSubscriberAlwaysSeesUpgrade | App.ShowUpgradeMatchesServer |
| server/server.js:201-204 | `prompts[topic]` also finds the members every object inherits, so the "Unknown topic" guard lets twelve more names through, after the request has been counted; line 204 then calls the inherited member | topic `"toString"` with a valid user id and message: the request is counted and `"[object Undefined]"` goes to the completion service instead of messages; topic `"valueOf"` throws at line 204, outside the `try`, and the request gets no response | only the five builder keys are accepted; every other topic is refused with "Unknown topic" | not executed; high | Entitlement.InheritedTopicAfterCharge | Entitlement.HandleChatOwnKeys |

`HandleChat`, `Store.Chat` and the upgrade flag (`App.NextShowUpgrade`)
keep the code as written. `Entitlement.HandleChatOwnKeys` and
`App.ShowUpgrade` are the corrected versions, and
`Entitlement.OwnKeysAnswerEveryRequest` and `App.ShowUpgradeMatchesServer`
relate each to the code.
