# Calificaciones FCiencias — a Dafny model

This project models the grade-lookup system of a course at the Facultad de
Ciencias. The system has three services:

- **telegram-bot**: a Telegram bot. It registers chats with `/start`. `/consultar <número>` checks the account number's format, allows each chat two queries per calendar day (recorded in a SQLite `usage` table) and forwards the query to the gateway.
- **api-gateway**: an HTTP gateway. It first asks the Notion service whether the student is on the class roster. It then fetches the grades. From them it builds the reply: one block per evaluation kind, a remedial notice or the final score with a badge, or only the first-round final-exam grade.
- **notion-service**: the service in front of the Notion databases. It answers `/valida_en_lista` (the roster email), `/calificaciones` (six lookups: weekly exams, homework, midterms, problem sets, practical project, finals) and `/calificacionfinal` (the final grade text).

The model has five modules:

- `Wrappers`: `Option`.
- `JsText`: the JavaScript string primitives the services rely on, namely `String.prototype.trim`, `parseInt` without a radix, and decimal rendering of a counter.
- `TelegramBot`: the usage limiter and the command handlers. The bot's database is a class `BotDb` whose `usage` and `chats` fields its methods update in place.
- `NotionService`: Notion tables as sequences of pages, and the three handlers as functions from a store and an account to a response.
- `ApiGateway`: `printDetalle` as a loop, the decision chain of `/consultar` as a function `Decide`, the method `Consultar` that builds the reply step by step, and `/final`.

Replies are modelled as structured values, not text. A bot reply is a `ConsultarReply` constructor. A gateway message is a sequence of `Part`s, one per line the gateway appends.

Some behaviours of the code worth noting, all of which the model reproduces:

- A null course average adds 0 to `promedio`, because JavaScript converts `null` to `0` in arithmetic.
- The first-round short-circuit applies only after all six lookups have succeeded.
- A failure of `/calificaciones` other than 404 ends as a 500 "Error interno". The gateway first renders the error body as grades, and that throws when `printDetalle` indexes an undefined map.
- When `/calificacionfinal` answers 500, `/final` still replies 200 with the text `undefined` embedded.

## Model

| member | source | states |
|---|---|---|
| JsText.Trim | telegram-bot/index.js:152 | the result is the infix of the argument left after removing every leading and trailing ECMAScript white-space or line-terminator character; it is empty or starts and ends with a non-space |
| JsText.TrimStart | telegram-bot/index.js:152 | the result is a suffix of the input, everything removed is white space, and the result does not start with white space |
| JsText.TrimEnd | telegram-bot/index.js:152 | the result is a prefix of the input, everything removed is white space, and the result does not end with white space |
| JsText.ParseIntBlank | notion-service/index.js:13-21 | `parseInt` with no radix gives NaN for an empty or all-white-space account number, which the roster route then rejects |
| JsText.ParseIntDigitStart | notion-service/index.js:13-21 | `parseInt` with no radix reads a string that starts with a decimal digit (and not with a `0x` prefix) as a non-negative number, whatever follows the digits |
| JsText.ParseIntDigits | notion-service/index.js:13 | `parseInt` of a nonempty decimal digit string is a number (not NaN), namely the string's decimal value |
| JsText.ParseIntLeadingZero | notion-service/index.js:21 | a leading `0` does not change what `parseInt` yields, so `0321176898` and `321176898` filter the roster by the same number |
| JsText.DecimalString | notion-service/index.js:150 | the rendering of a counter `${i + 1}` is nonempty, all digits, has no leading zero for positive values and reads back as the same number |
| JsText.DecimalStringInjective | notion-service/index.js:150 | distinct counters render to distinct strings |
| TelegramBot.IsValidAccountNumber | telegram-bot/index.js:32-34 | `^\d{8,10}$` accepts exactly the strings of 8 to 10 ASCII digits |
| TelegramBot.LimitStep | telegram-bot/index.js:36-98 | a call is allowed iff the chat's budget for today (2 with no row or a row from another day, 0 once two calls were counted today, else 1) is positive; an allowed call lowers it by one and dates the row today; a refused call leaves the row as it was; `remaining` is the new budget, 0 or 1, and 0 when refused |
| TelegramBot.AfterOtherChat | telegram-bot/index.js:40-45 | a call by one chat does not change another chat's usage row |
| TelegramBot.AdmittedWithinBudget | telegram-bot/index.js:36-98 | in any sequence of calls in which one chat's calls all fall on one day, that chat gets no more calls admitted than its starting budget for that day |
| TelegramBot.AtMostTwoPerDay | telegram-bot/index.js:36-98 | however calls of many chats interleave, a chat is admitted at most two queries per day |
| TelegramBot.BotDb.constructor | telegram-bot/index.js:10-30 | a `bot.db` that does not exist yet: `CREATE TABLE IF NOT EXISTS` creates both tables empty |
| TelegramBot.BotDb.Open | telegram-bot/index.js:10-30 | a restart over an existing `bot.db`: both tables keep every row they had, so today's counts survive |
| TelegramBot.BotDb.CheckUsageLimit | telegram-bot/index.js:36-98 | the four branches: no row gives (allowed, 1) and inserts count 1; same day with count ≥ 2 gives (refused, 0) and writes nothing; same day with count < 2 gives (allowed, 0) and stores count 2; another day gives (allowed, 1) and stores count 1; other chats' rows and the chat registry are untouched |
| TelegramBot.BotDb.Start | telegram-bot/index.js:101-118 | a chat already registered gets the "already started" reply, a new one the welcome; afterwards the chat is registered and usage is untouched |
| TelegramBot.BotDb.Consultar | telegram-bot/index.js:140-200 | a missing or empty argument gives the missing-account reply, and an invalid trimmed argument the invalid-format reply, both without touching usage; otherwise the limiter runs, and the reply is "limit reached" when refused, the gateway's message with the remaining count on success, the gateway's own error text for a 404 or 400, and the generic error otherwise |
| TelegramBot.GatewayReply | telegram-bot/index.js:181-197 | the gateway's message is shown with the remaining count iff the gateway answered; its error text is shown iff it rejected with 404 or 400; anything else, a missing answer included, gives the generic error |
| TelegramBot.RepeatedStart | telegram-bot/index.js:104-111 | a second `/start` from the same chat always gets the "already started" reply |
| TelegramBot.TwoDays | telegram-bot/index.js:36-98 | for a new chat, three calls on one day yield (allowed, 1), (allowed, 0), (refused, 0), and the next day's call yields (allowed, 1) again |
| NotionService.LabelInjective | notion-service/index.js:150-172 | keys `Semanal 1`, `Semanal 2`, … built from one prefix are pairwise distinct |
| NotionService.Filter | notion-service/index.js:50-56 | a query returns no more pages than the table holds |
| NotionService.FilterMembers | notion-service/index.js:50-56 | every page a query returns is in the table and satisfies the filter |
| NotionService.FilterEmpty | notion-service/index.js:58 | a query returns no page iff no page of the table satisfies the filter |
| NotionService.FilterHead | notion-service/index.js:62 | `results[0]` is the first page of the table, in table order, that satisfies the filter |
| NotionService.QueryMembers | notion-service/index.js:50-56 | a grade query returns exactly the pages of its table whose `Cuenta` text equals the account as given |
| NotionService.RosterQueryMembers | notion-service/index.js:17-23 | the roster query returns exactly the roster pages whose numeric `Cuenta` equals the parsed account number |
| NotionService.FirstMissing | notion-service/index.js:50-137 | names the first category, in lookup order, with no page for the account, or the number of categories when none is missing |
| NotionService.LookupAll | notion-service/index.js:50-137 | the six sequential lookups succeed iff every category has a page for the account, and then yield each table's first hit; otherwise they stop at the first category without one |
| NotionService.Detail | notion-service/index.js:150-172 | the detail map has exactly the keys `<name> 1` … `<name> n`, each mapped to that column of the page |
| NotionService.DetailSize | notion-service/index.js:150-172 | the detail map has exactly n entries |
| NotionService.WeightedAverage | notion-service/index.js:141-146 | the average weights midterms and homework 0.3 each, weekly exams 0.2, and practical and problems 0.1 each; with every average in [0, 10] the result is in [0, 10] |
| NotionService.WeightedAverageOfEqualGrades | notion-service/index.js:141-146 | the weights sum to one: equal averages give that average |
| NotionService.WeightedAverageExample | notion-service/index.js:141-146 | midterms 8, homework 7, weekly 9, practical 6, problems 10 give 7.9 |
| NotionService.NullAverageCountsAsZero | notion-service/index.js:141-146 | a missing (null) average contributes 0 to the course average, in each of the five places at once |
| NotionService.BuildReport | notion-service/index.js:141-180 | the report copies each category's average, holds detail maps of 10 weekly, 4 homework, 3 midterm and 4 problem-set entries, puts midterms 4 and 5 under `extra` (disjoint from the midterm detail), `promedio` is the weighted average and `finalPrimera` the finals page's first-round column |
| NotionService.ExtraApart | notion-service/index.js:162-177 | the `extra` keys `Parcial 4` and `Parcial 5` are not keys of the three-entry midterm detail |
| NotionService.Calificaciones | notion-service/index.js:45-186 | 404 iff some category has no page for the account; a 500 only when a page lacks a column the handler reads; on success the body is the report built from the first page of each table |
| NotionService.MissingCategory | notion-service/index.js:58-134 | a category with no page for the account makes the handler answer 404 |
| NotionService.RosterHead | notion-service/index.js:25-29 | when the roster query returns pages, its first page is the first roster page whose number column equals the account |
| NotionService.RosterEmpty | notion-service/index.js:25 | the roster query is empty iff no roster page has that number |
| NotionService.ValidaEnLista | notion-service/index.js:9-43 | 400 iff the account is absent, empty or not a number for `parseInt`; 404 iff no roster page has the parsed number; 500 iff the first matching page has no email; otherwise the body is that page's email, which is nonempty |
| NotionService.RosterEmail | notion-service/index.js:17-37 | the roster lookup by a parsed number fails only with 404 or 500; 404 iff no roster page carries the number; 500 iff the first matching page has no email; otherwise the body is that page's nonempty email |
| NotionService.RosterKnown | notion-service/index.js:13-33 | a number on the roster passes the roster check with its email, or fails only for a missing email (500) |
| NotionService.SameNumberSameAnswer | notion-service/index.js:13-21 | two non-empty account strings that `parseInt` reads alike get the same `/valida_en_lista` and `/calificacionfinal` answers on every store |
| NotionService.CalificacionFinal | notion-service/index.js:188-224 | 400 and 404 as for the roster check; 500 iff the first matching page has no `Calificacion` column; otherwise the body is the first rich-text fragment, or the empty string when there is none |
| NotionService.RosterGrade | notion-service/index.js:196-218 | the final-grade lookup by a parsed number fails only with 404 or 500; 404 iff no roster page carries the number; 500 iff the first matching page has no `Calificacion` column; otherwise the body is that column's first text fragment, or the empty string when it has none |
| NotionService.RosterNumericCategoriesTextual | notion-service/index.js:21-54 | `012345678` and `12345678` parse to the same number and so get the same `/valida_en_lista` and `/calificacionfinal` answers on every store, yet a grade page filed under `12345678` is found for `12345678` and not for `012345678` |
| ApiGateway.PrintDetalle | api-gateway/server.js:9-20 | the loop emits exactly n lines; line k shows key `<evaluacion> k` with that value rounded to two decimals, or 0 when the value is null or absent |
| ApiGateway.ItemLabelsDistinct | api-gateway/server.js:11-12 | no key is printed twice in one breakdown |
| ApiGateway.HalfUp | api-gateway/server.js:76-78 | arithmetic helper of `Round2` (models no line by itself): rounding a non-negative value half up lands on whole cents within half a cent of it |
| ApiGateway.Round2 | api-gateway/server.js:76-86 | `toFixed(2)` yields a whole number of cents within half a cent of its argument |
| ApiGateway.Round2OfCents | api-gateway/server.js:76-86 | arithmetic helper for `ScoreIsSum` (models no line by itself): `toFixed(2)` leaves a value already in cents unchanged, as when `extra1` is rounded a second time |
| ApiGateway.CentsSum | api-gateway/server.js:86 | arithmetic helper for `ScoreIsSum` (models no line by itself): a sum of values in cents is in cents |
| ApiGateway.CentsNegate | api-gateway/server.js:76-86 | arithmetic helper of `Round2` (models no line by itself): the negation of a value in cents is in cents |
| ApiGateway.Extra | api-gateway/server.js:76-77 | an extra-credit amount is a whole number of cents, 0 for a null exam, and within half a cent of the exam's grade |
| ApiGateway.FinalScore | api-gateway/server.js:78-86 | the final score is in cents and, when both extras are in cents, is exactly the rounded average (0 when null) plus the two extras |
| ApiGateway.Score | api-gateway/server.js:76-86 | a report's final score is in cents and within 1.5 cents of the exact sum of the average and the two extra exams (null counted as 0) |
| ApiGateway.ScoreIsSum | api-gateway/server.js:76-86 | the final score is the rounded average plus the two rounded extra midterms, and it is already in cents |
| ApiGateway.Tier | api-gateway/server.js:88-97 | star iff score ≥ 9, thumbs-up iff 8 ≤ score < 9, grimace iff 7 ≤ score < 8, lying face iff score < 7 |
| ApiGateway.TierMonotone | api-gateway/server.js:88-97 | a higher score never earns a lower badge |
| ApiGateway.LiteralTier | api-gateway/server.js:89-97 | the chain as written: star iff score ≥ 9, thumbs-up iff score < 9, so grimace and lying face are never given |
| ApiGateway.LiteralTierDiverges | api-gateway/server.js:91-97 | the chained comparisons agree with the intended bands iff the score is at least 8; 7.5 earns thumbs-up instead of grimace |
| ApiGateway.Decide | api-gateway/server.js:23-108 | the outcome is a 400, 404 or 500 rejection, the first-round grade, the remedial notice, or a graded reply whose badge is the intended tier `Tier` of its score, not the as-written chain (see Findings) |
| ApiGateway.GradedBadgeAsWritten | api-gateway/server.js:89-97 | for every graded outcome, the badge the code as written shows agrees with the intended badge iff the score is at least 8 |
| ApiGateway.MissingAccountIgnoresDownstream | api-gateway/server.js:25-26 | with no account number the reply is 400 whatever the services would answer |
| ApiGateway.RosterRejectionPassedOn | api-gateway/server.js:28-33 | a 404 or 400 from the roster check is passed on with its status and body, and the grades are never consulted |
| ApiGateway.OtherRosterAnswersContinue | api-gateway/server.js:33 | any other roster answer, a 500 included, lets the query continue as if the student were on the roster |
| ApiGateway.FirstRoundShortCircuit | api-gateway/server.js:44-48 | once `finalPrimera` is set, the reply depends on nothing else in the grades |
| ApiGateway.RemedialBoundary | api-gateway/server.js:70 | a weekly average of 5.9 sends the student to the final exam; 6.0 or a missing average does not |
| ApiGateway.RemedialExactly | api-gateway/server.js:70-100 | past the earlier checks and with no first-round score, the reply is the remedial notice iff the weekly average is present and below 6, and otherwise the graded score with its tier |
| ApiGateway.GradesNotFoundPassedOn | api-gateway/server.js:40 | after a roster pass, a 404 from the grades lookup is passed on with its body |
| ApiGateway.GradesFailureIsInternal | api-gateway/server.js:40-106 | after a roster pass, any other failure of the grades lookup ends as 500 "Error interno", because its error body is rendered as grades and that throws |
| ApiGateway.RosterPasses | api-gateway/server.js:28-33 | for a numeric account that some roster page carries, the roster check never stops `/consultar` with 404 or 400 |
| ApiGateway.AppendBlock | api-gateway/server.js:52-62 | one section appends its average line followed by `printDetalle`'s lines to the message |
| ApiGateway.AppendBreakdown | api-gateway/server.js:50-68 | the message holds the intro, the four sections in order and the practical grade line (or "not yet available" when null) |
| ApiGateway.BreakdownShape | api-gateway/server.js:50-68 | the breakdown has 27 lines: the introduction, the weekly block (11 lines), homework (5), midterms (4) and problem sets (5), then the practical line, which is "not yet available" iff the practical grade is null |
| ApiGateway.Consultar | api-gateway/server.js:23-108 | the reply matches `Decide`: a rejection with its status and body; the first-round grade alone; the breakdown plus the remedial notice; or the breakdown plus the extra credit, the course average rounded to cents (0 when null) and the intended badge (see Findings) with the final score |
| ApiGateway.Final | api-gateway/server.js:110-133 | 400 for a missing account; the service's 404 or 400 passed on; otherwise a message that embeds the service's grade when it answered 200, and `undefined` when it failed otherwise |
| ApiGateway.NoPartialReport | api-gateway/server.js:28-40 | a rostered student with any grade table missing gets a 404 with the service's "no records" error, never a partial report |

## Left out

- HTTP, Telegram and Notion transport: each service call is a parameter. The roster, grade and final-grade answers are the inputs of the gateway functions. The gateway's answer is an input of the bot's `Consultar`.
- SQLite errors and the extra early `resolve` in the no-row branch: the model assumes every write succeeds, so both resolutions carry the same value.
- Concurrency between handlers: two `/consultar` commands from one chat that interleave between the read and the write of the usage row can both be admitted. `BotDb` runs each call atomically.
- The current date: `new Date().toISOString()` is a `today` parameter.
- Floating point: grades are reals. `toFixed(2)` is exact rounding half away from zero, without binary-double ties.
- Message text, emoji, Markdown and the course's exam dates are not modelled; parts of a reply are constructors.
- `JsText.ParseInt` does not lose precision on numbers beyond 2^53.
- Notion's distinction between formula and number columns is not modelled: each column is an optional real. A formula that yields a non-number is not modelled either.
- The interim "Buscando calificaciones…" message and the console logging are left out, because neither changes a reply.
- `/help` and the command-matching regular expressions of `onText` are not modelled. The model receives the captured argument.
- ApiGateway.Decide: a graded outcome carries the intended badge `Tier`, not the one the chained comparison at api-gateway/server.js:91-93 yields (thumbs-up for every score below 9); `LiteralTier` and `GradedBadgeAsWritten` state the code as written.
- ApiGateway.Consultar: the final-grade line carries the intended badge `Tier(final)`, not the as-written thumbs-up below 9, for the same reason.
- `NotionService.Calificaciones` does not model an absent `accountNumber` query parameter. The gateway always sends one.

## Findings

| source | as written | input that shows it | evidently intended | confidence | as-written member | corrected member |
|---|---|---|---|---|---|---|
| api-gateway/server.js:91-97 | `8.00 <= final < 9.00` compares the boolean `8.00 <= final` (0 or 1) with 9, which always holds, so every score below 9 gets 👍 | final score 7.50 (or 3.00) shows 👍 | 8 ≤ score < 9 gives 👍, 7 ≤ score < 8 gives 😬, below 7 gives 🤥 | high, not executed | ApiGateway.LiteralTierDiverges | ApiGateway.Tier |
