# FinView chat responder

A Dafny model of the chat back end of the FinView demo site (`server.js`).
A `POST /api/chat` request carries a free-text message and an optional user id.
The server lower-cases the message and picks the first rule whose substring test matches:
- three personal rules, for users found in the mock user table;
- then eight keyword tests (SIP, lump sum, low-risk portfolio, mutual funds with a simpler variant, FinView, tax, EMI, savings);
- then a default.

The chosen rule fills a three-field template (`summary`, `details`, `actionableInsight`).
The route renders that template as one Markdown-like reply string.

The model is pure, like the source:
- `Responder.Classify` picks a rule tag from the lower-cased message and the resolved snapshot.
- `Responder.Render` fills the tag's template.
- `Responder.GenerateResponse` composes the two.
- `ChatRoute.HandleChat` is the route.

The user table is a parameter (`users`), and `UserData.MOCK_USER_DATA` is the source's table.
Number-to-text (`toLocaleString`) is also a parameter, `show: int -> string`, so no lemma depends on a locale.

Modules, one per concern:
- `Wrappers`: option and result types.
- `JsString`: `toLowerCase`, `includes`, `trim`, `join`.
- `CategoryRegex`: the search of `/on (.*?) this month/`.
- `JsNumber`: `toFixed(1)` of a percentage.
- `UserData`: the snapshot, the mock table and the two lookups.
- `Responder` and `ResponderFacts`: the dispatcher and what it promises.
- `ChatRoute`: the formatter and the handler.

Behaviour of the code that is easy to misread:
- **Spending rule.** Once the pattern matches there is no fall-through: `categories[c] || 0` is never `null` with a snapshot present. So a matched spending question always gets the spending template, and an unknown category is reported as 0 spent (`ResponderFacts.UnknownCategorySpentZero`).
- **Division by zero.** The percentages are divided without a guard. The model prints what JavaScript prints (`NaN`, `Infinity`, `-Infinity`) and does not assume a non-zero divisor (`ResponderFacts.ZeroIncomeSavingsRate`).
- **"sip" messages.** For a known user a personal rule answers before the SIP keyword is tested, so a message containing "sip" gets the SIP template only when no personal rule answers first (`ResponderFacts.SipAnswer`, `ResponderFacts.SpendingTakesPriority`).
- **Monthly total.** The spending rule divides by the sum of the category amounts. The balance rule subtracts that sum from the income and quotes it, and the total-expense rule quotes it. None of them uses the snapshot's `totalExpenses`; for the mock user these are 34000 and 35000 (`UserData.MockMonthlyTotal`, `ResponderFacts.MockBalanceReply`, `ResponderFacts.TotalExpensesRendered`).

## Model

| member | source | states |
|---|---|---|
| `JsString.Lower` | server.js:52 | the result has the input's length, each ASCII or Latin-1 capital becomes its lower-case letter, every other character is kept, and no ASCII capital remains |
| `JsString.LowerIdempotent` | server.js:52 | lower-casing twice is lower-casing once |
| `JsString.Contains` | server.js:69 | `includes` succeeds exactly when the pattern occurs at some position |
| `JsString.IndexFrom` | server.js:69 | the search returns the first occurrence at or after the start, or none when there is none |
| `JsString.ContainsTransitive` | server.js:137 | a string containing `p` contains every substring of `p` |
| `JsString.TrimBounds` | server.js:72 | the trimmed part is bounded by white space outside and starts and ends with non-white characters |
| `JsString.Trim` | server.js:72 | the result is a slice of the input, everything cut off on either side is white space, and the result neither starts nor ends with white space |
| `JsString.TrimIdempotent` | server.js:72 | trimming a trimmed string changes nothing |
| `JsString.TrimKeepsLower` | server.js:72 | a trimmed lower-case string stays lower-case |
| `CategoryRegex.LazyEnd` | server.js:70 | the lazy group stops at the first ` this month` reachable without crossing a line terminator, and fails exactly when none is |
| `CategoryRegex.SearchFrom` | server.js:70 | the found match is the leftmost start and, at that start, the shortest capture; none is found exactly when no match exists |
| `CategoryRegex.Capture` | server.js:70-71 | `match` gives `null` exactly when the pattern matches nowhere |
| `CategoryRegex.CaptureIsLeftmostLazy` | server.js:70 | the capture is the group of the leftmost, shortest match |
| `CategoryRegex.CaptureHasNoLineTerminator` | server.js:70 | the captured category holds no line terminator |
| `JsNumber.Decimal` | server.js:92 | the integer part printed is a non-empty string of decimal digits |
| `JsNumber.DecimalRoundTrip` | server.js:92 | the digits `toFixed` prints read back as the number |
| `JsNumber.DecimalNoLeadingZero` | server.js:92 | the integer part printed has no leading zero unless it is 0 |
| `JsNumber.Fixed1Text` | server.js:92 | the text has at least three characters, starts with a minus exactly for a negative value, and a finite value ends in a point and its tenths digit |
| `JsNumber.Fixed1TextShape` | server.js:92 | a finite `toFixed(1)` text is an optional minus, then exactly the integer digits (starting with a digit), a point and one digit |
| `JsNumber.RoundHalfUp` | server.js:92 | the tenths printed are the integer nearest the exact value, the larger one on a tie |
| `JsNumber.PercentOf` | server.js:92 | `((a / b) * 100).toFixed(1)` is NaN for 0/0, a signed infinity for a non-zero numerator over 0, otherwise the rounded tenths, negative exactly when the quotient is |
| `JsNumber.PercentOfShareBounded` | server.js:92 | a share of a positive whole prints between 0.0 and 100.0 without a sign |
| `UserData.Lookup` | server.js:58 | a category lookup fails exactly when the name is not a key, and otherwise returns that key's amount |
| `UserData.CategoryAmount` | server.js:56-59 | with a snapshot present the amount is never null: the key's amount, or 0 for a missing key |
| `UserData.Sum` | server.js:64 | the sum of non-negative amounts is non-negative |
| `UserData.MonthlyTotal` | server.js:62-65 | the monthly total of a snapshot with no negative amount is non-negative |
| `UserData.LookupBoundedBySum` | server.js:62-65 | with no negative amounts each category amount is at most the monthly total |
| `UserData.MockMonthlyTotal` | server.js:18-48 | the mock user's monthly total is the category sum 34000, not its `totalExpenses` 35000 |
| `Responder.SpendingCategory` | server.js:70-86 | the spending category is defined exactly when the pattern matches |
| `Responder.PersonalRule` | server.js:68-123 | the personal rules answer only with rules that read the given snapshot |
| `Responder.KeywordRule` | server.js:126-236 | the keyword chain never chooses a personal rule |
| `Responder.Classify` | server.js:53-236 | a personal rule is chosen only with a resolved snapshot; without one the keyword chain decides |
| `Responder.Render` | server.js:89-236 | rendering fails exactly for the total-expense rule on a snapshot without "Food & Dining" |
| `Responder.GenerateResponse` | server.js:51-237 | a caller whose id resolves to no user is never answered with an error |
| `ResponderFacts.CaseInsensitive` | server.js:52 | messages equal after lower-casing get identical answers |
| `ResponderFacts.LowerCasedMessageSameAnswer` | server.js:52 | lower-casing the message beforehand does not change the answer |
| `ResponderFacts.StartSipContainsSip` | server.js:126-137 | every message containing "should i start sip" contains "sip" |
| `ResponderFacts.SipVsLumpSumExactly` | server.js:126-146 | the comparison rule is chosen exactly when "lump sum" occurs and neither "sip" nor "systematic" does |
| `ResponderFacts.OnlySipVsLumpSumRendersIt` | server.js:89-146 | no rule but the comparison rule renders the comparison template |
| `ResponderFacts.SipVsLumpSumAnswer` | server.js:68-146 | for any user, the generator returns the comparison template exactly when no personal rule answers, "lump sum" occurs and neither "sip" nor "systematic" does |
| `ResponderFacts.SpendingCategoryIsTrimmedCapture` | server.js:70-86 | the spending category is the trimmed capture or its alias target, and holds no line terminator |
| `ResponderFacts.SpendingTakesPriority` | server.js:68-98 | for a known user a matched spending question gets the spending template, with its summary and percentage, whatever later keywords it contains |
| `ResponderFacts.UnknownCategorySpentZero` | server.js:57-58 | a matched question about a category the snapshot lacks reports 0 spent under the lower-cased, trimmed name |
| `ResponderFacts.AliasResolves` | server.js:86 | an alias key is looked up as it stands |
| `ResponderFacts.TwoSpellingAliases` | server.js:74-83 | "food" and "food and dining" give "Food & Dining"; "bills" and "utilities" give "Bills & Utilities" |
| `ResponderFacts.CapitalisedAliases` | server.js:76-81 | the other six aliases give their capitalised names |
| `ResponderFacts.AliasTargetsAreMockCategories` | server.js:23-32 | every alias target is a category of the mock user |
| `ResponderFacts.UnaliasedNameUnchanged` | server.js:86 | a lower-case name outside the table is used unchanged |
| `ResponderFacts.NoUserOnlyKeywords` | server.js:53 | without a resolvable user (no id, the empty id or an id the table lacks) no personal rule fires and the keyword chain answers |
| `ResponderFacts.FallbackExactly` | server.js:126-229 | the default is chosen exactly when none of the keywords occurs |
| `ResponderFacts.NoUserNoKeywordDefault` | server.js:53-236 | without a resolvable user (no id, the empty id or an id the table lacks), an unmatched message gets the default template and its fixed summary |
| `ResponderFacts.SipAnswer` | server.js:126-135 | a message with "sip" gets the SIP template unless a personal rule answers first |
| `ResponderFacts.FailsOnlyWithoutFood` | server.js:113-122 | the generator throws exactly when the total-expense rule reads a missing "Food & Dining" |
| `ResponderFacts.MockNeverFails` | server.js:18-48 | with the mock table the generator never throws |
| `ResponderFacts.BalanceRendered` | server.js:102-110 | the balance summary quotes the balance, and the details quote the category sum, the income and the savings rate computed from income minus that sum |
| `ResponderFacts.BalanceAnswer` | server.js:68-111 | for a known user, a message with "balance" and "low" or "why" that is no matched spending question gets the balance template |
| `ResponderFacts.TotalExpensesRendered` | server.js:113-121 | with "Food & Dining" present the total-expense template is returned; its summary quotes the category sum and its details the "Food & Dining" amount |
| `ResponderFacts.TotalExpensesAnswer` | server.js:68-122 | for a known user with "Food & Dining", a message about total expense or spending that neither earlier personal rule answers gets the total-expense template |
| `ResponderFacts.SpendingShareBounded` | server.js:92 | with non-negative amounts and a positive total the spending share is between 0.0 and 100.0 |
| `ResponderFacts.ZeroIncomeSavingsRate` | server.js:105 | with zero income the savings rate prints "NaN" for a zero monthly total, "-Infinity" for a positive one and "Infinity" for a negative one |
| `ResponderFacts.MockFigures` | server.js:92-105 | for the mock user, food is "25.0" percent and the savings rate "32.0" percent |
| `ResponderFacts.MockBalanceReply` | server.js:18-110 | the mock user asking why the balance is low is told of expenses of 34000 against income 50000 and a 32.0% savings rate |
| `ChatRoute.Format` | server.js:254-259 | the reply has the length of its parts, opens with the bold summary and a blank line, and ends with the joined insights |
| `ChatRoute.FormatIsJoin` | server.js:254-259 | the reply is the bold summary, an empty line, the details, an empty line, the header and the joined insights, joined by newlines |
| `JsString.Join` | server.js:259 | joining no parts gives the empty string and joining one part gives it unchanged |
| `JsString.JoinKeepsParts` | server.js:259 | every joined part occurs in the joined string |
| `ChatRoute.LinesOfJoin` | server.js:259 | joining one-line insights with newlines and splitting again gives them back in order |
| `ChatRoute.FormatLines` | server.js:254-259 | for one-line fields, the reply's lines are exactly those six parts with the insights one per line |
| `ChatRoute.HandleChat` | server.js:244-267 | 400 "Message is required" exactly for a missing or empty message; a 200 reply is the rendering of its template |
| `ChatRoute.ReplyCarriesTemplate` | server.js:249-275 | a present message is answered with the generator's template unchanged, or 500 when the generator throws |
| `ChatRoute.MockAlwaysReplies` | server.js:240-267 | with the mock table every present message gets a 200 reply |

## Left out

- Express wiring is not modelled: middleware, static files, `app.listen`, console logging and `GET /api/test` (server.js:1-15, 278-289). They are input/output plumbing.
- The 500 handler is modelled only for errors the generator raises. It returns the fixed error and apology texts; the logging it does is not modelled.
- `toLocaleString` is the parameter `show`, so no lemma depends on grouping or locale.
- `toFixed(1)` is computed on the exact rational quotient, not on binary floating point. The result can differ from JavaScript's by one tenth in either direction when the exact value lies within a rounding error of a half-tenth; 322/1120 is one such case. The exponent form used for values of 10^21 and above is not modelled.
- Amounts are unbounded integers. The source's numbers are doubles; fractional amounts are not modelled.
- `JsString.Lower` maps ASCII and Latin-1 capitals only. Characters whose JavaScript lower case has a different length (such as U+0130) are not modelled.
- The general regular-expression engine is not modelled. Only the one leftmost, lazy search of server.js:70 is.
- Property-name quirks of plain objects are not modelled, for example a user id or category named `__proto__` (server.js:53, 58, 86).
- Request fields are always a string or absent. A non-string `message` or `userId` (a number, an array) is not modelled. The 400 path covers absent and empty messages only.
- The currency sign and bullet are written as U+20B9 and U+2022. The source stores them mis-encoded; the model treats all template texts as constants.
- The non-object branch of the formatter (server.js:260-262) is not modelled, since the generator always returns an object.
- `UserData.Snapshot.categories` is a list of name and amount pairs, which could repeat a name where a JavaScript object cannot. With a repeated name `Lookup` takes the first pair while `Sum` counts every pair; no uniqueness of names is assumed or proved, and the mock snapshot has none repeated.
- The investments, SIP contributions and recent transactions of a snapshot are not read by any rule. They are carried in `UserData.Snapshot` but nothing is proved about them.
- auth.js and finview-admin-db.js are not part of this model. `server.js` never uses them, and they only return constants.
- Reply layout for the generated templates: `ChatRoute.FormatLines` is stated for any template whose fields are single lines. That the canned texts hold no newline is not proved, so it is not instantiated per template.
