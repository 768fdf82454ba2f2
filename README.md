# IntelliDeFi front-end core in Dafny

IntelliDeFi is a React front end for a mock DeFi platform. Its five
screens carry the logic modelled here:

- **Portfolio creation.** A three-step wizard: settings, asset selection
  with percentage allocations, then a preview. Risk presets replace the
  selection. Adding an asset gives every selected asset an equal
  share; removing one keeps the other shares as they are. Each step is validated before the wizard moves on.
- **Trading.** A desk with a balance map, market and limit orders, a
  balance check, per-key balance updates, a history and cancellation of
  queued orders.
- **Risk assessment.** A seven-question questionnaire. The answers are
  summed, turned into a percentage, classified into three tiers and
  turned into a profile.
- **Eliza chat.** A keyword responder. It does a first-match substring
  search over an ordered trigger table, guards submission and keeps an
  append-only message log.
- **Home page.** The header shows the connected wallet's shortened
  address, or "Not connected".

The modules mirror those files. `JsString` gives the JavaScript string
built-ins the screens rely on their ECMAScript meaning: `includes`,
`trim` with ECMAScript's full whitespace set, `substring`'s clamping,
and turning a number into decimal text. `toLowerCase` is narrower than
ECMAScript's: it lowers ASCII letters only (see "Left out"). `Wrappers` and `Sequences` hold `Option` and a
subsequence predicate.

State the components change in place becomes a class with `modifies`
clauses, tied to specification functions:

- `PortfolioCreation.Wizard`;
- `Trading.TradingDesk`;
- `RiskAssessment.Questionnaire`;
- `ElizaChat.ChatSession`.

The pure decisions are functions and lemmas. React state updates are
applied immediately. Ids and dates that the source takes from the clock
are parameters.

Numbers typed into forms are taken as already parsed. Amounts are
`real` and percentages `int`. `Math.floor`, `Math.round`, `|| 0` and
JavaScript truthiness are written out where the source relies on them.

## Model

| member | source | states |
|---|---|---|
| JsString.ToLowerCase | src/components/eliza/ElizaChat.tsx:137 | same length; each character is lowered pointwise (ASCII letters only); no upper-case letter remains |
| JsString.ToLowerCaseOfLower | src/components/eliza/ElizaChat.tsx:137 | a string without upper-case letters is unchanged by `toLowerCase` |
| JsString.Includes | src/components/eliza/ElizaChat.tsx:139 | a string can only include one no longer than itself |
| JsString.IncludesIff | src/components/eliza/ElizaChat.tsx:139 | `s.includes(t)` holds exactly when some position of `s` starts a copy of `t` |
| JsString.IncludesAt | src/components/eliza/ElizaChat.tsx:139 | an occurrence at any position makes `includes` true |
| JsString.IncludesEmpty | src/components/portfolio/PortfolioCreation.tsx:329-332 | every string includes the empty string |
| JsString.IncludesOnlyIfChars | src/components/eliza/ElizaChat.tsx:139 | a string that includes `t` contains each character of `t` |
| JsString.MissingCharExcludes | src/components/eliza/ElizaChat.tsx:139 | a string lacking one of `t`'s characters does not include `t` |
| JsString.TrimStart | src/components/eliza/ElizaChat.tsx:184 | the result is a suffix; everything dropped is whitespace (ECMAScript WhiteSpace and LineTerminator, all Zs separators included); the result starts with a non-whitespace character or is empty |
| JsString.TrimEnd | src/components/eliza/ElizaChat.tsx:184 | the result is a prefix; everything dropped is whitespace in the same sense; the result ends with a non-whitespace character or is empty |
| JsString.Trim | src/components/eliza/ElizaChat.tsx:184 | the result is a contiguous piece of the input that neither starts nor ends with whitespace |
| JsString.TrimPiece | src/components/eliza/ElizaChat.tsx:184 | a prefix of a suffix of `s` occurs in `s` where the suffix starts |
| JsString.TrimEmptyIff | src/components/portfolio/PortfolioCreation.tsx:189 | `s.trim()` is empty exactly when every character of `s` is whitespace in the same sense |
| JsString.TrimAround | src/components/eliza/ElizaChat.tsx:184 | two leading whitespace characters and a trailing one around a non-whitespace character are all removed |
| JsString.TrimIdeographicSpace | src/components/portfolio/PortfolioCreation.tsx:189 | U+3000 alone trims to empty; " \u3000x\u2003" trims to "x" |
| JsString.ClampIndex | src/pages/HomePage.tsx:11 | a `substring` index is clamped into 0..length and kept when already inside |
| JsString.Substring | src/pages/HomePage.tsx:11 | the result is the piece of `s` between the two clamped indices, taken from the smaller one, with the length of their distance |
| JsString.SubstringSlices | src/pages/HomePage.tsx:11 | in-range `substring` is the slice; swapped indices give the same result; a start at or below 0 takes the whole string |
| JsString.NatToString | src/components/portfolio/PortfolioCreation.tsx:204 | non-empty decimal digits, with no leading zero except for 0 itself |
| JsString.NatToStringRoundTrip | src/components/portfolio/PortfolioCreation.tsx:204 | reading the decimal text back gives the number |
| JsString.NumberToString | src/components/portfolio/PortfolioCreation.tsx:204 | the interpolated text of an integer is never empty |
| JsString.NumberToStringSign | src/components/portfolio/PortfolioCreation.tsx:204 | a non-negative total prints as its decimal text, a negative one as a minus sign followed by the decimal text of its magnitude |
| PortfolioCreation.Total | src/components/portfolio/PortfolioCreation.tsx:182 | with no negative percentage the total is not negative |
| PortfolioCreation.TotalAppend | src/components/portfolio/PortfolioCreation.tsx:182 | the total of two lists is the sum of their totals |
| PortfolioCreation.TotalBounds | src/components/portfolio/PortfolioCreation.tsx:182 | with percentages in 0..100, the total lies in 0..100 times the number of entries |
| PortfolioCreation.LowPresetFacts | src/components/portfolio/PortfolioCreation.tsx:102-108 | the low preset has distinct catalog ids, percentages in range and a total of 100 |
| PortfolioCreation.MediumPresetFacts | src/components/portfolio/PortfolioCreation.tsx:109-115 | the same for the medium preset |
| PortfolioCreation.HighPresetFacts | src/components/portfolio/PortfolioCreation.tsx:116-124 | the same for the high preset |
| PortfolioCreation.PresetAllocations | src/components/portfolio/PortfolioCreation.tsx:95-127 | only `custom` leaves the list alone; every other level yields a non-empty, well-formed list totalling 100 |
| PortfolioCreation.Deselect | src/components/portfolio/PortfolioCreation.tsx:150 | never longer than the input; the id is no longer selected |
| PortfolioCreation.DeselectMembers | src/components/portfolio/PortfolioCreation.tsx:150 | the filter keeps exactly the entries with another id |
| PortfolioCreation.DeselectAbsent | src/components/portfolio/PortfolioCreation.tsx:150 | removing an unselected id changes nothing |
| PortfolioCreation.DeselectIsDeletion | src/components/portfolio/PortfolioCreation.tsx:150 | with distinct ids, removal deletes exactly position k |
| PortfolioCreation.EqualShare | src/components/portfolio/PortfolioCreation.tsx:153-154 | `Math.floor(100 / (n + 1))`: n + 1 shares fit in 100 and one more percent each would not |
| PortfolioCreation.WithPercentage | src/components/portfolio/PortfolioCreation.tsx:156-159 | ids and order kept, every percentage replaced |
| PortfolioCreation.TotalWithPercentage | src/components/portfolio/PortfolioCreation.tsx:156-159 | n entries at p percent total n times p |
| PortfolioCreation.SelectWithEqualShare | src/components/portfolio/PortfolioCreation.tsx:152-161 | one entry longer; the old ids in order, then the new id; every entry at the equal share |
| PortfolioCreation.DeselectKeepsWellFormed | src/components/portfolio/PortfolioCreation.tsx:149-150 | removal keeps ids distinct, in the catalog and percentages in range |
| PortfolioCreation.SelectKeepsWellFormed | src/components/portfolio/PortfolioCreation.tsx:151-161 | adding an unselected catalog asset keeps the list well-formed |
| PortfolioCreation.ToggleKeepsWellFormed | src/components/portfolio/PortfolioCreation.tsx:146-162 | either branch of the toggle keeps the list well-formed |
| PortfolioCreation.SelectTotal | src/components/portfolio/PortfolioCreation.tsx:152-161 | after an add the total is n + 1 equal shares, at most 100, and exactly 100 iff n + 1 divides 100 |
| PortfolioCreation.DeselectTotal | src/components/portfolio/PortfolioCreation.tsx:150 | removing position k lowers the total by exactly its percentage |
| PortfolioCreation.EqualShareTwo | src/components/portfolio/PortfolioCreation.tsx:146-162 | from nothing, toggling two assets gives 50/50 |
| PortfolioCreation.EqualShareThree | src/components/portfolio/PortfolioCreation.tsx:146-162 | a third asset gives 33/33/33, totalling 99 |
| PortfolioCreation.Clamp | src/components/portfolio/PortfolioCreation.tsx:174 | `Math.max(0, Math.min(100, v))` lies in 0..100, equals v inside, 0 below and 100 above |
| PortfolioCreation.SetPercentage | src/components/portfolio/PortfolioCreation.tsx:172-179 | ids and length kept; entries with another id untouched; entries with the id get the clamped value |
| PortfolioCreation.SetPercentageKeepsWellFormed | src/components/portfolio/PortfolioCreation.tsx:172-179 | the edit keeps the list well-formed |
| PortfolioCreation.SetPercentageTotal | src/components/portfolio/PortfolioCreation.tsx:172-182 | with distinct ids, the total changes by the new value minus the old one |
| PortfolioCreation.SetPercentageAbsent | src/components/portfolio/PortfolioCreation.tsx:176-178 | editing an unselected id changes nothing |
| PortfolioCreation.Toggled | src/components/portfolio/PortfolioCreation.tsx:146-162 | the toggled id flips between selected and not selected; every other id keeps its status |
| PortfolioCreation.StepErrors | src/components/portfolio/PortfolioCreation.tsx:185-209 | only step 1 can set the name and investment errors, only step 2 the assets and allocation errors; any other step has no errors |
| PortfolioCreation.Step1Errors | src/components/portfolio/PortfolioCreation.tsx:188-209 | step 1 sets the name error iff the name is blank (the full whitespace set) and the investment error iff the investment is at most 0; it passes iff neither is set |
| PortfolioCreation.Step2Errors | src/components/portfolio/PortfolioCreation.tsx:198-209 | step 2 sets the assets error iff nothing is selected and the allocation error, carrying the total, iff the total is not 100; it passes iff neither is set |
| PortfolioCreation.Step3Errors | src/components/portfolio/PortfolioCreation.tsx:185-210 | the review step has no checks |
| PortfolioCreation.AllocationGateExample | src/components/portfolio/PortfolioCreation.tsx:203-204 | one asset at 50% fails with "(currently 50%)"; at 100% it passes |
| PortfolioCreation.MetricsFor | src/components/portfolio/PortfolioCreation.tsx:251-256 | the three metric tiers by level, with custom falling into the high tier; the expected return is the target return |
| PortfolioCreation.MetricsMonotone | src/components/portfolio/PortfolioCreation.tsx:251-256 | a riskier level never has a lower Sharpe ratio, volatility or drawdown |
| PortfolioCreation.AssetLabel | src/components/portfolio/PortfolioCreation.tsx:282-285 | the catalog name of the first asset with the id, or the id itself when none has it |
| PortfolioCreation.BreakdownLabels | src/components/portfolio/PortfolioCreation.tsx:282-285 | one label per selected asset, in order |
| PortfolioCreation.BreakdownData | src/components/portfolio/PortfolioCreation.tsx:291 | one percentage per selected asset, in order |
| PortfolioCreation.PreviewFacts | src/components/portfolio/PortfolioCreation.tsx:251-306 | the metrics ignore the selection and carry the target return; the breakdown has one entry per asset and sums to 100 when the allocation does |
| PortfolioCreation.BreakdownDataSum | src/components/portfolio/PortfolioCreation.tsx:291 | the breakdown data sums to the total allocation |
| PortfolioCreation.FilterAssets | src/components/portfolio/PortfolioCreation.tsx:329-332 | keeps exactly the assets whose lower-cased name or symbol includes the lower-cased term |
| PortfolioCreation.FilterEmptyTerm | src/components/portfolio/PortfolioCreation.tsx:329-332 | an empty search shows the whole catalog in order |
| PortfolioCreation.FilterKeepsOrder | src/components/portfolio/PortfolioCreation.tsx:329-332 | the filtered list is a subsequence of the catalog |
| PortfolioCreation.Wizard.constructor | src/components/portfolio/PortfolioCreation.tsx:56-91 | step 1, the default settings, no search, no errors, no preview and the medium preset selected |
| PortfolioCreation.Wizard.ApplyRiskPreset | src/components/portfolio/PortfolioCreation.tsx:95-127 | a preset replaces the whole selection; `custom` leaves it; nothing else changes |
| PortfolioCreation.Wizard.ChangeSetting | src/components/portfolio/PortfolioCreation.tsx:130-143 | the field is updated; choosing a low, medium or high level also applies its preset |
| PortfolioCreation.Wizard.ToggleAsset | src/components/portfolio/PortfolioCreation.tsx:146-169 | removes a selected asset or adds a new one at the equal share; the level becomes custom |
| PortfolioCreation.Wizard.ChangeAllocation | src/components/portfolio/PortfolioCreation.tsx:172-179 | the selection becomes the clamped edit and nothing else changes |
| PortfolioCreation.Wizard.SetSearchTerm | src/components/portfolio/PortfolioCreation.tsx:559 | only the search term changes |
| PortfolioCreation.Wizard.FilteredAssets | src/components/portfolio/PortfolioCreation.tsx:329-332 | the catalog assets matching the current term |
| PortfolioCreation.Wizard.TotalAllocation | src/components/portfolio/PortfolioCreation.tsx:182 | the current total lies in 0..100 per selected asset |
| PortfolioCreation.Wizard.ValidateStep | src/components/portfolio/PortfolioCreation.tsx:185-210 | the stored errors are those of the current step, and the result is true iff there are none |
| PortfolioCreation.Wizard.GeneratePortfolioPreview | src/components/portfolio/PortfolioCreation.tsx:228-313 | the preview of the current settings and selection is stored and the wizard is at step 3 |
| PortfolioCreation.Wizard.GoToNextStep | src/components/portfolio/PortfolioCreation.tsx:213-221 | with errors the step stays; step 1 moves to 2; step 2 builds the preview and moves to 3 |
| PortfolioCreation.Wizard.GoToPreviousStep | src/components/portfolio/PortfolioCreation.tsx:223-225 | one step back, nothing else changes |
| PortfolioCreation.BackAndForth | src/components/portfolio/PortfolioCreation.tsx:213-225 | back from step 2 and forward again returns to step 2 with settings and selection unchanged |
| Trading.Balance | src/components/trading/Trading.tsx:323 | `balances[sym] \|\| 0`: a missing key reads as 0 |
| Trading.Sufficient | src/components/trading/Trading.tsx:316-327 | a buy passes iff `total` is at most the USDT balance; a sell iff `amount` is at most the asset's balance, or at most 0 when the asset has no key |
| Trading.EffectivePrice | src/components/trading/Trading.tsx:313 | the market price for market orders, the typed price for limit orders |
| Trading.MarketBalances | src/components/trading/Trading.tsx:330-341 | the updated map has the old keys plus the traded symbol |
| Trading.MarketMoves | src/components/trading/Trading.tsx:330-341 | a buy moves `total` out of USDT and `amount` into the asset, a sell the reverse; no other key changes |
| Trading.MarketConservation | src/components/trading/Trading.tsx:313-341 | valued at the execution price, USDT plus the asset is the same before and after |
| Trading.MarketNonNegative | src/components/trading/Trading.tsx:316-341 | with a non-negative amount and price and the balance check passed, no balance goes negative |
| Trading.NegativeSellOverdraws | src/components/trading/Trading.tsx:316-341 | a market sell of -1 BTC passes the balance check and leaves USDT negative |
| Trading.WithoutOrder | src/components/trading/Trading.tsx:382 | the orders kept are exactly those with another id |
| Trading.WithoutOrderKeepsOrder | src/components/trading/Trading.tsx:382 | the remaining orders are a subsequence of the old list |
| Trading.WithoutOrderAbsent | src/components/trading/Trading.tsx:382 | cancelling an unknown id changes nothing |
| Trading.WithoutOrderIdempotent | src/components/trading/Trading.tsx:382 | cancelling twice is cancelling once |
| Trading.FindAsset | src/components/trading/Trading.tsx:301 | the first asset with the id, and none exactly when no asset has it |
| Trading.TradingDesk.constructor | src/components/trading/Trading.tsx:52-67 | the seeded balances, no assets, market buy, an empty amount and no orders |
| Trading.TradingDesk.LoadMarket | src/components/trading/Trading.tsx:130-249 | the three assets, the first selected at its price, and the mock active orders and history |
| Trading.TradingDesk.HandleAssetChange | src/components/trading/Trading.tsx:300-306 | a listed id selects that asset and copies its price; an unknown id changes nothing |
| Trading.TradingDesk.SetOrderType | src/components/trading/Trading.tsx:55 | only the order type changes |
| Trading.TradingDesk.SetTradeType | src/components/trading/Trading.tsx:56 | only the side changes |
| Trading.TradingDesk.SetAmount | src/components/trading/Trading.tsx:57 | only the amount field changes |
| Trading.TradingDesk.SetPrice | src/components/trading/Trading.tsx:58 | only the price field changes |
| Trading.TradingDesk.PlaceOrder | src/components/trading/Trading.tsx:309-378 | with no asset or amount nothing happens. An insufficient balance rejects and changes nothing. A market order updates the balances and is prepended to the history as completed. A limit order is prepended to the active orders as pending. Every accepted order clears the amount |
| Trading.TradingDesk.ExecuteMarket | src/components/trading/Trading.tsx:330-356 | the balances become the key-by-key market update, and the order is prepended to the history |
| Trading.TradingDesk.CancelOrder | src/components/trading/Trading.tsx:381-384 | the active orders become the filtered list; nothing else changes |
| RiskAssessment.Sum | src/components/risk/RiskAssessment.tsx:156 | n answers of 1..5 sum to between n and 5n |
| RiskAssessment.ScorePercentage | src/components/risk/RiskAssessment.tsx:157-158 | the percentage times the maximum score is 100 times the total; a total in 0..35 gives 0..100 |
| RiskAssessment.Classify | src/components/risk/RiskAssessment.tsx:166-196 | low exactly below 40, high exactly from 70, medium exactly in between |
| RiskAssessment.TierByTotal | src/components/risk/RiskAssessment.tsx:157-196 | totals up to 13 are low, 14 to 24 medium, and 25 and above high |
| RiskAssessment.TierMonotone | src/components/risk/RiskAssessment.tsx:166-196 | a higher total never gives a lower tier |
| RiskAssessment.RoundHalfUp | src/components/risk/RiskAssessment.tsx:210 | `Math.round`: the result lies within half a unit, with halves rounding up |
| RiskAssessment.RoundMonotone | src/components/risk/RiskAssessment.tsx:210 | rounding keeps order |
| RiskAssessment.TierAllocation | src/components/risk/RiskAssessment.tsx:170-195 | tiers have 3, 4 and 5 slices; stablecoins come first; every slice is a positive share |
| RiskAssessment.AllocationSums | src/components/risk/RiskAssessment.tsx:170-195 | each tier's allocation sums to 100, with fewer stablecoins in the high tier than in the others |
| RiskAssessment.SliceTotalSuffix | src/components/risk/RiskAssessment.tsx:170-195 | peeling the first slice off a suffix subtracts its percentage |
| RiskAssessment.RiskMetrics | src/components/risk/RiskAssessment.tsx:199-206 | six factors from answers 2 to 7, each out of 5; the first answer has no factor |
| RiskAssessment.ProfileOf | src/components/risk/RiskAssessment.tsx:152-216 | the allocation is the tier's and sums to 100; the score is the percentage rounded to within half a unit and the tier is its classification; six factors |
| RiskAssessment.ProfileBounds | src/components/risk/RiskAssessment.tsx:156-216 | seven valid answers total 7..35, give a score of 20..100 and the tier of their total |
| RiskAssessment.CalculateRiskProfile | src/components/risk/RiskAssessment.tsx:152-216 | the if-chain builds exactly the profile of the answers |
| RiskAssessment.Questionnaire.constructor | src/components/risk/RiskAssessment.tsx:65-67 | step 0, no answers, no profile |
| RiskAssessment.Questionnaire.AnswerSelect | src/components/risk/RiskAssessment.tsx:225-235 | the answer is appended; before the last question the step advances; the last answer computes the profile of all answers and shows the results |
| RiskAssessment.Questionnaire.Reset | src/components/risk/RiskAssessment.tsx:238-242 | back to step 0 with no answers and no profile |
| RiskAssessment.Questionnaire.ResultScoreBounds | src/components/risk/RiskAssessment.tsx:209-233 | on the results page a profile exists, with a score in 20..100 |
| RiskAssessment.AnswerAll | src/components/risk/RiskAssessment.tsx:225-235 | seven answers from the start reach the results with exactly those answers and their profile |
| ElizaChat.FirstMatch | src/components/eliza/ElizaChat.tsx:138-140 | the first table position whose trigger occurs in the text; none exactly when no trigger occurs |
| ElizaChat.FindSampleResponse | src/components/eliza/ElizaChat.tsx:136-141 | the entry at the first matching position of the lower-cased input, and none when nothing matches |
| ElizaChat.FindSampleResponseFirst | src/components/eliza/ElizaChat.tsx:31-141 | the entry found has its trigger in the lower-cased input and no earlier entry matches; none is found iff no trigger occurs |
| ElizaChat.ChartShadowsPrice | src/components/eliza/ElizaChat.tsx:47-140 | if "chart" occurs, an entry up to `chart` answers, so `price` never does |
| ElizaChat.CodeShadowsSmartContract | src/components/eliza/ElizaChat.tsx:61-140 | if "code" occurs, an entry up to `code` answers, so `smart contract` never does |
| ElizaChat.FirstMatchAt | src/components/eliza/ElizaChat.tsx:138-140 | when entry k matches and no earlier one does, the search stops at k |
| ElizaChat.SmartContractCodeLetters | src/components/eliza/ElizaChat.tsx:33-53 | "smart contract code" has no b, h, f or p |
| ElizaChat.SmartContractCodeMisses | src/components/eliza/ElizaChat.tsx:33-53 | none of the first five triggers occurs in "smart contract code" |
| ElizaChat.SmartContractCodeLower | src/components/eliza/ElizaChat.tsx:137 | "smart contract code" is already lower case |
| ElizaChat.SmartContractCodeHits | src/components/eliza/ElizaChat.tsx:62 | "smart contract code" contains "code" |
| ElizaChat.CodeAnswers | src/components/eliza/ElizaChat.tsx:31-141 | a lower-case input with "code" and none of the five earlier triggers gets the code entry |
| ElizaChat.SmartContractCodeExample | src/components/eliza/ElizaChat.tsx:61-140 | "smart contract code" gets the code entry, not the smart-contract entry |
| ElizaChat.Replies | src/components/eliza/ElizaChat.tsx:151-176 | with no match, the default reply of type text; otherwise the entry's reply and type, then its follow-up exactly when it has one |
| ElizaChat.FollowUpOnlyForPrice | src/components/eliza/ElizaChat.tsx:52-176 | a second reply comes exactly when the `price` entry answers |
| ElizaChat.NothingToSend | src/components/eliza/ElizaChat.tsx:184 | the submission is ignored exactly when the input is all whitespace and no file is attached |
| ElizaChat.ChatSession.constructor | src/components/eliza/ElizaChat.tsx:90-102 | the log holds only the greeting; the input is empty; no image |
| ElizaChat.ChatSession.SetInput | src/components/eliza/ElizaChat.tsx:99 | only the input changes |
| ElizaChat.ChatSession.AttachImage | src/components/eliza/ElizaChat.tsx:112-124 | the file and its preview are set; the log and input are kept |
| ElizaChat.ChatSession.RemoveImage | src/components/eliza/ElizaChat.tsx:127-133 | the file and preview are cleared; the log and input are kept |
| ElizaChat.ChatSession.GenerateResponse | src/components/eliza/ElizaChat.tsx:144-179 | the replies to the message's text are appended to the log; nothing else changes |
| ElizaChat.ChatSession.Submit | src/components/eliza/ElizaChat.tsx:182-202 | ignored iff the input is blank and no image is attached. Otherwise it appends one user message holding the untrimmed input, typed image iff an image is attached, then the replies, and clears the input, image and preview. The old log is always kept as a prefix |
| HomePage.TruncateAddress | src/pages/HomePage.tsx:9-11 | for any address of length n: the first min(6, n) characters, "...", then the last min(4, n), and nothing else |
| HomePage.TruncateLong | src/pages/HomePage.tsx:10-12 | from 10 characters up: 13 characters, the first six, "...", then the last four |
| HomePage.TruncateClamps | src/pages/HomePage.tsx:11 | for any length: the first min(6, n) characters, "...", then the last min(4, n) |
| HomePage.TruncateShort | src/pages/HomePage.tsx:11 | up to four characters the address appears twice around "..." |
| HomePage.TruncateMockAccount | src/context/Web3Context.tsx:30 | the stub's account `0xD42b...AC0f` is shown unchanged |
| HomePage.HeaderView | src/pages/HomePage.tsx:29-34 | the button is shown iff the account is truthy (present and non-empty); then the text is the shortened address, otherwise "Not connected" |
| HomePage.HeaderForMockAccount | src/pages/HomePage.tsx:29-34 | connected with the stub's account, the header shows it unchanged with the button |

## Left out

- Timers, `await` delays and loading flags: every state update is applied at once. The `alert`s become the `Outcome` of `PlaceOrder` or are dropped. The redirect after portfolio creation and `createPortfolio` itself are side effects without logic.
- The projected and benchmark value series of the portfolio preview and the trading chart's price series: they come from `Math.random`, `Math.pow` and `Math.sin` on floating point. The chart colours and the timeframe switch are presentation.
- Number parsing and formatting: `parseFloat`, `toFixed`, `toLocaleString`, `formatNumber` and `calculatePercentageAmount` (a `toFixed(8)` of a floating-point share). Form fields are taken as already parsed. The NaN that an empty or malformed field produces is not modelled.
- Trading.MarketBalances: requires that USDT and, for a sell, the traded symbol are keys. In JavaScript a sell against a missing key writes NaN. The desk's invariant ensures those keys exist, since the four seeded keys are never removed and every listed asset has one.
- Floating point: amounts and prices are exact reals, so the model has no rounding in `amount * price` or in the balance updates. The risk score percentage is a real. Its thresholds agree with the double computation at the integer totals 7..35.
- `Date.now()` ids and ISO dates are parameters of `PlaceOrder`, `Submit` and `GenerateResponse`. Message timestamps are dropped.
- The FileReader read of an attached image: the preview data URL is a parameter of `AttachImage`. `scrollIntoView` is browser I/O.
- ElizaChat.Content: an assistant message records which fixed text it shows (a table entry, the default reply or the greeting), and `Content.Text()` spells that text out. The long canned texts are therefore not compared character by character in the log.
- ElizaChat.ChatSession.GenerateResponse: the follow-up is appended together with the reply. In the source it arrives one second later, so messages submitted in between could come first; that interleaving is not modelled.
- JsString.ToLowerCase: lowers ASCII letters only; Unicode case mapping is not modelled. The triggers and the catalog names are ASCII, but the user's input need not be: U+212A KELVIN SIGN lowers to `k` in JavaScript, so "BLOC\u212ACHAIN" gets the blockchain reply in the source and the default reply in the model, and a search for "\u212A" lists Polkadot in the source and nothing in the model.
- JsString.Substring: Dafny strings count Unicode scalar values, while JavaScript's `length` and `substring` count UTF-16 code units. An address with a character outside the Basic Multilingual Plane is therefore cut at different places, and the 13 of HomePage.TruncateLong counts scalar values. The stub account the header shows is ASCII, where both counts agree.
- All JSX markup, including Chart.js registration and rendering; the wizard's progress display; the risk tiers' description and recommendation texts and chart colours; asset image URLs.
- `Web3Context.tsx` beyond the stub account it connects with. `Navbar.tsx`, `Dashboard.tsx`, `App.tsx` and `utils/icons.tsx` are not part of this model.
