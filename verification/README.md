# Escrow trading assistant: a Dafny model of its rule engines and front-end state

The system is an escrow trading platform on Conflux. It has three Flask
services that score things with fixed rules, and a React front end that
drives the escrow and currency-converter contracts through the user's wallet.
This project models both halves in Dafny and proves properties of the model.

Backend rule engines:

- **Dispute arbitration** (`arbitration.dfy`, module `Arbitration`):
  - keyword scoring of the chat log;
  - completeness scoring of each party's evidence;
  - the decision table that assigns responsibility and a resolution;
  - the final confidence, the detailed reasons, the evidence summary and the recommendations of a verdict.
- **Credit score** (`credit.dfy`, module `Credit`):
  - the 0-1000 score built from a trading history;
  - the four credit levels;
  - the user tags;
  - the trading advice;
  - the comparison of two users.
- **Transaction risk** (`risk.dfy`, module `Risk`):
  - scam keyword detection;
  - the amount and address risk tables;
  - the summed base score, capped at 100;
  - the low, medium or high classification with its escrow period;
  - the list of risk reasons.

Front-end components, each a `class` whose fields are the component's state:

- **Trade list** (`trade_list.dfy`, `TradeList.Panel`):
  - which escrow trades are read, and the demonstration fallback;
  - the "clear" watermark kept in browser storage;
  - the approve-or-deposit choice, release and cancel;
  - the action offered for each trade.
- **Currency exchange** (`exchange.dfy`, `Exchange.Panel`):
  - the paired token selectors and the displayed rate;
  - the transactions a swap sends;
  - the balance refresh.
- **Dispute form** (`dispute_form.dfy`, `DisputeForm.Form`):
  - editing the evidence lists;
  - the checks and filtering before an arbitration request;
  - the confidence colour.
- **Chat pop-up** (`assistant.dfy`, `Assistant.Popup`):
  - sending a message;
  - the streamed reply;
  - error replacement;
  - the quick-action buttons.

Shared pieces live in two more modules:

- `base.dfy` (`Base`): `Option`, `Result`, Python's `int()` on floats (`Trunc`), and `max(lo, min(hi, x))` (`Clamp`).
- `text.dfy` (`Text`): lower-casing, substring search, `join`, `split` and JavaScript's `trim()`.

Conventions:

- Python floats are modelled as `real`, and `int()` as truncation toward zero.
- Wallet transactions, HTTP requests and alerts are values appended to a log field.
- What the chain, the wallet or a server answers is a method parameter.

## Model

| member | source | states |
|---|---|---|
| Text.FoundKeywords | backend/dispute_arbitration_api.py:64-78 | no more keywords are reported than the list holds |
| Text.FoundKeywordsMembers | backend/dispute_arbitration_api.py:64-78 | a keyword is reported exactly when it is in the list and occurs in the text |
| Arbitration.KeywordFinding | backend/dispute_arbitration_api.py:64-78 | each keyword family contributes at most one finding line |
| Arbitration.KeywordFindingReports | backend/dispute_arbitration_api.py:64-78 | a family's line is present exactly when the chat mentions one of its keywords, and it lists exactly the family's keywords that occur in the lowered chat text |
| Arbitration.ChatFindingsOrder | backend/dispute_arbitration_api.py:52-83 | for a non-empty log there is one line per family mentioned, and the threat, promise and refusal lines come in that order, each with its heading and the keywords found |
| Arbitration.AnalyzeChatHistory | backend/dispute_arbitration_api.py:52-83 | an empty log scores 0 with the "no chat history" message; otherwise threats add 20 and refusals add 15, so the score is 0, 15, 20 or 35; the findings are the specified threat, promise and refusal lines |
| Arbitration.AnalyzeEvidence | backend/dispute_arbitration_api.py:85-118 | no evidence scores 30 with the "no evidence" message; otherwise the score is the floored gap score, in [0, 35], and the findings are the three per-kind lines; all three kinds of evidence give 0, none of them gives 35 |
| Arbitration.EvidenceFindingsMarks | backend/dispute_arbitration_api.py:95-113 | for non-empty evidence, the image, text and tracking lines are each the ✅ line of their kind exactly when an item of that kind was supplied, and the ⚠️ line otherwise |
| Arbitration.MoreEvidenceNeverRaisesScore | backend/dispute_arbitration_api.py:85-118 | once a party has supplied something, one more item never raises its gap score; from no evidence (30), a single item of another type gives 35 |
| Arbitration.RuleBasedJudgment | backend/dispute_arbitration_api.py:120-185 | the responsibility and resolution are keys of their tables; confidence is in [40, 85]; the seller is held responsible exactly when no manual review is ordered, and only for the four seller-side dispute types; a full refund implies the seller showed no tracking |
| Arbitration.FinalConfidence | backend/dispute_arbitration_api.py:288-294 | the adjusted confidence lies in [30, 95], never exceeds the rule's own confidence, and equals it when both evidence scores agree |
| Arbitration.ConfidenceAntitoneInGap | backend/dispute_arbitration_api.py:288-294 | a wider gap between the two evidence scores never raises the final confidence |
| Arbitration.TrackingAgainstNoEvidence | backend/dispute_arbitration_api.py:288-294 | a "not received" dispute where the seller shows only tracking and the buyer nothing gets confidence 40: the rule's 50 less half the gap between 30 and 10 |
| Arbitration.GenerateRecommendations | backend/dispute_arbitration_api.py:338-357 | the first line is the tier line for the confidence (>= 80, >= 60, below); manual review and partial refund add exactly their two fixed lines, and every other resolution adds none |
| Arbitration.TierOfTrunc | backend/dispute_arbitration_api.py:323-330 | truncating the confidence to an integer for the response does not change its tier, so the reported confidence and the first recommendation agree |
| Arbitration.ReasonLineAsWritten | backend/dispute_arbitration_api.py:303-310 | the reason line as the service builds it: present exactly when the findings are non-empty, with list findings joined by "; " |
| Arbitration.AsWrittenSplitsEmptyEvidenceNote | backend/dispute_arbitration_api.py:303-304 | for a party without evidence the service's line reads "未; 提; 供; 证; 据", which differs from the intended single note |
| Arbitration.ReasonLine | backend/dispute_arbitration_api.py:303-310 | the corrected reason line: present exactly when the findings are non-empty, starting with the heading, with a bare message shown whole; it agrees with the service on list findings |
| Arbitration.DetailedReasons | backend/dispute_arbitration_api.py:297-314 | the rule's reason comes first; then the buyer, seller and chat lines in that order, each present exactly when its findings are non-empty; the AI opinion is the last line exactly when it is non-empty and not the failure notice; the number of lines is one plus the lines present |
| Arbitration.CorrectionOnlyForEmptyInputs | backend/dispute_arbitration_api.py:303-310 | with evidence from a party, or with a chat log, the corrected reason line equals the service's line |
| Arbitration.AnalyzeDispute | backend/dispute_arbitration_api.py:256-336 | the response carries the judgment's responsibility and resolution with their table texts; its confidence is `int()` of the final confidence of the two evidence scores, in [30, 95] and no higher than the rule's; the reasons are those of the judgment, the two evidence analyses, the chat analysis and the AI opinion; the recommendations are the tier line of the final confidence and the resolution's fixed lines; the three counts |
| Credit.CreditScore | backend/credit_score_api.py:106-167 | the score is an integer in [0, 1000] |
| Credit.CalculateCreditScore | backend/credit_score_api.py:106-167 | accumulating the eight score components step by step gives the specification score, inside [0, 1000] |
| Credit.RawScoreAtMost650 | backend/credit_score_api.py:106-167 | with no more completed trades than trades, the raw sum is at most 650, so the top level ("excellent", from 800) is out of reach |
| Credit.CreditScoreMonotone | backend/credit_score_api.py:165 | clamping and truncation keep the order of raw scores |
| Credit.ScoreMonotoneInAge | backend/credit_score_api.py:112-114 | an older account never scores lower, all else equal |
| Credit.ScoreAntitoneInDisputes | backend/credit_score_api.py:136-140 | more disputes never raise the score, all else equal |
| Credit.ScoreAntitoneInResponseTime | backend/credit_score_api.py:142-151 | a slower average response never raises the score, all else equal |
| Credit.BandsPartition | backend/credit_score_api.py:23-29 | the four level bands cover exactly [0, 1000] and do not overlap |
| Credit.GetCreditLevel | backend/credit_score_api.py:169-174 | each level's key is returned exactly when the score falls in its band, with that band's name and colour; scores outside [0, 1000] get the novice level |
| Credit.RuleGroupsSound | backend/credit_score_api.py:176-210 | each of the rule groups on volume, completion rate, reviews and response time yields exactly the tags of its group that the independent tag definition says the user earns |
| Credit.LaterGroupsSound | backend/credit_score_api.py:212-236 | the same for the groups on role, disputes, recent activity and credit score |
| Credit.UserTagsLength | backend/credit_score_api.py:237 | never more than eight tags |
| Credit.UserTagsOrdered | backend/credit_score_api.py:176-237 | at most eight tags, in rule-group order |
| Credit.UserTagsEarned | backend/credit_score_api.py:176-237 | a tag is produced exactly when the user earns it |
| Credit.OneRoleTag | backend/credit_score_api.py:211-217 | every user gets exactly one of "professional seller", "active buyer" and "balanced" |
| Credit.GenerateUserTags | backend/credit_score_api.py:176-237 | the imperative tag list equals the specification list, so at most eight tags |
| Credit.AdviceReasons | backend/credit_score_api.py:249-287 | recommended exactly when the score is at least 500 and neither the completion-rate nor the dispute-rate warning fires; the running confidence is the specification value; the reasons are those of the score band, the trade count, the completion rate and the dispute rate, in that order |
| Credit.AdviceReasonsPerRule | backend/credit_score_api.py:262-287 | one to four reasons, the score band's first; the experienced and inexperienced reasons appear exactly above 50 and below 10 trades, the high and low completion reasons exactly above 0.9 and below 0.7, the no-dispute reason exactly with trades and no disputes, and the frequent-dispute reason exactly above a 0.1 rate |
| Credit.RecommendedIffNoWarning | backend/credit_score_api.py:249-287 | the advice recommends trading exactly when none of its reasons is a ❌ reason (low score, low completion, frequent disputes) |
| Credit.AdviceSuggestions | backend/credit_score_api.py:289-309 | the suggestions are those of the recommendation and score band followed by the inactivity note; the four cautions lead when not recommended; the inactivity note is last exactly when the user has been away over 30 days |
| Credit.SuggestionsShape | backend/credit_score_api.py:289-309 | four, two or three suggestions for not recommended, a score of 600 or more, and a lower score, plus one for inactivity; the cautions appear exactly when not recommended; "keep evidence" exactly for a recommended score below 600; the inactivity note is last exactly after 30 days away |
| Credit.GenerateTradingAdvice | backend/credit_score_api.py:239-313 | recommended exactly when the score is at least 500 and neither the completion-rate nor the dispute-rate warning fires; confidence is the clamped truncation of the running value, within [10, 95]; the reasons are the specified per-rule list, led by the score band; the suggestions are the specified list for the recommendation, score and days away |
| Credit.AdviceConfidenceDropsAt700 | backend/credit_score_api.py:249-311 | for an otherwise clean history with 10 to 50 trades, every score from 600 to 699 gets an advice confidence of at least 75, while 700 gets 60. Scores of 700 and above come only from a caller's own score: by `RawScoreAtMost650` a score computed from a history with no more completed trades than trades is at most 650 |
| Credit.Compare | backend/credit_score_api.py:481-494 | the score difference is the absolute difference; the higher score is the better user; ties name the second user with the "comparable" verdict |
| Credit.CompareDiffSymmetric | backend/credit_score_api.py:491-492 | swapping the users keeps the difference and, without a tie, the better user |
| Credit.CompareUsers | backend/credit_score_api.py:459-496 | an empty address is an error; otherwise each user keeps their address, their score is the credit score of their history and their level the name of the band holding it; the difference is the absolute score difference, and the better user and verdict are those of `Compare` |
| Risk.MatchingKeywordsMembers | backend/risk_assessment_api.py:37-44 | a scam keyword is reported exactly when its lower case occurs in the lower-cased text, and no more are reported than the list holds |
| Risk.NothingMatchesEmpty | backend/risk_assessment_api.py:34-35 | no non-empty keyword matches an empty text |
| Risk.CollectMatches | backend/risk_assessment_api.py:37-44 | the loop collects exactly the keywords, in list order, whose lower case occurs in the lowered text |
| Risk.DetectScamKeywords | backend/risk_assessment_api.py:32-44 | the loop collects the matching keywords in list order, and nothing for an empty text |
| Risk.AmountRisk | backend/risk_assessment_api.py:46-62 | unparsable amounts score 50, non-positive ones 100, and positive ones 10, 20, 40 or 70 |
| Risk.AmountRiskMonotone | backend/risk_assessment_api.py:51-60 | over positive amounts the amount risk never decreases as the amount grows |
| Risk.AddressRiskTable | backend/risk_assessment_api.py:64-77 | empty scores 30; not matching the address pattern scores 60; a matching address scores 50 with a zero-prefix start and 10 otherwise |
| Risk.AddressRisk | backend/risk_assessment_api.py:64-77 | an address scores 10, 30, 50 or 60 |
| Risk.KeywordScore | backend/risk_assessment_api.py:117-119 | the keyword contribution is at most 50, and at least 15 once any keyword is found |
| Risk.BaseScore | backend/risk_assessment_api.py:106-137 | the summed base score lies in [0, 230] |
| Risk.FinalScore | backend/risk_assessment_api.py:179 | the final score is in [0, 100] |
| Risk.Classify | backend/risk_assessment_api.py:182-199 | low exactly below 30, high exactly from 60, continue exactly below 60, and an escrow period of 3, 7 or 14 days |
| Risk.EscrowDaysMonotone | backend/risk_assessment_api.py:182-199 | a higher score never shortens the escrow period |
| Risk.ReasonsNeverEmpty | backend/risk_assessment_api.py:202-203 | the reasons are never empty, and the "no risk found" line appears exactly when no rule fired |
| Risk.ReasonsFollowRules | backend/risk_assessment_api.py:109-137 | the amount line comes first exactly when the amount scores above 30; the short-description line is the last rule reason exactly when the description is short |
| Risk.RuleFactorsKinds | backend/risk_assessment_api.py:106-137 | every rule reason comes from one of the five rule steps |
| Risk.AiReasonLast | backend/risk_assessment_api.py:206-207 | the AI line is the last reason exactly when the analysis is non-empty and not the unavailable notice |
| Risk.NonPositiveAmountIsHighRisk | backend/risk_assessment_api.py:51-52 | a non-positive amount alone forces the score to 100 and the high level |
| Risk.ScoreMonotoneInAmount | backend/risk_assessment_api.py:109-111 | over positive amounts the final score never decreases as the amount grows |
| Risk.LaterFactors | backend/risk_assessment_api.py:125-137 | the address and description steps add only address and short-description reasons, and the short-description reason comes last exactly when the description is shorter than ten characters |
| Risk.AddressAndDescriptionSteps | backend/risk_assessment_api.py:125-137 | steps 3 and 4 add half of each risky address score and 20 for a short description, with the matching reasons |
| Risk.ScoreRules | backend/risk_assessment_api.py:106-137 | the step-by-step accumulation gives the specification base score and reason list |
| Risk.AssessRisk | backend/risk_assessment_api.py:178-207 | the assessment's score is the capped base score, its classification follows the score, and its reasons are the specified list |
| TradeList.FetchIds | frontend/src/components/TradeList.tsx:42 | no more than ten ids are read |
| TradeList.FetchIdsWindow | frontend/src/components/TradeList.tsx:42 | exactly the ids in (max(cleared, total - 10), total] are read, newest first |
| TradeList.FetchIdsNewerAndContiguous | frontend/src/components/TradeList.tsx:42-52 | every id read is above the watermark, and consecutive ids differ by one |
| TradeList.FetchIdsEmpty | frontend/src/components/TradeList.tsx:42 | nothing is read exactly when the watermark has reached the counter |
| TradeList.ChainTrades | frontend/src/components/TradeList.tsx:43-51 | one trade per id read, carrying that id |
| TradeList.ReadWindow | frontend/src/components/TradeList.tsx:42-52 | the loop succeeds exactly when every id of the window can be read; it then lists the window's trades, each with the id it was read under, at most ten, all above the watermark |
| TradeList.Newer | frontend/src/components/TradeList.tsx:75 | a trade is kept exactly when its id is above the watermark |
| TradeList.MockClearedFromTwo | frontend/src/components/TradeList.tsx:56-75 | the demonstration trades are all filtered out exactly when the watermark is at least 2 |
| TradeList.MaxId | frontend/src/components/TradeList.tsx:95 | the largest listed id is one of the ids and bounds all of them |
| TradeList.ClearByMaxIdHidesAll | frontend/src/components/TradeList.tsx:93-98 | using the largest listed id as the watermark filters out every listed trade |
| TradeList.ClearThenFetchIsEmpty | frontend/src/components/TradeList.tsx:85-90 | right after a clear that read the counter, a fetch against the same counter reads nothing |
| TradeList.RenderActionButtons | frontend/src/components/TradeList.tsx:194-246 | a trade in progress shows only the spinner; deposit-and-cancel is offered exactly to the buyer of a created trade and release exactly to the buyer of a locked one |
| TradeList.BuyerTestIgnoresCase | frontend/src/components/TradeList.tsx:195 | the buyer test gives the same answer after lower-casing either address |
| TradeList.Panel.constructor | frontend/src/components/TradeList.tsx:23-26 | a new panel has no trades, nothing loading and nothing sent |
| TradeList.Panel.FetchTrades | frontend/src/components/TradeList.tsx:28-79 | with a readable chain the list is exactly the window's trades; any failure, including the demonstration address, gives the demonstration trades above the watermark; the panel invariant holds: nothing loading, at most ten trades, all above the watermark |
| TradeList.Panel.HandleClear | frontend/src/components/TradeList.tsx:85-100 | stores the counter as the watermark and empties the list; when the counter cannot be read it stores the largest listed id, and keeps the old watermark if the list is empty |
| TradeList.Panel.HandleDeposit | frontend/src/components/TradeList.tsx:102-144 | without a token or escrow contract nothing is sent or alerted; a failed allowance read sends nothing and alerts its error; a short allowance sends the approval and alerts the hash or the rejection; otherwise the deposit is sent, success alerted and a refresh started, or the rejection alerted; `actionLoading` is cleared afterwards |
| TradeList.Panel.HandleRelease | frontend/src/components/TradeList.tsx:146-168 | without an escrow contract nothing changes; otherwise the release call is sent, and success is alerted with one refresh, or the rejection alerted with none; `actionLoading` is cleared afterwards |
| TradeList.Panel.HandleCancel | frontend/src/components/TradeList.tsx:170-192 | without an escrow contract nothing changes; otherwise the cancel call is sent, and success is alerted with one refresh, or the rejection alerted with none; `actionLoading` is cleared afterwards |
| Exchange.AddressOf | frontend/src/components/CurrencyExchange.tsx:48-53 | the zero address stands for CFX and for no other token |
| Exchange.RatesMatchDeployment | frontend/src/components/CurrencyExchange.tsx:82-92 | selling AXCNH shows the rate the deployment script configures (backend/scripts/deploy.js:57-61); buying it shows the inverse, exactly for CFX and within 0.1% for the stablecoins |
| Exchange.SwapPlanRouting | frontend/src/components/CurrencyExchange.tsx:108-136 | a swap ends with exactly one converter call: AXCNH goes to `swapAXCNHToToken` with the target address, CFX to `swapTokenToAXCNH` with zero address, zero amount and the amount as value, and a stablecoin to `swapTokenToAXCNH` with its own address |
| Exchange.SwapPlanApproval | frontend/src/components/CurrencyExchange.tsx:113-117 | an approval is sent exactly when the source is a token whose allowance is below the amount; it comes first and is for the source token and exactly the amount |
| Exchange.Panel.constructor | frontend/src/components/CurrencyExchange.tsx:20-32 | a new panel sells AXCNH for CFX with no amount and all balances "0", and satisfies the panel invariant |
| Exchange.Panel.SwapDisabled | frontend/src/components/CurrencyExchange.tsx:261 | with the selectors paired, the "same token" condition never disables the button |
| Exchange.Panel.SelectFrom | frontend/src/components/CurrencyExchange.tsx:201-205 | from any prior selection, choosing a source pairs the selectors with exactly one side AXCNH and settles the rate |
| Exchange.Panel.SelectTo | frontend/src/components/CurrencyExchange.tsx:245-249 | the symmetric rule for the target selector |
| Exchange.Panel.SwapDirection | frontend/src/components/CurrencyExchange.tsx:94-98 | exchanges the two sides, so applying it twice restores them, and keeps the pairing |
| Exchange.Panel.UpdateRate | frontend/src/components/CurrencyExchange.tsx:82-92 | the rate effect sets the rate for the current pair |
| Exchange.Panel.EditAmount | frontend/src/components/CurrencyExchange.tsx:212 | the amount field takes the typed text |
| Exchange.Panel.HandleSwap | frontend/src/components/CurrencyExchange.tsx:100-158 | nothing happens without a converter, account and amount; an amount that does not parse sends nothing and shows the failure; otherwise the planned transactions, or those sent before an error, are logged; success clears the amount and starts one refresh, failure keeps the amount and starts none |
| Exchange.Panel.FetchBalances | frontend/src/components/CurrencyExchange.tsx:55-76 | when every connected token's balance can be read, the balances hold CFX from the context plus exactly the connected tokens; any failed read leaves them unchanged |
| DisputeForm.WithBlankEvidence | frontend/src/components/DisputeArbitration.tsx:53-65 | adding evidence keeps the list and appends one blank entry of the chosen kind |
| DisputeForm.WithoutIndexSlices | frontend/src/components/DisputeArbitration.tsx:84-90 | removing an index in range drops exactly that entry and keeps the others in order |
| DisputeForm.WithoutIndexOutside | frontend/src/components/DisputeArbitration.tsx:84-90 | removing an index outside the list leaves the list unchanged |
| DisputeForm.SetField | frontend/src/components/DisputeArbitration.tsx:75 | the chosen field takes the value (the type read from its select value) and the other two fields keep theirs |
| DisputeForm.SetFieldLastWins | frontend/src/components/DisputeArbitration.tsx:67-82 | of two edits of the same field the later wins, and edits of different fields commute |
| DisputeForm.ChatLinesKeepTextLines | frontend/src/components/DisputeArbitration.tsx:102-104 | a chat line is sent exactly when it is a line of the text whose trimmed form is not empty |
| DisputeForm.HasTextIffNotBlank | frontend/src/components/DisputeArbitration.tsx:104 | a line survives the trim filter exactly when trimming leaves something of it |
| DisputeForm.ChatLinesHaveNoBreaks | frontend/src/components/DisputeArbitration.tsx:102-104 | no sent chat line holds a line break |
| DisputeForm.WithContent | frontend/src/components/DisputeArbitration.tsx:114-115 | exactly the evidence entries with non-empty content are sent |
| DisputeForm.ConfidenceColorFollowsTier | frontend/src/components/DisputeArbitration.tsx:143-147 | green, amber and red are shown exactly for the service's high, medium and low confidence tiers |
| DisputeForm.Form.constructor | frontend/src/components/DisputeArbitration.tsx:29-41 | an empty form of type "not_received" with no evidence and no result |
| DisputeForm.Form.EditField | frontend/src/components/DisputeArbitration.tsx:166-222 | each input sets its own field and no other |
| DisputeForm.Form.AddEvidence | frontend/src/components/DisputeArbitration.tsx:53-65 | only the chosen party's list gains the blank entry |
| DisputeForm.Form.UpdateEvidence | frontend/src/components/DisputeArbitration.tsx:67-82 | only the given field of the given entry of the chosen party changes; length and all other entries stay |
| DisputeForm.Form.RemoveEvidence | frontend/src/components/DisputeArbitration.tsx:84-90 | only the chosen party's list loses the entry |
| DisputeForm.Form.CurrentPayload | frontend/src/components/DisputeArbitration.tsx:102-116 | the request carries the filtered chat lines and only the evidence with content |
| DisputeForm.Form.HandleAnalyze | frontend/src/components/DisputeArbitration.tsx:92-131 | without an amount or a buyer claim nothing is sent and an alert is raised; otherwise exactly one request with the filtered payload is sent and the result is stored, or an alert raised on failure |
| Assistant.WithChunk | frontend/src/components/PopupAssistant.tsx:71-76 | the length, every id and every sender are kept; a receiving message gets the chunk appended and every other message is unchanged; with no tracked id or an empty chunk nothing changes |
| Assistant.WithChunksConcatenates | frontend/src/components/PopupAssistant.tsx:69-77 | after chunks c1..cn a receiving message holds its old text followed by c1 + ... + cn; every other message is unchanged |
| Assistant.WithText | frontend/src/components/PopupAssistant.tsx:81-85 | the length, every id and every sender are kept; the messages with the tracked id get the error text and every other message is unchanged; with no tracked id nothing changes |
| Assistant.WithTextIdempotent | frontend/src/components/PopupAssistant.tsx:81-85 | writing the same error text twice is writing it once |
| Assistant.AfterSendShape | frontend/src/components/PopupAssistant.tsx:50-89 | the placeholder ends with the streamed reply, or with the error text on failure; with fresh ids the earlier messages and the user's message are untouched |
| Assistant.Popup.constructor | frontend/src/components/PopupAssistant.tsx:17-23 | a new pop-up holds only the greeting, with empty input and nothing loading |
| Assistant.Popup.EditInput | frontend/src/components/PopupAssistant.tsx:284 | the input takes the typed text |
| Assistant.Popup.Send | frontend/src/components/PopupAssistant.tsx:46-63 | nothing changes when there is nothing to send or a reply is streaming; otherwise the user's message and an empty placeholder are appended, the input is cleared, loading is set and the quick actions disappear |
| Assistant.Popup.ReceiveChunk | frontend/src/components/PopupAssistant.tsx:69-77 | the chunk callback applies the chunk update to the list |
| Assistant.Popup.FailStream | frontend/src/components/PopupAssistant.tsx:79-85 | the catch block writes the error text over the tracked message |
| Assistant.Popup.FinishStream | frontend/src/components/PopupAssistant.tsx:86-89 | loading is cleared and no id is tracked |
| Assistant.Popup.HandleSend | frontend/src/components/PopupAssistant.tsx:46-90 | a full send: the list grows by two to the specified messages, the input is cleared, loading ends with no tracked id, and the quick actions (shown only with at most one message and nothing loading, line 35) never come back |

## Left out

- The Flask routes, JSON parsing, console output and the HTTP calls to the language model are left out. The model's answer enters as an opaque string parameter (`ai`).
- `simulate_transaction_history` is not part of this model: the credit functions take the history as a parameter.
- `ai_user_analysis` and `ai_deep_analysis` are left out for the same reason.
- Case ids and timestamps, which come from the clock, are left out.
- Floats are exact reals. Rounding of float arithmetic, `round()`, `toFixed`, `formatUnits` and `parseUnits` are not modelled. `parseUnits` enters as a parameter `units`.
- `float(amount)` is modelled as the `Amount` datatype: a number, or text that does not parse.
- Python's `lower()` and JavaScript's `toLowerCase()` are modelled on ASCII letters only.
- Translated UI strings (`t(...)`) are datatype constructors rather than text.
- Rendering, styles, scrolling, modals' visibility and the `InfoModal` component are not modelled.
- React's asynchrony is modelled sequentially. Each handler is a method run to completion, except that `PopupAssistant`'s send is split at its awaits (`Send`, `ReceiveChunk`, `FailStream`, `FinishStream`).
  - The intermediate `loading`, `swapping` and `actionLoading` values are therefore not observable between two calls.
  - The refreshes a handler starts without awaiting are counted, not run.
- The `useEffect` that fetches on mount is not modelled; `FetchTrades` and `FetchBalances` are called explicitly. The rate effect is run at the end of each selector method.
- `Number(localStorage.getItem(...))` is modelled on stored integers only. The panel itself only ever stores integers.
- DisputeForm.Form.UpdateEvidence: requires the index to be in range. The form only calls it for rendered entries. JavaScript would grow the array with holes, or set a non-index property, for other indices.
- Arbitration.AnalyzeDispute, Arbitration.DetailedReasons: build the evidence and chat reason lines with the corrected `ReasonLine`, not the service's `ReasonLineAsWritten` (see Findings). They therefore differ from the service exactly when a party sent no evidence or the chat log is empty: there the service spells the note out character by character, and the model shows it whole. `CorrectionOnlyForEmptyInputs` proves the lines agree in every other case.
- Exchange.Panel.HandleSwap: a missing source-token contract, a failed allowance read and a rejected transaction are all given as one `Outcome` that names how many transactions went out before the error. The model does not tell these causes apart.
- Chat message ids (`Date.now() + Math.random()`) are parameters.
- The Solidity contracts (escrow, converter, tokens) are not part of this model. Only the four escrow status values are used.

## Findings

| source | as written | input that shows it | evidently intended | confidence | as-written member | corrected member |
|---|---|---|---|---|---|---|
| backend/dispute_arbitration_api.py:303-310 | `'; '.join(findings)` is applied to what the analysers return. On an empty input they return a bare string ("未提供证据", "无聊天记录"), so the join iterates over its characters. | a dispute whose buyer sent no evidence: the reason line becomes "🔍 买家证据: 未; 提; 供; 证; 据" | the message shown whole: "🔍 买家证据: 未提供证据" | not executed | Arbitration.AsWrittenSplitsEmptyEvidenceNote | Arbitration.ReasonLine |
