# Savvy Invest Helper: a verified model of the risk questionnaire

This project is a Dafny model of the logic core of Savvy Invest Helper, a small investment-guidance web app. There are four parts, one module each:

- **`RiskCalculator`** (`risk_calculator.dfy`) is the scoring engine.
  - It holds the table of eight questions. Each question has five options, worth 0 to 4 risk points.
  - `calculateRiskProfile` is modelled as the method `CalculateRiskProfile`. It sums the points of the answers it can resolve, averages them, and maps the percentage to one of five ordered profiles (`No < Low < Medium < High < VeryHigh`).
  - The two lookups keyed by profile are modelled too: descriptions and investment recommendations.
  - The accumulation loop is the method `AccumulatePoints`. It visits the answer entries in an arbitrary order. It is proved equal to a reference function `Score` that walks the question table.
- **`RiskAssessment`** (`risk_assessment.dfy`) is the questionnaire wizard, a class `Wizard` with the page's state: `currentStep`, `answers` and `showInfo`.
  - Its handlers keep an invariant: every question before the current step has an answer.
  - So a submitted questionnaire is complete, and the submitted profile is `ProfileOf(answers)`. The profile is stored on the session.
- **`ChatAssistant`** (`chat_assistant.dfy`) is the canned chat widget.
  - The reply rule is modelled twice. `SelectReply` copies the source's loop with its early break and the two overriding tests. `ReplyKind` is a priority function: funds, then thanks, then the first keyword, then the default. The method is proved equal to the function.
  - The class `Chat` models the message list, the input box, the typing flag, and the reply and welcome timers.
- **`AuthContext`** (`auth_context.dfy`) is the session provider. A class `Session` holds an optional user, a loading flag, and the record persisted in the browser store.
  - Every operation keeps the persisted record equal to the user (`Synced`).

`Wrappers` (`wrappers.dfy`) defines `Option`.

### Clocks, timers and the store

These become parameters or methods:

- `now` stands for `Date.now()` and `new Date()`.
- `newId` stands for the random user id.
- Each timer firing is its own method. `Chat.CompleteReply` is the reply timer, `Chat.DeliverWelcome` is the welcome timer, and the login delay is collapsed into `Login`.
- The browser store is an `Option<User>` field.
- Navigation and toasts become values of the outcome type `StepOutcome`.

### Where the model differs from the source code

- **The source tests "answered" by truthiness.** `!answers[id]` in `nextStep` is true when the key is missing and also when the option id is the empty string. `AnsweredIn` models exactly that.
- **The welcome timer replaces the message list.** It calls `setMessages([welcome])` and does not append. The effect only starts the timer while the list is empty. But a message sent during the 500 ms before the timer fires is replaced when the greeting arrives. `DeliverWelcome` models this as written.
- **Enter sends even while a reply is pending.** The Enter key calls `handleSend` even while `isTyping` is set; only the button is disabled then. So several reply timers can be running at once. Each one answers the text that was current when it was started. The model keeps these texts in the queue `pending`.
- **Login and signup cannot fail.** Both accept any credentials. The model takes the generated id as the parameter `newId`.
- **Assistant messages hold a selector.** Their content is a `Canned` value naming one of the nine fixed texts, and `Text` gives each text verbatim. The greeting is `KeywordText(0)`, because the source's welcome literal is the same text as the reply to `hello`.

## Model

| member | source | states |
|---|---|---|
| RiskCalculator.Rank | src/utils/riskCalculator.ts:11 | The five profiles are totally ordered `no < low < medium < high < very-high`: a rank below 5, 0 exactly for `no`, 4 exactly for `very-high` |
| RiskCalculator.RankIsInjective | src/utils/riskCalculator.ts:11 | Two profiles have the same rank exactly when they are the same profile |
| RiskCalculator.FindQuestion | src/utils/riskCalculator.ts:113 | The question `find`: on success the index is in range, holds the id, and no earlier question has it; on failure no question has the id |
| RiskCalculator.FindOption | src/utils/riskCalculator.ts:117 | The option `find`: on success the index holds the option id and no earlier option has it; on failure no option has it |
| RiskCalculator.Score | src/utils/riskCalculator.ts:112-124 | Reference accumulation over the question table: at most one counted answer per question |
| RiskCalculator.AccumulatePoints | src/utils/riskCalculator.ts:108-124 | The `for…in` loop over the answer entries, in any visiting order, skipping unresolvable entries, yields exactly the reference tally `Score` |
| RiskCalculator.CalculateRiskProfile | src/utils/riskCalculator.ts:107-142 | `calculateRiskProfile` returns `ProfileOf(answers)`: the zero-count guard and the integer thresholds agree with the percentage cascade |
| RiskCalculator.QuestionTableShape | src/utils/riskCalculator.ts:15-104 | The table has 8 questions; question `i` has id `i+1` and 5 options with distinct ids, option `j` worth `j` points |
| RiskCalculator.PointsAreZeroToFour | src/utils/riskCalculator.ts:19-102 | The points of every question's options are exactly the set {0, 1, 2, 3, 4} |
| RiskCalculator.QuestionIdsDistinct | src/utils/riskCalculator.ts:15-104 | No two questions share an id, so the loop's lookup and the table walk pick the same question |
| RiskCalculator.ScoreInsert | src/utils/riskCalculator.ts:112-124 | Adding an entry for a new key adds exactly that entry's resolved points and one to the count, or nothing when it does not resolve |
| RiskCalculator.ScoreCongruent | src/utils/riskCalculator.ts:112-124 | The tally depends only on the entries of the answer map |
| RiskCalculator.ScoreRemove | src/utils/riskCalculator.ts:112-124 | Removing an entry removes exactly its resolved contribution |
| RiskCalculator.ScoreOfNothing | src/utils/riskCalculator.ts:108-110 | The empty answer map tallies 0 points over 0 answers |
| RiskCalculator.ScoreOfUnresolved | src/utils/riskCalculator.ts:113-123 | When no entry resolves, both total and count stay 0 |
| RiskCalculator.ScoreBounded | src/utils/riskCalculator.ts:131 | The total is at most `maxPossibleAverage` (4) points per counted answer |
| RiskCalculator.ScoreOfUniformChoice | src/utils/riskCalculator.ts:112-124 | Answering every question with its option at position `j` (worth `j`, unique id) tallies `j` points per question |
| RiskCalculator.PercentageBelow | src/utils/riskCalculator.ts:130-134 | The percentage `((total/count)/4)*100` is below `k` exactly when `25*total < k*count` |
| RiskCalculator.ClassifyByCrossMultiplication | src/utils/riskCalculator.ts:126-141 | The cascade at 20/40/60/80 percent equals the integer rule `5*total < 4*count → no`, `< 8*count → low`, `< 12*count → medium`, `< 16*count → high`, else `very-high`, with 0 answers giving `no` |
| RiskCalculator.ClassifyMonotone | src/utils/riskCalculator.ts:137-141 | More points over the same number of answers never gives a lower profile |
| RiskCalculator.BoundedTallyPercentage | src/utils/riskCalculator.ts:130-134 | At most four points per answer puts the percentage in [0, 100] |
| RiskCalculator.PercentageInRange | src/utils/riskCalculator.ts:131-134 | For any answers with at least one resolved entry the percentage lies in [0, 100] |
| RiskCalculator.ResolveTableOption | src/utils/riskCalculator.ts:113-120 | Option `j` of question `i+1` resolves to exactly `j` points |
| RiskCalculator.ResolveNone | src/utils/riskCalculator.ts:113-123 | An entry fails to resolve if and only if no question with that id has that option id |
| RiskCalculator.NothingResolvedIsNo | src/utils/riskCalculator.ts:126-127 | If no entry resolves the profile is `no` |
| RiskCalculator.EmptyAnswersIsNo | src/utils/riskCalculator.ts:126-127 | The empty answer map gives `no` |
| RiskCalculator.UnresolvedEntryIgnored | src/utils/riskCalculator.ts:113-123 | Adding an entry with an unknown question id or a foreign option id changes neither the tally nor the profile |
| RiskCalculator.RaisingAnAnswerNeverLowers | src/utils/riskCalculator.ts:119-120 | Replacing a resolved answer by one worth at least as many points never lowers the profile |
| RiskCalculator.ScoreCountsEveryResolvedAnswer | src/utils/riskCalculator.ts:119-122 | When every question holds a resolvable answer, every question is counted |
| RiskCalculator.CompleteAnswersCountAll | src/utils/riskCalculator.ts:112-124 | A questionnaire in which each question holds one of its own option ids averages over all 8 answers |
| RiskCalculator.UniformChoiceScore | src/utils/riskCalculator.ts:15-104 | Choosing option `j` everywhere tallies `8*j` points over 8 answers |
| RiskCalculator.AllLowestIsNo | src/utils/riskCalculator.ts:137 | All "a" options (0 points) give `no` |
| RiskCalculator.AllMiddleIsMedium | src/utils/riskCalculator.ts:139 | All "c" options (2 points, 50 percent) give `medium` |
| RiskCalculator.AllHighestIsVeryHigh | src/utils/riskCalculator.ts:141 | All "e" options (4 points) give `very-high` |
| RiskCalculator.TwoLowAnswersIsNo | src/utils/riskCalculator.ts:126-137 | Answers 1a and 2b tally 1 point over 2 answers (12.5 percent) and give `no` |
| RiskCalculator.Describe | src/utils/riskCalculator.ts:145-210 | The description lookup is total over the five profiles and every description has exactly 4 characteristics |
| RiskCalculator.Allocations | src/utils/riskCalculator.ts:225-380 | Every profile has 5 allocations whose percentages are non-negative and sum to exactly 100 |
| RiskCalculator.Investments | src/utils/riskCalculator.ts:232-417 | The example investments number 3 for `no`, 4 for `low`, `medium` and `high`, and 5 for `very-high` |
| RiskCalculator.Recommend | src/utils/riskCalculator.ts:213-422 | The recommendation lookup is total; its allocations are 5 entries summing to 100 |
| RiskAssessment.SelectionKeepsAnswers | src/pages/RiskAssessment.tsx:32-37 | Selecting a non-empty option keeps every question before the step answered |
| RiskAssessment.AnsweringExtends | src/pages/RiskAssessment.tsx:39-59 | An answered current question extends the answered prefix by one step |
| RiskAssessment.Toggled | src/pages/RiskAssessment.tsx:103-109 | The toggle shows `q` exactly when `q` was not shown, and collapses otherwise |
| RiskAssessment.ToggleTwice | src/pages/RiskAssessment.tsx:103-109 | Toggling the same question twice restores the previous state when nothing or that question was expanded |
| RiskAssessment.Wizard.constructor | src/pages/RiskAssessment.tsx:16-19 | The page starts at step 0 with no answers and nothing expanded |
| RiskAssessment.Wizard.SelectAnswer | src/pages/RiskAssessment.tsx:32-37 | `answers[questionId] := optionId`; every other entry, the step and `showInfo` are unchanged |
| RiskAssessment.Wizard.NextStep | src/pages/RiskAssessment.tsx:39-61 | Unanswered current question: nothing changes. Answered and not last: step + 1 and `showInfo` cleared. Answered and last: submits. The step stays in range and the answered-prefix invariant is kept, so a submission has all 8 questions answered |
| RiskAssessment.Wizard.HandleSubmit | src/pages/RiskAssessment.tsx:73-90 | The computed profile is `ProfileOf(answers)` and is stored on the session user (nothing without a user) |
| RiskAssessment.Wizard.PrevStep | src/pages/RiskAssessment.tsx:63-71 | Above step 0: step − 1 and `showInfo` cleared; at step 0 the state is unchanged and the page navigates back |
| RiskAssessment.Wizard.ToggleInfo | src/pages/RiskAssessment.tsx:103-109 | `showInfo` becomes the toggled value; step and answers unchanged |
| ChatAssistant.LowerChar | src/components/ChatAssistant.tsx:79 | ASCII lower-casing: capitals move down by 32, other characters stay, and no capital remains |
| ChatAssistant.Lower | src/components/ChatAssistant.tsx:79 | Lower-casing keeps the length and lower-cases each character |
| ChatAssistant.LowerIdempotent | src/components/ChatAssistant.tsx:79 | Lower-casing twice equals lower-casing once |
| ChatAssistant.IncludesMeans | src/components/ChatAssistant.tsx:82 | The substring test holds exactly when the key occurs at some position |
| ChatAssistant.IncludesPrefix | src/components/ChatAssistant.tsx:89 | A text containing a key contains every prefix of the key |
| ChatAssistant.TrimStartDropsBlankPrefix | src/components/ChatAssistant.tsx:59 | Trimming the start removes a whitespace-only prefix and stops at a non-whitespace character |
| ChatAssistant.TrimEndKeepsPrefix | src/components/ChatAssistant.tsx:59 | Trimming the end keeps a prefix and drops a whitespace-only suffix |
| ChatAssistant.TrimEmptyIffBlank | src/components/ChatAssistant.tsx:59 | The trimmed input is empty exactly when every character is whitespace |
| ChatAssistant.FindKeyword | src/components/ChatAssistant.tsx:81-86 | The first keyword in declaration order that occurs, and none before it does; or none occurs at all |
| ChatAssistant.FirstMatchIsFound | src/components/ChatAssistant.tsx:81-86 | A keyword that matches after no earlier one did is the one chosen |
| ChatAssistant.ReplyKind | src/components/ChatAssistant.tsx:76-96 | The reply always names one of the nine fixed texts |
| ChatAssistant.FundsWin | src/components/ChatAssistant.tsx:94-96 | An input containing `etf` or `mutual fund` gets the funds text, whatever else it contains |
| ChatAssistant.ThanksWins | src/components/ChatAssistant.tsx:89-91 | Otherwise an input containing `thank` gets the thanks text |
| ChatAssistant.ThanksImpliesThank | src/components/ChatAssistant.tsx:89 | Testing for `thanks` after `thank` adds nothing |
| ChatAssistant.FirstKeywordWins | src/components/ChatAssistant.tsx:81-86 | Otherwise the first keyword in declaration order that occurs decides the reply |
| ChatAssistant.HelloBeforeHi | src/components/ChatAssistant.tsx:19-20 | `hello` is tried before `hi`: an input containing `hello` gets the reply to `hello` |
| ChatAssistant.NoKeywordIsDefault | src/components/ChatAssistant.tsx:76 | With no keyword at all the reply is the default "I'm sorry…" text |
| ChatAssistant.ReplyIgnoresCase | src/components/ChatAssistant.tsx:79 | Inputs that differ only in the case of their letters get the same reply |
| ChatAssistant.ReplyOfLowered | src/components/ChatAssistant.tsx:79 | Lower-casing the input first does not change the reply |
| ChatAssistant.SelectReply | src/components/ChatAssistant.tsx:74-97 | The loop with `break` and the two overriding tests compute exactly the priority rule `ReplyKind` |
| ChatAssistant.Welcome | src/components/ChatAssistant.tsx:46-53 | The greeting has id 1, comes from the assistant at the given time, and carries the reply selected by the keyword `hello` |
| ChatAssistant.Chat.constructor | src/components/ChatAssistant.tsx:28-30 | The widget starts with no messages, an empty input, and no typing indicator |
| ChatAssistant.Chat.WelcomeEffect | src/components/ChatAssistant.tsx:43-56 | A welcome timer is started only when the message list is empty |
| ChatAssistant.Chat.DeliverWelcome | src/components/ChatAssistant.tsx:45-54 | When the timer fires, the list becomes the greeting alone |
| ChatAssistant.Chat.SetInput | src/components/ChatAssistant.tsx:214 | Typing replaces the input and changes nothing else |
| ChatAssistant.Chat.Send | src/components/ChatAssistant.tsx:58-72 | Blank input: nothing changes. Otherwise exactly one user message with the original text is appended, the input is cleared, the indicator is set, and a reply is queued for that text |
| ChatAssistant.Chat.KeyDown | src/components/ChatAssistant.tsx:111-116 | Enter without Shift sends as `Send` does, even while a reply is pending; other keys change nothing |
| ChatAssistant.Chat.CompleteReply | src/components/ChatAssistant.tsx:74-108 | Exactly one assistant message is appended, with id `now+1` and the reply to the text captured at send time; the indicator is cleared |
| AuthContext.FreshUser | src/context/AuthContext.tsx:45-49 | A new record has the given id and email and no risk profile |
| AuthContext.WithRiskProfile | src/context/AuthContext.tsx:96-99 | The updated record keeps id and email and holds the new profile |
| AuthContext.WithRiskProfileLastWins | src/context/AuthContext.tsx:96-99 | Updating twice keeps only the last profile |
| AuthContext.Session.constructor | src/context/AuthContext.tsx:23-24 | The provider starts with no user and loading |
| AuthContext.Session.InitialLoad | src/context/AuthContext.tsx:26-33 | The user becomes the stored record if there is one and is unchanged otherwise; loading ends; the user and the store then agree |
| AuthContext.Session.Login | src/context/AuthContext.tsx:35-60 | The user becomes a record with the given email and no profile; the same record is stored; authenticated; not loading |
| AuthContext.Session.Signup | src/context/AuthContext.tsx:62-87 | As login: a fresh record, stored, authenticated, not loading |
| AuthContext.Session.Logout | src/context/AuthContext.tsx:89-92 | No user and no stored record; not authenticated |
| AuthContext.Session.UpdateRiskProfile | src/context/AuthContext.tsx:94-103 | No user: user and store unchanged. Otherwise the profile is set, id and email are kept, and the updated record is stored |

`Session.IsAuthenticated` (src/context/AuthContext.tsx:108) is the predicate `user.Some?`. The contracts above state it after each operation.

## Left out

- **Rendering and navigation.** JSX rendering, toasts, `console.error`, scrolling and navigation are not modelled. A navigation appears only as a `StepOutcome` value.
- **Route protection.** The effect that redirects when not authenticated (src/pages/RiskAssessment.tsx:26-30, 112) is navigation.
- **isSubmitting.** The flag (src/pages/RiskAssessment.tsx:18, 74, 99) is set and reset within one synchronous handler.
- **The progress bar.** The percentage at src/pages/RiskAssessment.tsx:115 is display only.
- **Timer delays and times.** The delays (500 ms, 1000 ms, 1500 ms) are not modelled; a timer firing is a method call. `Date.now()`, `new Date()` and `Math.random()` become parameters. Message ids, which the source writes as decimal strings, are kept as the integers they spell.
- **Browser store format.** Storage is an optional user value; writing JSON and reading it back are not modelled. A stored record that fails to parse, or a store write that throws, is not modelled.
- **Intermediate states.** The `isLoading = true` state between the start and the end of `login`/`signup` is collapsed into one step. The error paths after the `await` are not modelled, since nothing in the simulated body fails.
- **Stale closures.** React batching is not modelled, nor are the stale values a handler closure may see. `updateUserRiskProfile` reads the user of the render that created it; the model reads the current user.
- **`useAuth`** throws outside a provider (src/context/AuthContext.tsx:119-125). That is a React wiring check.
- **Answer keys.** Keys are modelled as integers. The source's `for…in` turns each key into a string and `parseInt` turns it back. A non-integer or exponent-notation key would parse to another number; the wizard only ever writes the ids 1..8, and such keys are not modelled.
- **Floating point.** The model classifies in exact arithmetic, and the source uses IEEE doubles. `Score` proves that at most eight answers resolve. With eight or fewer answers, a percentage falls exactly on a threshold only with five answers (totals 4, 8, 12 and 16). For those, the double computation `((t/5)/4)*100` rounds to exactly 20, 40, 60 and 80. Every other percentage is at least 0.5 away from every threshold. This agreement is an argument about rounding, not part of the proofs.
- **Letter case.** `toLowerCase` is modelled on ASCII letters only.
- **Display text.** Question prompts and option labels are kept as display-only tables (`QuestionPrompts`, `OptionLabels`). The descriptions and investment entries are kept verbatim.
- RiskCalculator.Describe: states only that the lookup is total and that each description has four characteristics, not the wording of the texts.
- RiskCalculator.Investments: states only how many investments each profile lists, not their names, descriptions or expected returns.
- ChatAssistant.ReplyKind: names which fixed text answers. The characters of the nine texts are given by `Text` and are not restated in any contract.
