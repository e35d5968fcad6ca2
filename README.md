# Mettlestate tournament site: verified model of its sequential logic

The site is a single-page promotion and registration page for an esports
tournament. Most of it is layout and animation. This project models, in
Dafny, the six pieces of it that compute something:

- **Countdown** (`countdown_timer.dfy`): the time left until the event, split into
  days, hours, minutes and seconds. It is zero once the target has passed.
  Each figure is shown left-padded to two digits.
- **Leaderboard** (`leaderboard.dfy`): the fetched users are cut to the first ten
  and each gets a random score in [1000, 9999]. The list is then stably sorted
  by score, highest first. Row colour, medal badges and emphasis depend only on
  the row position. A small `loading`/`leaderboard` state covers success and
  failure.
- **RegistrationForm** (`registration_form.dfy`): four field rules, applied all or
  nothing. A press first goes through the browser's own check of the email input; when
  that check stops it, nothing is shown and nothing happens. Once the browser
  lets the press through, a field's message is shown exactly when that field
  fails, and a valid submission produces this ordered trace: wait 1000 ms,
  alert naming the gamer tag, log, reset, close the modal. The button state
  during the wait is modelled too.
- **Faq** (`faq.dfy`): an accordion with one state field `openIndex` and a toggle
  rule. Which answer is visible and which chevron is rotated follow from that field.
- **Log** (`logger.dfy`): four totally ordered levels, a threshold filter gated by
  the console switch, the constructor's defaults, the line format, and the
  exported instance's configuration.
- **RegistrationCounter** (`registration_counter.dfy`): spots remaining out of
  128, and the low-spots alert and colour.

Two shared modules support them. `Text` renders integers as decimal (`toString`),
models `padStart`, and reads decimal strings back. `Wrappers` holds `Option`.

Inputs that the real page gets from the outside world are parameters here:
- the clock reading and the target instant, as integer milliseconds;
- the outcome of the network request (`Success(users)` or `Failure`);
- one random draw in [0, 8999] per kept user;
- the schema library's email check, a function `string -> bool`;
- the browser's own check of the `type="email"` input (RegistrationForm.tsx:112), another `string -> bool`; one that accepts every string stands for an environment without that check;
- the timestamp and the `JSON.stringify` text of the logger's data argument;
- the registration count.

What the code does not do, so neither does the model:
- The leaderboard code makes one request with no retry, no timeout and no
  content-type check. It has no fallback id and no user-chosen sort or filter.
- Submitting the form never increments a registration count.
- The full name and favourite game fields have only a minimum length: no
  maximum and no rule on which characters they contain.

The gamer tag rule accepts a 20-character tag, although its message reads "less
than 20 characters" (`RegistrationForm.GamerTagRule`).

The component test `Registration.test.tsx:51-74` expects `incrementRegistration`
to be called. `RegistrationForm.tsx:33-42` never calls it, so in this model a
valid submission's trace contains no increment.

## Model

| member | source | states |
|---|---|---|
| Countdown.Initial | mettlestate-tournament/src/components/CountdownTimer.tsx:5-10 | before the first update every field is 0 |
| Countdown.UpdateCountdown | mettlestate-tournament/src/components/CountdownTimer.tsx:16-30 | with d = target - now: if d <= 0 all four fields are 0; otherwise hours < 24, minutes < 60, seconds < 60, and the sum S of the fields in milliseconds satisfies S <= d < S + 1000, so only sub-second milliseconds are dropped |
| Countdown.DaysAreWholeDays | mettlestate-tournament/src/components/CountdownTimer.tsx:22 | for d > 0, days = d div 86,400,000 |
| Countdown.DecompositionUnique | mettlestate-tournament/src/components/CountdownTimer.tsx:20-26 | any in-range decomposition that drops less than one second equals the update's result, so the update is the only correct one |
| Countdown.Display | mettlestate-tournament/src/components/CountdownTimer.tsx:48 | a figure is at least two digits; reading them back gives the value, so nothing is truncated; values >= 10 are shown unchanged; values < 10 get one leading '0' |
| Countdown.DisplayAll | mettlestate-tournament/src/components/CountdownTimer.tsx:40-48 | the four figures, in the order days, hours, minutes, seconds; each has at least two digits and reads back as its field |
| Countdown.ClockFieldsTwoDigits | mettlestate-tournament/src/components/CountdownTimer.tsx:48 | hours, minutes and seconds are always shown as exactly two characters |
| Text.NatToString | mettlestate-tournament/src/components/CountdownTimer.tsx:48 | `toString` on a non-negative integer: only digits, no leading zero, one character exactly when the value is below 10 |
| Text.IntToString | mettlestate-tournament/src/components/RegistrationCounter.tsx:81 | `toString` on an integer: it starts with '-' iff the value is negative, followed by the digits of its magnitude |
| Text.DigitsValueOfNatToString | mettlestate-tournament/src/components/CountdownTimer.tsx:48 | reading back the decimal rendering of n gives n |
| Text.PadStart | mettlestate-tournament/src/components/CountdownTimer.tsx:48 | `padStart(n, c)`: the length is max(n, length of s), s is a suffix, everything before it is c, and a string already n long is unchanged |
| Text.DigitsValueZeroPadded | mettlestate-tournament/src/components/CountdownTimer.tsx:48 | any number of leading '0's leaves the value of a digit string unchanged |
| Leaderboard.Decorate | mettlestate-tournament/src/components/Leaderboard.tsx:17-20 | the entry keeps the user's id, name, username and email; points = draw + 1000, so 1000 <= points <= 9999 |
| Leaderboard.DecorateFirst | mettlestate-tournament/src/components/Leaderboard.tsx:15-20 | exactly min(10, number of users) entries; entry i is user i decorated with draw i |
| Leaderboard.Insert | mettlestate-tournament/src/components/Leaderboard.tsx:21 | inserting into a list sorted by points keeps it sorted and adds exactly that one entry |
| Leaderboard.SortByPoints | mettlestate-tournament/src/components/Leaderboard.tsx:21 | the result is non-increasing by points and a permutation of the input |
| Leaderboard.SortIsStable | mettlestate-tournament/src/components/Leaderboard.tsx:21 | for every score, the entries with that score appear in their input order |
| Leaderboard.Entries | mettlestate-tournament/src/components/Leaderboard.tsx:15-21 | the stored list has min(10, number of users) entries, is sorted by points, highest first, and is a permutation of the decorated first-ten slice |
| Leaderboard.EntriesSpec | mettlestate-tournament/src/components/Leaderboard.tsx:15-21 | the stored list has min(10, number of users) entries; it is a permutation of the decorated first-ten slice, sorted by points with ties in fetched order; every entry is some kept user with its draw; all points are in [1000, 9999] |
| Leaderboard.LeaderboardState.constructor | mettlestate-tournament/src/components/Leaderboard.tsx:6-7 | the list starts empty and `loading` starts true |
| Leaderboard.LeaderboardState.FetchLeaderboard | mettlestate-tournament/src/components/Leaderboard.tsx:10-29 | on success the list becomes `Leaderboard.Entries(users, draws)`; on failure it is unchanged; `loading` is false afterwards in both cases |
| Leaderboard.Mount | mettlestate-tournament/src/components/Leaderboard.tsx:5-32 | a fresh component after the one load of a production build: not loading; empty list on failure; on success `Leaderboard.Entries(users, draws)`, which has min(10, number of users) entries |
| Leaderboard.MountDevelopment | mettlestate-tournament/src/components/Leaderboard.tsx:9-32 | under `React.StrictMode` (main.tsx:8) a development build runs the load twice: afterwards nothing is loading; the load finishing last decides the list when it succeeds; if it fails, the other load's list stays, or the list stays empty when both fail |
| Leaderboard.GetRankColor | mettlestate-tournament/src/components/Leaderboard.tsx:34-39 | the colour is the default exactly from position 3 on, i.e. from the fourth row |
| Leaderboard.RankColorClasses | mettlestate-tournament/src/components/Leaderboard.tsx:35-38 | the grey default gradient appears only for the default colour, never for gold, silver or bronze |
| Leaderboard.Emphasised | mettlestate-tournament/src/components/Leaderboard.tsx:66-68 | a row gets the shadow and scale exactly when its colour is not the default |
| Leaderboard.BadgeParts | mettlestate-tournament/src/components/Leaderboard.tsx:72-75 | of the four badge expressions, exactly the one for the row's position (medal 0, 1 or 2, or the '#n' one from position 3 on) renders something |
| Leaderboard.Badge | mettlestate-tournament/src/components/Leaderboard.tsx:71-76 | row 0 shows the gold medal, row 1 the silver and row 2 the bronze; every other row shows '#' and its 1-based position |
| Leaderboard.RankColors | mettlestate-tournament/src/components/Leaderboard.tsx:34-39 | positions 0, 1 and 2 get the gold, silver and bronze gradients, each distinct from every other position's; every other position gets the grey default |
| Leaderboard.ExactlyOneBadge | mettlestate-tournament/src/components/Leaderboard.tsx:71-76 | exactly one of the four badge expressions renders, and the badge is that one |
| Leaderboard.TopThreeRules | mettlestate-tournament/src/components/Leaderboard.tsx:66-75 | a row is emphasised iff it has a medal iff its colour is not the default, i.e. iff its position is below 3; lower rows show "#" and their 1-based position |
| Leaderboard.MedalsToHighestScores | mettlestate-tournament/src/components/Leaderboard.tsx:59-75 | in the stored list, every row with a medal scores at least as much as every row without one |
| RegistrationForm.FieldError | mettlestate-tournament/src/components/RegistrationForm.tsx:9-14 | the email field passes iff the email check accepts it; every other field that passes has at least 2 characters; a failing field reports one of the schema's five messages |
| RegistrationForm.Validate | mettlestate-tournament/src/components/RegistrationForm.tsx:9-14 | all or nothing: the data passes unchanged iff every field passes; otherwise the error map holds exactly the failing fields, each with its schema message |
| RegistrationForm.FullNameRule | mettlestate-tournament/src/components/RegistrationForm.tsx:10 | the full name passes iff it has at least 2 characters; beyond that its content and length do not affect validity |
| RegistrationForm.GamerTagRule | mettlestate-tournament/src/components/RegistrationForm.tsx:11 | for any form data, the gamer tag passes iff 3 <= length <= 20; 20 characters pass; 21 get the "less than 20" message; under 3 get the "at least 3" message |
| RegistrationForm.FavoriteGameRule | mettlestate-tournament/src/components/RegistrationForm.tsx:13 | the favourite game passes iff it has at least 2 characters, and otherwise reports 'Please enter your favorite game' |
| RegistrationForm.SuccessText | mettlestate-tournament/src/components/RegistrationForm.tsx:37 | the alert text is the fixed prefix 'Registration successful for ', then the submitted gamer tag, then a final '!' |
| RegistrationForm.AfterDelay | mettlestate-tournament/src/components/RegistrationForm.tsx:37-41 | four effects after the delay, in order: the alert naming the tag, the log of the data, the reset, and the close, which happens only once and last |
| RegistrationForm.PressTrace | mettlestate-tournament/src/components/RegistrationForm.tsx:73-116 | a press has an effect iff the browser accepts the email input and every schema field passes, and then its effects are the submission's trace |
| RegistrationForm.SubmitTrace | mettlestate-tournament/src/components/RegistrationForm.tsx:33-42 | once the browser lets the submit event through, it has an effect iff every schema field passes; the effects are then the 1000 ms wait followed by the after-delay effects |
| RegistrationForm.SubmitAllOrNothing | mettlestate-tournament/src/components/RegistrationForm.tsx:33-42 | once the browser lets the press through, the submission produces effects, closes the modal and shows the alert iff all fields pass; on success the trace is: wait 1000 ms, alert naming the gamer tag, log of the data, reset, close |
| RegistrationForm.BrowserBlocksTestAddress | mettlestate-tournament/src/components/__tests__/Registration.test.tsx:24-74 | with a browser that stops 'invalidemail' and lets 'valid@email.com' through, the test's first record has no effect whatever the schema's email check says, and the second closes the modal when the schema agrees with the tests |
| RegistrationForm.TestScenarios | mettlestate-tournament/src/components/__tests__/Registration.test.tsx:24-74 | with an email check that rejects 'invalidemail' and accepts 'valid@email.com': the first record fails on the email alone and produces no effect; the second passes and closes the modal |
| RegistrationForm.FormState.constructor | mettlestate-tournament/src/components/RegistrationForm.tsx:24-31 | empty inputs, no errors, not submitting, no effects yet |
| RegistrationForm.FormState.Type | mettlestate-tournament/src/components/RegistrationForm.tsx:78-132 | typing into any of the four registered inputs (lines 78-84, 94-100, 110-116, 126-132) sets that input and leaves the other three unchanged |
| RegistrationForm.FormState.ErrorShown | mettlestate-tournament/src/components/RegistrationForm.tsx:85-135 | a field shows a message exactly when the error map holds one for it, and it shows that message |
| RegistrationForm.FormState.ButtonDisabled | mettlestate-tournament/src/components/RegistrationForm.tsx:140 | the submit button is disabled exactly while a submission is in flight |
| RegistrationForm.FormState.ButtonLabel | mettlestate-tournament/src/components/RegistrationForm.tsx:143 | the button reads 'Registering...' exactly while it is disabled and 'Complete Registration' otherwise |
| RegistrationForm.FormState.PressSubmit | mettlestate-tournament/src/components/RegistrationForm.tsx:73-143 | if the browser rejects the `type="email"` input, the submit event does not fire: no errors change, nothing starts, no effect; otherwise the submission starts iff every field passes, each field's shown message is exactly its schema error, and on success the button is disabled and labelled 'Registering...' while the delay runs |
| RegistrationForm.FormState.FinishSubmit | mettlestate-tournament/src/components/RegistrationForm.tsx:35-41 | after the delay: alert, log, reset, close, in that order, for the data that was submitted; the inputs are empty, the submitted data is kept, and the button reads 'Complete Registration' again |
| RegistrationForm.FillAndSubmit | mettlestate-tournament/src/components/RegistrationForm.tsx:30-132 | filling a fresh form and pressing submit produces exactly the press's trace; if the browser rejects the email no message is shown, otherwise messages are shown exactly for the failing fields |
| Faq.Toggle | mettlestate-tournament/src/components/FAQ.tsx:51 | clicking the open item closes it; clicking any other item, or any item while none is open, opens that item |
| Faq.AnswerVisible | mettlestate-tournament/src/components/FAQ.tsx:63 | an answer is rendered only when the open index is present and equal to its position; with nothing open no answer is rendered |
| Faq.ChevronRotated | mettlestate-tournament/src/components/FAQ.tsx:56-57 | a chevron carries the rotation class exactly when its own answer is rendered |
| Faq.VisibilityRules | mettlestate-tournament/src/components/FAQ.tsx:56-63 | at most one answer is visible; a chevron is rotated exactly when its answer is visible |
| Faq.DoubleClick | mettlestate-tournament/src/components/FAQ.tsx:51 | two clicks on an item leave nothing open, unless that item was open before, in which case it is open again |
| Faq.ClickEffect | mettlestate-tournament/src/components/FAQ.tsx:51-63 | after a click on item i, answer i is visible iff it was hidden before, and every other answer is hidden |
| Faq.ClicksStayInRange | mettlestate-tournament/src/components/FAQ.tsx:41-51 | clicks that come from the four rendered rows keep the open index valid |
| Faq.LastClickDecides | mettlestate-tournament/src/components/FAQ.tsx:51 | after any non-empty run of clicks, either nothing is open or the item clicked last is |
| Faq.Accordion.constructor | mettlestate-tournament/src/components/FAQ.tsx:7 | initially no item is open and no answer is visible |
| Faq.Accordion.Click | mettlestate-tournament/src/components/FAQ.tsx:51-63 | the new open index follows the toggle rule and stays valid; the clicked answer's visibility flips; all other answers are hidden; every chevron is rotated exactly when its answer is visible |
| Faq.Replay | mettlestate-tournament/src/components/FAQ.tsx:7-51 | replaying clicks on a fresh accordion reaches the state the toggle rule predicts, and that state is valid |
| Log.IndexOf | mettlestate-tournament/src/utils/logger.ts:21-23 | `indexOf` returns the first position holding the level, or -1 when the level is absent |
| Log.Rank | mettlestate-tournament/src/utils/logger.ts:21-23 | every level is found in the level list, at its rank |
| Log.ToUpper | mettlestate-tournament/src/utils/logger.ts:30 | upper-casing maps a-z to A-Z and keeps every other character and the length |
| Log.WithDefaults | mettlestate-tournament/src/utils/logger.ts:12-18 | the given fields are kept; the defaults are level 'info', console on and remote off |
| Log.Name | mettlestate-tournament/src/utils/logger.ts:1 | each level name has at least four characters, all lower-case letters a-z |
| Log.ShouldLog | mettlestate-tournament/src/utils/logger.ts:20-25 | a message passes iff its level's rank is at least the configured level's rank; a message at the configured level always passes |
| Log.FormatMessage | mettlestate-tournament/src/utils/logger.ts:27-31 | the line is six separator characters longer than timestamp, level name and message together, plus a newline and the data text when data is present; it ends with the data text when present and with the message otherwise |
| Log.LevelOrder | mettlestate-tournament/src/utils/logger.ts:20-25 | debug < info < warn < error, a total order; shouldLog(l) iff rank(l) >= rank(configured level) |
| Log.FilterBasics | mettlestate-tournament/src/utils/logger.ts:21-24 | a message at the configured level passes, and `error` passes under every configuration |
| Log.FilterMonotone | mettlestate-tournament/src/utils/logger.ts:20-25 | raising the threshold never admits a message the lower threshold rejects |
| Log.FormatShape | mettlestate-tournament/src/utils/logger.ts:27-31 | the line is "[" ts "] [" LEVEL "] " message; a newline and the data text follow only when the data is truthy |
| Log.UpperNames | mettlestate-tournament/src/utils/logger.ts:30 | the level tags are DEBUG, INFO, WARN and ERROR |
| Log.Logger.constructor | mettlestate-tournament/src/utils/logger.ts:12-18 | the configuration is the argument with the defaults filled in |
| Log.Logger.Write | mettlestate-tournament/src/utils/logger.ts:33-55 | a line is written iff shouldLog(level) and the console is enabled, and it is the formatted message |
| Log.Logger.LogDebug | mettlestate-tournament/src/utils/logger.ts:33-37 | writes the formatted debug line iff debug passes the filter and the console is enabled |
| Log.Logger.LogInfo | mettlestate-tournament/src/utils/logger.ts:39-43 | the same rule, at level info |
| Log.Logger.LogWarn | mettlestate-tournament/src/utils/logger.ts:45-49 | the same rule, at level warn |
| Log.Logger.LogError | mettlestate-tournament/src/utils/logger.ts:51-55 | the same rule, at level error |
| Log.ExportedConfig | mettlestate-tournament/src/utils/logger.ts:58-61 | level 'warn' in production and 'debug' otherwise; console on; remote off |
| Log.ExportedFilter | mettlestate-tournament/src/utils/logger.ts:58-61 | in production only warn and error pass (debug and info are suppressed); otherwise every level passes |
| Log.ExportedLogger | mettlestate-tournament/src/utils/logger.ts:58-61 | the exported instance has that configuration |
| RegistrationCounter.SpotsLeft | mettlestate-tournament/src/components/RegistrationCounter.tsx:8-10 | spots left plus the count is always 128 |
| RegistrationCounter.AlertShown | mettlestate-tournament/src/components/RegistrationCounter.tsx:74 | the alert block is rendered iff the count exceeds 128 - 20 = 108 |
| RegistrationCounter.Colour | mettlestate-tournament/src/components/RegistrationCounter.tsx:64-66 | the figure is red iff the count exceeds 108, green otherwise |
| RegistrationCounter.AlertText | mettlestate-tournament/src/components/RegistrationCounter.tsx:80-82 | the text is the fixed warning prefix, then the decimal rendering of the spots figure, then the fixed suffix |
| RegistrationCounter.AlertCondition | mettlestate-tournament/src/components/RegistrationCounter.tsx:64-74 | the alert is shown iff spots left < 20, i.e. iff the count exceeds 108; the figure is red exactly while the alert is shown, green otherwise |
| RegistrationCounter.NotClamped | mettlestate-tournament/src/components/RegistrationCounter.tsx:10 | a count above 128 gives a negative figure, rendered with a minus sign, and the alert is shown |
| RegistrationCounter.AlertTextCarriesSpots | mettlestate-tournament/src/components/RegistrationCounter.tsx:80-82 | the alert text embeds the rendering of the same spots-left value, which reads back as that value when it is non-negative |

## Left out

- Network, JSON parsing and `Math.random` (Leaderboard.tsx:12-13, 19) are I/O; their outcomes are inputs.
- The clock, the local-time parse of the target date, and `setInterval`/`clearInterval` (CountdownTimer.tsx:14, 17, 33-35) are I/O. `now` and `target` are integer milliseconds.
- Number-to-string for values of 10^21 and more, which JavaScript writes in exponent notation, is not modelled. The count and `getTime()` differences never reach it.
- The percentage and `toFixed` (RegistrationCounter.tsx:9, 40) and `toLocaleString` (Leaderboard.tsx:83) are floating point or locale formatting.
- The email regex belongs to the schema library, and the email grammar of a `type="email"` input to the browser. Both are parameters, each constrained only by the two addresses the component test uses.
- String lengths are sequence lengths. The schema library counts UTF-16 code units, so text outside the Basic Multilingual Plane measures differently.
- The registration store (`RegistrationContext`) is not part of this model. The count is an input, and none of the store's operations are modelled.
- Console output, `alert` and the logger's `enableRemote` flag have no behaviour beyond their recorded effect or stored value. `JSON.stringify` output is an opaque string.
- The form library's internals are not modelled: resolver scheduling, re-validation while typing, touched/dirty state.
- Leaderboard.Mount: only the single load of a production build. In a development build `React.StrictMode` (main.tsx:8) runs the effect twice; `Leaderboard.MountDevelopment` covers the two loads for either completion order, but not the moment between the two completions.
- RegistrationForm.FormState.Type: the browser strips leading and trailing whitespace and line breaks from a `type="email"` value; the model stores the email as typed.
- RegistrationForm.FormState.PressSubmit: the browser's check of the email input is a parameter; the tooltip it shows is not modelled. A second submission while one is in flight is not modelled, because the only submit button is disabled then (RegistrationForm.tsx:140).
- The modal's open flag belongs to the parent page. Closing is recorded as the `CloseModal` effect, i.e. the `onClose` call.
- Rendering, animation, styling other than the rank colours and the red/green figure, and the other components (Hero, Header, Footer, EventDetails, RulesModal, RegistrationsModal, App, main) are presentation only.
