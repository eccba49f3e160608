# A verified model of the greeting page's game logic

The greeting page is a small game with three levels, played on one screen (`Desktop`).

- **Level 1** has three tasks, one per widget:
  - the reasons panel (`WhyMartinaPanel`): open all five cards;
  - the heart-fill widget (`HeartMonitor`): click the heart until the final message shows;
  - the passcode lock (`SupriseLock`): type the right date.
- **Level 2** is a five-question quiz (`QuestionsPanel`). It unlocks once the three level-1 tasks are done.
- **Level 3** is the letter. It unlocks once the quiz is complete, and it starts a while after unlocking.

The screen holds four task flags. From them it derives the level gates, the current level and a progress bar. It stores the flags in the browser under a key derived from the passcode, by a rolling 32-bit hash.

The project models these five components. It proves what each promises:
- the derivations are exact, bounded and monotone;
- the key depends only on the trimmed passcode;
- the stored flags round-trip;
- the letter never starts while level 3 is locked;
- the lock opens on exactly the right digits;
- the heart-fill widget calls its one-shot callback exactly once, on the eleventh click;
- within one opening of the reasons dialog, the panel calls its callback exactly once, on the toggle that first opens the fifth card;
- the quiz completes only after the five questions have been answered correctly, in order.

Modules, one file each:

| file | module | models |
|---|---|---|
| `jsstring.dfy` | `JsString` | `String.prototype.trim` and the UTF-16 code units `charCodeAt` reads |
| `progress.dfy` | `Progress` | the four flags and what `Desktop` derives from them |
| `progresskey.dfy` | `ProgressKey` | `makeProgressKey`: the rolling hash, as a loop proved against a fold |
| `persistence.dfy` | `Persistence` | the stored record, what the load and save effects do with it, and the browser store |
| `desktop.dfy` | `Desktop` | the screen as a class: the flags, the key, the load, save and letter effects, the children's callbacks |
| `supriselock.dfy` | `SupriseLock` | `digitsOnly`, the match rule, `submitCode` and `resetUnlock` |
| `heartmonitor.dfy` | `HeartMonitor` | `handleClick` and the fill counter |
| `whymartinapanel.dfy` | `WhyMartinaPanel` | `toggle`, the open cards and the cards opened at least once |
| `questionspanel.dfy` | `QuestionsPanel` | the question table, `handleAnswer`, `next` and the timer callbacks |

## How the model is built

- **State as classes.** Each component's state is a class whose methods change its fields. React's `useState` values and `useRef` latches become fields.
- **Callbacks.** A method that models a handler returns a boolean when the handler may call a parent callback, such as `calledOnReady`. The screen's reaction to a callback is the method `Desktop.Desktop.MarkTaskDone`.
- **Effects.** Effects (`useEffect`) run to completion at the end of the method that changed their dependencies. Every method therefore leaves a settled state. The intermediate renders in between are not modelled.
- **Timers.** Each `setTimeout` is an explicit event method: `LetterTimerFires` or `TimerFires`. A cleared timer never fires.
- **The store.** For each key, the browser store holds what `JSON.parse` makes of the stored text: a JSON value, or a parse failure. `getItem` on a missing key gives `None`. A `full` flag stands for a store whose `setItem` throws.
- **Passcode changes.** The passcode prop is a parameter of the constructor. A later change of the prop is `SetPasscode`.
- **The configured passcode.** It is `SupriseLock.Passcode`, `"21122025"`, from `app/lib/content.ts:2`. The example lemmas use it.

How the code treats stored records and the progress bar:

- **A missing key or unparsable text.** These do not reset the flags: the code returns early, or swallows the exception, and leaves the flags as they are. At mount the flags are all false, so a fresh session starts all false. After a passcode change the flags of the old key are kept, and saved under the new key. `Persistence.Restore` and `Desktop.Desktop.SetPasscode` follow the code.
- **A stored `null`.** Text that parses to `null` makes the first member access throw. The loader swallows the exception, so the flags are kept too.
- **Any other non-object value** (a number, a string, `true`) parses, has no members, and sets all four flags to false.
- **The progress bar.** The code adds the 30 questions points only when level 1 is complete. It adds the 10 letter points only when `questionsDone` and level 3 both hold. Together these are 40 points exactly when level 1 is complete and the quiz is done.

## Model

| member | source | states |
|---|---|---|
| JsString.IsJsWhitespace | app/components/Desktop.tsx:24 | the characters `trim` removes: the ECMAScript WhiteSpace and LineTerminator characters (tab, line feed, vertical tab, form feed, carriage return, space, no-break space, U+1680, U+2000 to U+200A, line and paragraph separators, U+202F, U+205F, U+3000 and the byte order mark) |
| JsString.TrimStart | app/components/Desktop.tsx:24 | the leading half of `trim`: drops whitespace from the front one character at a time; characterised by `JsString.TrimStartFacts` |
| JsString.TrimEnd | app/components/Desktop.tsx:24 | the trailing half of `trim`: drops whitespace from the back one character at a time; characterised by `JsString.TrimEndFacts` |
| JsString.Trim | app/components/Desktop.tsx:24 | `s.trim()` is the trailing trim of the leading trim; characterised by `JsString.TrimFacts` and `JsString.TrimParts` |
| JsString.TrimStartFacts | app/components/Desktop.tsx:24 | the leading trim leaves a suffix of the input that does not start with whitespace, and it drops only whitespace; it leaves nothing exactly when the input is all whitespace |
| JsString.TrimEndFacts | app/components/Desktop.tsx:24 | the trailing trim leaves a prefix that does not end with whitespace, and it drops only whitespace; it leaves nothing exactly when the input is all whitespace |
| JsString.TrimFacts | app/components/Desktop.tsx:24 | `trim` gives the empty string exactly when the input is all whitespace; otherwise the result neither starts nor ends with whitespace |
| JsString.TrimParts | app/components/SupriseLock.tsx:24-25 | every string is leading whitespace, then its trimmed form, then trailing whitespace |
| JsString.TrimIdempotent | app/components/Desktop.tsx:24 | trimming twice is trimming once |
| JsString.CodeUnitsOf | app/components/Desktop.tsx:26 | a character below U+10000 is one code unit, its own code point; above, it is a high surrogate followed by a low surrogate that decode back to the character |
| JsString.Utf16 | app/components/Desktop.tsx:26 | the code units of a string are its characters' units in order; their number is one per character plus one per character above U+FFFF |
| JsString.Utf16OfBmp | app/components/Desktop.tsx:26 | for a string of Basic Multilingual Plane characters, `charCodeAt(i)` is the code point of character i, one unit per character |
| Progress.MarkDone | app/components/Desktop.tsx:216 | a child's callback sets its own flag to true and leaves the other three flags unchanged |
| Progress.MarkDoneMonotoneAndIdempotent | app/components/Desktop.tsx:288 | a callback only turns flags on; signalling twice equals signalling once; signalling a task that is already done changes nothing |
| Progress.Level1Complete | app/components/Desktop.tsx:76 | level 1 is complete when the why, heart and code flags are all true |
| Progress.Level2Unlocked | app/components/Desktop.tsx:77 | level 2 is unlocked exactly when level 1 is complete |
| Progress.Level3Unlocked | app/components/Desktop.tsx:78 | level 3 is unlocked when level 1 is complete and the quiz is done |
| Progress.CurrentLevel | app/components/Desktop.tsx:80-84 | the level is in 1..3; it is 3 exactly when all four flags are true, and 2 exactly when the three level-1 flags are true and the quiz is not done |
| Progress.Level1DoneCount | app/components/Desktop.tsx:88 | the count of done level-1 tasks is at most 3, and it is 3 exactly when level 1 is complete |
| Progress.ProgressPercent | app/components/Desktop.tsx:86-97 | the bar equals 20 per done level-1 task, plus 40 when level 1 is complete and the quiz is done |
| Progress.ClampNeverBinds | app/components/Desktop.tsx:93-96 | the sum under `Math.min(100, …)` is at most 100 for every state, so the clamp never changes the value |
| Progress.ProgressPercentValues | app/components/Desktop.tsx:86-97 | the bar only shows 0, 20, 40, 60 or 100, and it shows 100 exactly when level 3 is unlocked |
| Progress.QuestionsAloneAddNothing | app/components/Desktop.tsx:90-95 | while level 1 is incomplete, the quiz flag does not change the bar |
| Progress.Level2IgnoresQuestions | app/components/Desktop.tsx:76-77 | level 2 is unlocked exactly when the three level-1 flags are true, whatever the quiz flag is |
| Progress.Monotone | app/components/Desktop.tsx:76-97 | turning flags on never lowers the bar or the level, and never closes level 2 or level 3 |
| Progress.Walkthrough | app/components/Desktop.tsx:76-97 | the walk through the game: code first (level 1, 20%, level 2 locked), then why and heart (level 2, 60%), then the quiz (level 3, 100%) |
| ProgressKey.Hash | app/components/Desktop.tsx:26 | the rolling hash `(h * 31 + unit) >>> 0` is below 2^32 |
| ProgressKey.DigitChar | app/components/Desktop.tsx:27 | a digit is written as a character from '0' to '9' |
| ProgressKey.Decimal | app/components/Desktop.tsx:27 | `${h}` is a non-empty string of decimal digits, with a leading '0' only for 0 itself |
| ProgressKey.DecimalRoundTrip | app/components/Desktop.tsx:27 | reading the decimal rendering back gives the number |
| ProgressKey.DecimalInjective | app/components/Desktop.tsx:27 | two numbers have the same rendering exactly when they are equal |
| ProgressKey.PasscodeHash | app/components/Desktop.tsx:24-26 | the hash of the trimmed passcode's code units is below 2^32 |
| ProgressKey.KeyOf | app/components/Desktop.tsx:23-28 | every key starts with `loveos_progress_v1_` and has at least one more character |
| ProgressKey.MakeProgressKey | app/components/Desktop.tsx:23-28 | the loop over the code units returns exactly the key that the fold defines |
| ProgressKey.KeysDifferIffHashesDiffer | app/components/Desktop.tsx:27 | two passcodes share a key exactly when their hashes are equal |
| ProgressKey.KeyIgnoresSurroundingWhitespace | app/components/Desktop.tsx:24 | the key of a passcode equals the key of its trimmed form |
| ProgressKey.BlankPasscodeKey | app/components/Desktop.tsx:23-28 | an empty or all-whitespace passcode gets the key `loveos_progress_v1_0` |
| ProgressKey.HashExamples | app/components/Desktop.tsx:26 | the hash of one unit is the unit itself, and the fold depends on the order of the units |
| Persistence.Truthy | app/components/Desktop.tsx:51-54 | `!!v` on a parsed value: `null`, `false`, `0` and `""` are false, every other value is true |
| Persistence.Field | app/components/Desktop.tsx:51-54 | `!!parsed.<name>`: true exactly when the value is an object with that member and the member is truthy |
| Persistence.Lookup | app/components/Desktop.tsx:47 | `getItem`: the stored item under the key, or nothing for a missing key |
| Persistence.Restore | app/components/Desktop.tsx:45-58 | the load effect: a missing key, unparsable text or `null` keeps the current flags; any other value sets each flag to its member coerced by `!!`; characterised by the three `Restore…` lemmas |
| Persistence.Encode | app/components/Desktop.tsx:62-70 | the saved payload: an object with the four flags as booleans under their own names |
| Persistence.Save | app/components/Desktop.tsx:61-74 | saving writes the four flags under the key and leaves every other key as it was; a refused write leaves the store unchanged |
| Persistence.RestoreMissing | app/components/Desktop.tsx:47-48 | a missing key leaves the flags as they were, so a fresh session stays all false |
| Persistence.RestoreCorrupt | app/components/Desktop.tsx:49-56 | text that does not parse, or parses to `null`, is swallowed and leaves the flags unchanged |
| Persistence.RestoreRecord | app/components/Desktop.tsx:49-54 | any other parsed value sets each flag to its member coerced to a boolean, an absent member counting as false; a value that is no object clears all four |
| Persistence.SaveThenRestore | app/components/Desktop.tsx:45-74 | loading under a key just saved returns the saved flags, whatever the flags were before |
| Persistence.SaveKeepsOtherKeys | app/components/Desktop.tsx:70 | saving under one key does not change what another key restores |
| Persistence.BrowserStorage.constructor | app/components/Desktop.tsx:47 | the store starts with the given contents and write policy |
| Desktop.Desktop.constructor | app/components/Desktop.tsx:30-74 | mounting: the key is derived from the passcode; the flags are restored from all false; the letter is not started and its timer is pending exactly when level 3 is open; the flags are saved under the key |
| Desktop.Desktop.SaveEffect | app/components/Desktop.tsx:61-74 | the store afterwards holds the current flags under the current key, or is unchanged if the write is refused |
| Desktop.Desktop.LetterEffect | app/components/Desktop.tsx:100-111 | the old timer is cleared; with level 3 closed the letter is withdrawn and no timer is pending; with level 3 open a new timer is pending |
| Desktop.Desktop.MarkTaskDone | app/components/Desktop.tsx:216-288 | a child's callback sets its flag and keeps the gate invariant; re-signalling changes nothing and saves nothing; otherwise the new flags are saved, and the letter timer is rescheduled exactly when level 3 opens |
| Desktop.Desktop.LetterTimerFires | app/components/Desktop.tsx:106-108 | a pending timer starts the letter; a cleared one does nothing; the letter is only ever started with level 3 open |
| Desktop.Desktop.SetPasscode | app/components/Desktop.tsx:31 | a new passcode with the same key changes nothing else; a new key restores the flags stored under it, from the current ones, and saves them there; with level 3 closed the letter is neither started nor pending; if level 3 opens the letter timer becomes pending; if level 3 stays as it was the letter and its timer are unchanged |
| Desktop.Desktop.LoadEffect | app/components/Desktop.tsx:45-58 | the flags become what the store holds under the key, from the current flags; then they are saved back; with level 3 closed the letter is neither started nor pending; if level 3 opens the letter timer becomes pending; if level 3 stays as it was the letter and its timer are unchanged |
| Desktop.Desktop.SetFlags | app/components/Desktop.tsx:51-54 | the four flags become the given state |
| Desktop.Desktop.Unmount | app/components/Desktop.tsx:110 | unmounting clears the letter timer |
| Desktop.LetterNeverStartsWhileLocked | app/components/Desktop.tsx:100-111 | while level 3 is closed, a timer event never starts the letter |
| SupriseLock.IsDigit | app/components/SupriseLock.tsx:12 | `\d`: the ASCII digits '0' to '9'; `/\D/g` removes every other character |
| SupriseLock.DigitsOnly | app/components/SupriseLock.tsx:11-13 | the result holds only '0' to '9' and is no longer than the input |
| SupriseLock.DigitsOnlyAppend | app/components/SupriseLock.tsx:12 | filtering a concatenation concatenates the filtered parts, so the digits keep their input order |
| SupriseLock.DigitsOnlyKeepsDigits | app/components/SupriseLock.tsx:12 | every digit occurs in the result as often as in the input, and no other character occurs |
| SupriseLock.DigitsOnlyOfDigits | app/components/SupriseLock.tsx:12 | a string of digits is returned unchanged |
| SupriseLock.DigitsOnlyIdempotent | app/components/SupriseLock.tsx:11-13 | filtering twice is filtering once |
| SupriseLock.DigitsOnlyOfWhitespace | app/components/SupriseLock.tsx:24-25 | whitespace contains no digits |
| SupriseLock.DigitsOnlyIgnoresTrim | app/components/SupriseLock.tsx:24-25 | the digits of the trimmed string are the digits of the string |
| SupriseLock.Accepts | app/components/SupriseLock.tsx:24-27 | a code is accepted exactly when its digits are not empty and equal the passcode's digits |
| SupriseLock.DottedDateUnlocks | app/components/SupriseLock.tsx:24-27 | "21.12.2025" opens the lock configured with "21122025" |
| SupriseLock.NoDigitsNeverUnlocks | app/components/SupriseLock.tsx:24-27 | a passcode without digits accepts no code |
| SupriseLock.SupriseLock.constructor | app/components/SupriseLock.tsx:16-18 | the lock starts locked, with an empty entry and no error |
| SupriseLock.SupriseLock.Type | app/components/SupriseLock.tsx:70 | typing replaces the entry |
| SupriseLock.SupriseLock.SubmitCode | app/components/SupriseLock.tsx:20-49 | `onUnlocked` is called exactly when the entry is accepted; then the lock opens, the entry empties and the error is cleared; otherwise the lock and the entry are unchanged and the error is the non-empty retry message |
| SupriseLock.SupriseLock.ResetUnlock | app/components/SupriseLock.tsx:51-55 | the lock closes and the entry and error clear; no callback is made |
| HeartMonitor.AfterClicks | app/components/HearthMonitor.tsx:108-144 | after any number of clicks: the fill is a multiple of 10 in 0..90; the message implies a full heart and at least two extra clicks; below 90 there are no extra clicks, no message and no callback; the callback has fired exactly when the message shows |
| HeartMonitor.ProgressMonotone | app/components/HearthMonitor.tsx:112-116 | more clicks never mean less fill or fewer extra clicks, and never un-fire the callback |
| HeartMonitor.NinthClickFills | app/components/HearthMonitor.tsx:121-124 | the ninth click fills the heart to 90, with no extra clicks and no message |
| HeartMonitor.ReadyOnEleventhClick | app/components/HearthMonitor.tsx:111-143 | the callback becomes due on exactly one click from mount, the eleventh |
| HeartMonitor.HeartMonitor.constructor | app/components/HearthMonitor.tsx:17-28 | the widget starts empty, with the hint shown and the latch clear |
| HeartMonitor.HeartMonitor.HandleClick | app/components/HearthMonitor.tsx:108-144 | a click hides the hint and never lowers the fill; below 90 it adds 10 and does not call `onReady`, and reaching 90 resets the extra clicks and hides the message; at 90 it counts an extra click and shows the message from the second; `onReady` is called on the eleventh click and only then |
| WhyMartinaPanel.IsOpen | app/components/WhyMartinaPanel.tsx:46 | `!!opened[id]`: a card is open when the record holds `true` for it; a card absent from the record is closed |
| WhyMartinaPanel.AllOpened | app/components/WhyMartinaPanel.tsx:56 | every one of the five ids "1" to "5" has been opened at least once |
| WhyMartinaPanel.Flip | app/components/WhyMartinaPanel.tsx:49 | toggling flips the card's open state and leaves every other card as it was |
| WhyMartinaPanel.FlipTwice | app/components/WhyMartinaPanel.tsx:46-49 | toggling a card twice restores every card |
| WhyMartinaPanel.WhyMartinaPanel.constructor | app/components/WhyMartinaPanel.tsx:39-43 | the panel starts with no card open, none opened ever, and the latch clear |
| WhyMartinaPanel.WhyMartinaPanel.Toggle | app/components/WhyMartinaPanel.tsx:45-62 | the open cards are flipped at the id; an opened card is recorded and a closed one leaves the record as it was; every open card is recorded; `onAllOpened` is called exactly on the toggle that first records all five ids, and at most once |
| WhyMartinaPanel.OpenAllInOrder | app/components/WhyMartinaPanel.tsx:19-62 | opening cards "1" to "5" in turn calls `onAllOpened` on the fifth toggle only |
| QuestionsPanel.Questions | app/components/QuestionsPanel.tsx:18-47 | five questions; every correct index points at an option; the final question has two options and its answer is the second |
| QuestionsPanel.QuestionsPanel.constructor | app/components/QuestionsPanel.tsx:49-51 | the quiz starts at the first question, with no feedback, not completed and no timer |
| QuestionsPanel.QuestionsPanel.HandleAnswer | app/components/QuestionsPanel.tsx:64-90 | the step never changes on an answer; on the final question option 0 changes nothing; a correct answer shows "correct" and schedules the advance; a wrong one shows "wrong" and schedules the clear |
| QuestionsPanel.QuestionsPanel.MoveKusicSafely | app/components/QuestionsPanel.tsx:92-139 | moving the button changes no quiz state: the method modifies nothing |
| QuestionsPanel.QuestionsPanel.TimerFires | app/components/QuestionsPanel.tsx:78-88 | after a wrong answer the overlay clears and the step stays; after a correct non-final answer the step grows by exactly one; `onCompleted` is called only after the correct final answer; once completed, the five accepted answers are the five correct ones, in order |
| QuestionsPanel.QuestionsPanel.Next | app/components/QuestionsPanel.tsx:59-62 | the overlay clears and the step grows by one |

## Left out

- Animation, layout and the DOM: every gsap tween and timeline, element refs, `document.querySelector` and the `days` display value. They change no game state.
- The reasons dialog (`openWhy`, app/components/Desktop.tsx:284-291). The panel is mounted only while the dialog is open, so closing it discards the panel's state, and reopening it starts from no card opened. Each `new WhyMartinaPanel()` is one opening of the dialog, and the at-most-once promise of `WhyMartinaPanel.WhyMartinaPanel.Toggle` holds per opening: a later opening can call `onAllOpened` again. That second call is covered by `Desktop.Desktop.MarkTaskDone(Why)` changing nothing once the flag is set.
- `moveKusicSafely`: picks a random button position with floating-point geometry (`Math.random`, `getBoundingClientRect`). `QuestionsPanel.QuestionsPanel.MoveKusicSafely` keeps only the fact that it changes no quiz state: it modifies nothing.
- React's intermediate renders. The model omits that at mount, and after a key change, the save effect first writes the not-yet-restored flags before the loaded ones render and are written. The store ends in the same state.
- Rendering conditions. The quiz is mounted only while level 2 is unlocked, and the letter only while level 3 is unlocked. `Desktop.Desktop.MarkTaskDone` accepts every task in every state, and so covers flags restored from the store in any combination.
- The timers' delays of 2500, 1800 and 5000 ms. Real time is not modelled; a timer is an event.
- The quiz's timers are never cleared on unmount in the code, so a pending timer after the correct final answer still calls `onCompleted` once the quiz is gone. The model has no unmount for the quiz; that late call is covered by `Desktop.Desktop.MarkTaskDone(Questions)`, which is accepted in every state.
- The quiz's buttons are covered by the feedback overlay, and the completed screen has no buttons. `QuestionsPanel.QuestionsPanel.HandleAnswer` therefore requires no feedback and no completion, so at most one quiz timer is ever pending.
- The stored text and `JSON.stringify`. The store keeps the parsed value, and a read failure of `getItem` counts as unparsable text; both are swallowed the same way.
- `LetterPanel`, `TopBar`, `Footer`, `FallingHearts`, the boot screen in `app/page.tsx`, and `app/lib/dates.ts` are presentation or calendar arithmetic, and are not part of this model. Of `app/lib/content.ts` only the passcode is used.
- Lone surrogates. A JavaScript string may hold an unpaired surrogate code unit; a Dafny string cannot. `JsString.Trim` and `ProgressKey.Hash` are modelled only on well-formed UTF-16, so passcodes with unpaired surrogates are not covered.
- Passcode changes inside the lock. `SupriseLock.SupriseLock.passcode` is a constant fixed at construction, so a change of the passcode prop that `Desktop.Desktop.SetPasscode` models does not reach the lock (app/components/Desktop.tsx:226), where the component would compare against the new passcode on the next submission.
- Floating point. The bar is computed on reals, and values for 0 to 3 done tasks are exact in binary floating point too. The hash stays below 2^53 before `>>> 0`, so it is exact as well.
