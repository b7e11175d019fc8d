# MindMate screens in Dafny

A model of the state logic of the MindMate wellness app's screens. The app is a
set of React components. All of their state is local to each screen, and
nothing is persisted or sent over a network. The model covers:

- **Milestone badge** (`MilestoneBadge`): a counter is placed on a fixed table
  of five increasing thresholds. That gives the badge's level, its next
  milestone, its colour and its title. Reaching a threshold exactly switches
  on an unlock animation, and a timer switches it off.
- **Profile** (`Profile`): the saved user record, an edit form copied from
  it, a validator, and the edit, cancel, save and typing handlers.
- **Onboarding** (`Onboarding`): a four-slide wizard with Next and Back, plus
  the wellness goals picked by toggling.
- **Challenges** (`Challenges`): challenges marked done by toggling their ids.
- **Private notes**, **gratitude list** and **chat** (`PrivateNotes`,
  `GratitudeTracker`, `AIBuddyChat`): lists that grow only when the input is
  not blank. The chat's scripted reply is appended by a separate timer step.
- **Reflection journal** (`ReflectionJournal`): a mood-keyed question table
  with a fallback question, and a save that needs non-blank text.
- **Mood check-in** (`MoodTracker`): a mood and an intensity chosen
  independently; saving needs both.

Shared modules:

- `Screen` gives JavaScript's `null`/`undefined` as `Option` and the
  router request a handler makes as `Nav`.
- `JsString` models `String.prototype.trim`. Its whitespace set is
  ECMAScript's WhiteSpace and LineTerminator characters. It also models
  `length`, which counts UTF-16 code units, so a character above U+FFFF
  counts twice.
- `Selection` models the toggle idiom that onboarding and challenges share:
  `prev.includes(x) ? prev.filter(y => y !== x) : [...prev, x]`.

Each component whose handlers update state is a `class` with the
component's state variables as fields. Each handler is a method whose
`ensures` give the whole new state. Timer callbacks (`setTimeout`) are
separate methods named `...TimerFires`.

Inputs the source reads from the environment become parameters:

- `Date.now()` ids and `new Date()` timestamps are taken as opaque values.
- `Math.random()` picks become an index below the list's length.
- A navigation becomes a returned `Nav` value.

## Model

| member | source | states |
|---|---|---|
| `JsString.IsWhitespace` | src/pages/PrivateNotes.tsx:17 | the characters `trim` removes: ECMAScript WhiteSpace and LineTerminator; every blank check of the screens rests on it through `TrimEmptyIffBlank` |
| `JsString.Trim` | src/pages/PrivateNotes.tsx:20 | `.trim()`; its properties are proved in `TrimStartSuffix`, `TrimStartDropsBlank`, `TrimEndPrefix` and `TrimEndDropsBlank` (exactly the maximal whitespace runs at both ends go), `TrimShape` and `TrimIdempotent` |
| `JsString.HasText` | src/pages/PrivateNotes.tsx:17 | the truthiness of `s.trim()`; see `TrimEmptyIffBlank`: true exactly when `s` is not all whitespace |
| `JsString.TrimEmptyIffBlank` | src/pages/PrivateNotes.tsx:17 | `s.trim()` is empty (falsy) exactly when every character of `s` is whitespace; so the blank checks of every screen mean "all whitespace" |
| `JsString.TrimShape` | src/pages/PrivateNotes.tsx:20 | a non-empty trimmed string starts and ends with non-whitespace and is one contiguous run of the original |
| `JsString.TrimIdempotent` | src/pages/PrivateNotes.tsx:20 | trimming an already trimmed string changes nothing |
| `JsString.TrimStartSuffix` | src/pages/PrivateNotes.tsx:20 | dropping leading whitespace leaves a suffix that starts with a non-whitespace character |
| `JsString.TrimStartDropsBlank` | src/pages/PrivateNotes.tsx:20 | everything dropped at the front is whitespace |
| `JsString.TrimEndPrefix` | src/pages/PrivateNotes.tsx:20 | dropping trailing whitespace leaves a prefix that ends with a non-whitespace character |
| `JsString.TrimEndDropsBlank` | src/pages/PrivateNotes.tsx:20 | everything dropped at the back is whitespace |
| `JsString.TrimPadded` | src/pages/Profile.tsx:62 | whitespace on both sides of a text is removed and the text itself is kept |
| `JsString.Utf16Length` | src/pages/Profile.tsx:64 | `length` lies between the number of characters and twice that, and equals it exactly when no character is above U+FFFF |
| `Selection.Without` | src/pages/OnboardingFlow.tsx:67 | filtering removes every occurrence of the value and keeps every other value's membership |
| `Selection.Toggle` | src/pages/OnboardingFlow.tsx:64-70 | after a toggle the value is a member exactly when it was not before, and every other value keeps its membership |
| `Selection.WithoutAbsent` | src/pages/Challenges.tsx:82 | filtering out a value that is not in the list returns the list unchanged |
| `Selection.WithoutAt` | src/pages/Challenges.tsx:82 | in a duplicate-free list, filtering out a present value removes exactly its one position and keeps the others in order |
| `Selection.WithoutDistinct` | src/pages/Challenges.tsx:82 | filtering keeps a list free of duplicates |
| `Selection.ToggleDistinct` | src/pages/Challenges.tsx:79-85 | a toggle never creates a duplicate |
| `Selection.WithoutAppended` | src/pages/Challenges.tsx:81-83 | removing a value that was appended to a list without it gives back that list |
| `Selection.ToggleTwice` | src/pages/OnboardingFlow.tsx:64-70 | toggling twice restores every value's membership; for an absent value the list comes back identical, and a present value ends up last |
| `MilestoneBadge.Thresholds` | src/components/MilestoneBadge.tsx:15-20 | each badge type's table has five strictly increasing thresholds, the first at least 1 |
| `MilestoneBadge.CountReached` | src/components/MilestoneBadge.tsx:24 | the filtered count is at most the table's length |
| `MilestoneBadge.Level` | src/components/MilestoneBadge.tsx:22-25 | the level lies in 0..5 |
| `MilestoneBadge.ReachedIsPrefix` | src/components/MilestoneBadge.tsx:22-25 | on an increasing table, threshold `i` is reached exactly when `i` is below the filtered count |
| `MilestoneBadge.LevelCountsReachedThresholds` | src/components/MilestoneBadge.tsx:15-25 | the level is the number of thresholds at most the count: the first `level` are reached and the others are not |
| `MilestoneBadge.CountReachedMonotone` | src/components/MilestoneBadge.tsx:24 | a larger count never reaches fewer thresholds |
| `MilestoneBadge.LevelMonotone` | src/components/MilestoneBadge.tsx:22-25 | a larger count never yields a lower level |
| `MilestoneBadge.FindAbove` | src/components/MilestoneBadge.tsx:29 | `find` returns a member of the table above the count, and returns nothing exactly when every threshold is at most the count |
| `MilestoneBadge.FindAboveFirst` | src/components/MilestoneBadge.tsx:29 | on an increasing table, `find` returns the threshold at position equal to the filtered count |
| `MilestoneBadge.NextMilestone` | src/components/MilestoneBadge.tsx:27-30 | `getNextMilestone` with its `||` fallback; see `NextMilestoneIsSmallestAbove` |
| `MilestoneBadge.NextMilestoneIsSmallestAbove` | src/components/MilestoneBadge.tsx:27-30 | the next milestone is the smallest threshold above the count, the one at index `level`; once the count reaches the last threshold it is the last threshold |
| `MilestoneBadge.Colors` | src/components/MilestoneBadge.tsx:34-55 | each badge type has three colours |
| `MilestoneBadge.Titles` | src/components/MilestoneBadge.tsx:34-55 | each badge type has five distinct titles, none of them "Getting Started" |
| `MilestoneBadge.IconOf` | src/components/MilestoneBadge.tsx:34-55 | the `icon` of each type's config (Sparkles, Heart, Star, Award), which `GetBadgeInfo` carries at every level |
| `MilestoneBadge.ColorIndex` | src/components/MilestoneBadge.tsx:58 | `Math.min(level - 1, colors.length - 1)` is at most both arguments and equal to one of them |
| `MilestoneBadge.GetBadgeInfo` | src/components/MilestoneBadge.tsx:32-66 | `getBadgeInfo`; see `BadgeInfoByLevel` and `TitleDeterminesLevel` |
| `MilestoneBadge.BadgeInfoByLevel` | src/components/MilestoneBadge.tsx:32-66 | below the first threshold the badge is grey and titled "Getting Started"; at level `l >= 1` the colour index `min(l - 1, 2)` and the title index `l - 1` lie inside their tables and select the colour and title |
| `MilestoneBadge.TitleDeterminesLevel` | src/components/MilestoneBadge.tsx:57-63 | two counts with the same title have the same level |
| `MilestoneBadge.Render` | src/components/MilestoneBadge.tsx:75-96 | the component renders nothing exactly when the count is below the first threshold (level 0); otherwise it renders the badge info, with sparkles while the animation is on |
| `MilestoneBadge.IsThreshold` | src/components/MilestoneBadge.tsx:69 | `milestones[type].includes(count)`; see `ThresholdIffLevelUp` |
| `MilestoneBadge.ThresholdIffLevelUp` | src/components/MilestoneBadge.tsx:68-73 | the count is one of the thresholds exactly when its level is above that of the count just below it |
| `MilestoneBadge.Badge.constructor` | src/components/MilestoneBadge.tsx:12-13 | mounting runs the effect once: the animation is on exactly when the first count is a threshold |
| `MilestoneBadge.Badge.SetProps` | src/components/MilestoneBadge.tsx:68-73 | when the count or type changes to a threshold the animation switches on; otherwise the animation flag is unchanged |
| `MilestoneBadge.Badge.AnimationTimerFires` | src/components/MilestoneBadge.tsx:71 | the 3000 ms timer switches the animation off |
| `MilestoneBadge.Badge.View` | src/components/MilestoneBadge.tsx:78-96 | nothing is rendered below the first threshold; otherwise the view shows the badge info of the current props (icon, colour, title and a level of at least 1) and the animation flag |
| `Profile.InitialUser` | src/pages/Profile.tsx:17-23 | the initial record, verbatim; see `InitialNameValid` |
| `Profile.InitialNameValid` | src/pages/Profile.tsx:17-23 | the initial name is non-blank and within 50 code units, so editing the starting record raises no name error |
| `Profile.FormOf` | src/pages/Profile.tsx:27-31 | the form built from a record's name, bio and picture, as at mount and again at lines 77-81 and 88-92; see `ProfileScreen.constructor`, `EditClick` and `CancelEdit` |
| `Profile.Validate` | src/pages/Profile.tsx:60-70 | the `newErrors` record `validateForm` builds; see `ValidateIff` and `NameErrorPrecedence` |
| `Profile.Passes` | src/pages/Profile.tsx:73 | the return value of `validateForm`, true exactly when both messages are empty; see `ValidateIff` |
| `Profile.ValidateIff` | src/pages/Profile.tsx:59-74 | a form passes exactly when the name is not blank, the name has at most 50 and the bio at most 200 UTF-16 code units |
| `Profile.NameErrorPrecedence` | src/pages/Profile.tsx:62-70 | a blank name is reported as "Name is required" even when it is also too long; a non-blank overlong name gets the length message; the bio error depends only on the bio's length |
| `Profile.PaddedNameTooLong` | src/pages/Profile.tsx:62-66 | the length check uses the untrimmed name: "A" followed by 50 spaces trims to "A", but gets the too-long message |
| `Profile.ProfileScreen.constructor` | src/pages/Profile.tsx:17-37 | the screen starts with the initial record, a form copied from it, no errors and edit mode off |
| `Profile.ProfileScreen.ValidateForm` | src/pages/Profile.tsx:59-74 | records the errors of the current form and returns true exactly when the form is valid |
| `Profile.ProfileScreen.EditClick` | src/pages/Profile.tsx:76-84 | resets the form to the saved record, clears both errors, turns edit mode on, and leaves the record alone |
| `Profile.ProfileScreen.CancelEdit` | src/pages/Profile.tsx:86-94 | resets the form to the saved record, clears both errors, turns edit mode off, and leaves the record alone |
| `Profile.ProfileScreen.SaveChanges` | src/pages/Profile.tsx:96-118 | an invalid form only updates the errors, so the record and edit mode are unchanged; a valid form schedules the commit of the form as it is at the click |
| `Profile.ProfileScreen.SaveTimerFires` | src/pages/Profile.tsx:102-117 | the commit copies name, bio and picture from the captured form, keeps email and join date, and leaves edit mode |
| `Profile.ProfileScreen.InputChange` | src/pages/Profile.tsx:120-126 | sets only the named form field, empties that field's error, and leaves the other error unchanged |
| `Onboarding.GoalIds` | src/pages/OnboardingFlow.tsx:41-48 | the six goal ids are distinct |
| `Onboarding.OnboardingFlow.constructor` | src/pages/OnboardingFlow.tsx:9-10 | the wizard starts on slide 0 with no goals |
| `Onboarding.OnboardingFlow.Next` | src/pages/OnboardingFlow.tsx:50-56 | below the last slide it moves one slide on; on the last slide it asks for the dashboard and stays; the step stays in 0..3 and the goals are untouched |
| `Onboarding.OnboardingFlow.Previous` | src/pages/OnboardingFlow.tsx:58-62 | moves one slide back, does nothing on slide 0, keeps the step in 0..3 and leaves the goals alone |
| `Onboarding.OnboardingFlow.ToggleGoal` | src/pages/OnboardingFlow.tsx:64-70 | an absent goal is appended and a present one removed; other goals keep their membership, no duplicate appears and the step is unchanged |
| `Challenges.AllChallenges` | src/pages/Challenges.tsx:12-53 | four challenges with distinct ids |
| `Challenges.StatusLabel` | src/pages/Challenges.tsx:124-148 | a card reads "Done" exactly when its id is in the completed list; its progress and target play no part |
| `Challenges.ChallengesScreen.constructor` | src/pages/Challenges.tsx:10 | nothing is completed at first |
| `Challenges.ChallengesScreen.ToggleChallengeComplete` | src/pages/Challenges.tsx:79-85 | appends an absent id and removes a present one; other ids keep their membership and no duplicate appears |
| `PrivateNotes.NoteTitle` | src/pages/PrivateNotes.tsx:20 | the title is the trimmed title, or "Untitled Thought" when the title is blank; it is never empty and never starts or ends with whitespace |
| `PrivateNotes.PrivateNotesScreen.constructor` | src/pages/PrivateNotes.tsx:10-13 | no notes, empty inputs, form hidden |
| `PrivateNotes.PrivateNotesScreen.OpenForm` | src/pages/PrivateNotes.tsx:73 | shows the form |
| `PrivateNotes.PrivateNotesScreen.SetTitle` | src/pages/PrivateNotes.tsx:94 | typing sets the title input |
| `PrivateNotes.PrivateNotesScreen.SetContent` | src/pages/PrivateNotes.tsx:100 | typing sets the text input |
| `PrivateNotes.PrivateNotesScreen.SaveEnabled` | src/pages/PrivateNotes.tsx:108 | the save button is enabled exactly when the text is not all whitespace |
| `PrivateNotes.PrivateNotesScreen.SaveNote` | src/pages/PrivateNotes.tsx:16-29 | a blank text changes nothing; otherwise exactly one note, holding the untrimmed text and the derived title, is put in front of the older notes in their order, and both inputs are emptied and the form hidden |
| `PrivateNotes.PrivateNotesScreen.MaybeLater` | src/pages/PrivateNotes.tsx:113 | hides the form and keeps the inputs and the notes |
| `GratitudeTracker.Prompts` | src/pages/GratitudeTracker.tsx:14-21 | the six prompt texts, verbatim, which `ChoosePrompt` indexes |
| `GratitudeTracker.GratitudeScreen.constructor` | src/pages/GratitudeTracker.tsx:9-11 | empty list, empty input, no celebration |
| `GratitudeTracker.GratitudeScreen.SetInput` | src/pages/GratitudeTracker.tsx:110 | typing sets the input |
| `GratitudeTracker.GratitudeScreen.ChoosePrompt` | src/pages/GratitudeTracker.tsx:98 | a prompt button sets the input to exactly that prompt |
| `GratitudeTracker.GratitudeScreen.Count` | src/pages/GratitudeTracker.tsx:80 | the counter shows the list length; `AddGratitude` states that it rises by exactly one per added item and is unchanged otherwise |
| `GratitudeTracker.GratitudeScreen.AddGratitude` | src/pages/GratitudeTracker.tsx:23-30 | a blank input changes nothing; otherwise the untrimmed input is appended after the unchanged earlier items, the displayed count (the list length) goes up by one, the input is cleared and the celebration starts |
| `GratitudeTracker.GratitudeScreen.CelebrationTimerFires` | src/pages/GratitudeTracker.tsx:28 | the 1500 ms timer ends the celebration |
| `AIBuddyChat.Greeting` | src/pages/AIBuddyChat.tsx:21 | the greeting text, verbatim and non-empty |
| `AIBuddyChat.Responses` | src/pages/AIBuddyChat.tsx:40-48 | the seven canned replies, verbatim; `ReplyTimerFires` takes its text from this table |
| `AIBuddyChat.QuickReplies` | src/pages/AIBuddyChat.tsx:79-84 | the four quick-reply texts, verbatim (their emoji are display only) |
| `AIBuddyChat.ChatScreen.constructor` | src/pages/AIBuddyChat.tsx:18-28 | the chat starts with exactly one message, the buddy's greeting, an empty input and no typing indicator |
| `AIBuddyChat.ChatScreen.SetInput` | src/pages/AIBuddyChat.tsx:183 | typing sets the input |
| `AIBuddyChat.ChatScreen.QuickReply` | src/pages/AIBuddyChat.tsx:168 | a quick reply puts its text in the input and sends nothing |
| `AIBuddyChat.ChatScreen.SendEnabled` | src/pages/AIBuddyChat.tsx:191 | the send button is enabled exactly when the input is not all whitespace |
| `AIBuddyChat.ChatScreen.SendMessage` | src/pages/AIBuddyChat.tsx:50-62 | a blank input changes nothing; otherwise one user message with the untrimmed input is appended, the input is cleared and typing starts; earlier messages stay as they were |
| `AIBuddyChat.ChatScreen.ReplyTimerFires` | src/pages/AIBuddyChat.tsx:40-48 | the delayed reply appends one buddy message whose text is one of the seven canned responses and ends typing; earlier messages stay as they were |
| `ReflectionJournal.MoodIds` | src/pages/ReflectionJournal.tsx:39-44 | the four mood-button ids, distinct and non-empty; `Questions` has an entry for exactly these |
| `ReflectionJournal.Questions` | src/pages/ReflectionJournal.tsx:16-44 | the table has three questions for each of the four selectable moods and none for any other string, so every selectable mood has an entry |
| `ReflectionJournal.RandomQuestion` | src/pages/ReflectionJournal.tsx:46-49 | `getRandomQuestion` for one draw `pick`; see `RandomQuestionFromTable` |
| `ReflectionJournal.RandomQuestionFromTable` | src/pages/ReflectionJournal.tsx:46-49 | a selectable mood gets one of its own three questions; any other mood, the empty one included, gets "How are you feeling right now?" |
| `ReflectionJournal.JournalScreen.constructor` | src/pages/ReflectionJournal.tsx:11-13 | no mood, empty reflection, no sparkles |
| `ReflectionJournal.JournalScreen.SelectMood` | src/pages/ReflectionJournal.tsx:117 | a mood button sets the mood |
| `ReflectionJournal.JournalScreen.SetReflection` | src/pages/ReflectionJournal.tsx:165 | typing sets the reflection |
| `ReflectionJournal.JournalScreen.SaveEnabled` | src/pages/ReflectionJournal.tsx:175 | the save button is enabled exactly when the reflection is not all whitespace |
| `ReflectionJournal.JournalScreen.SaveReflection` | src/pages/ReflectionJournal.tsx:51-59 | starts the sparkles and the delayed return exactly when saving is enabled; otherwise does nothing |
| `ReflectionJournal.JournalScreen.SparklesTimerFires` | src/pages/ReflectionJournal.tsx:54-57 | the 2000 ms timer stops the sparkles and goes to the dashboard |
| `MoodTracker.Moods` | src/pages/MoodTracker.tsx:13-22 | eight moods with distinct, non-empty ids |
| `MoodTracker.IntensityLevels` | src/pages/MoodTracker.tsx:24 | the intensity choices are exactly the integers 1 to 5, in order |
| `MoodTracker.FindMood` | src/pages/MoodTracker.tsx:34 | `find` returns a listed mood with the selected id, or nothing exactly when no listed id matches |
| `MoodTracker.SelectedMoodDataUnique` | src/pages/MoodTracker.tsx:34 | when the selected id is that of mood `i`, the lookup returns mood `i` itself |
| `MoodTracker.SelectedMoodDataAbsent` | src/pages/MoodTracker.tsx:34 | with nothing selected, or an id not in the table, the lookup returns nothing |
| `MoodTracker.MoodCheckIn.constructor` | src/pages/MoodTracker.tsx:9-10 | nothing is selected at first |
| `MoodTracker.MoodCheckIn.SelectMood` | src/pages/MoodTracker.tsx:78 | selecting a mood replaces the mood and keeps the intensity |
| `MoodTracker.MoodCheckIn.SelectIntensity` | src/pages/MoodTracker.tsx:127 | selecting an intensity replaces the intensity and keeps the mood |
| `MoodTracker.MoodCheckIn.BothSelected` | src/pages/MoodTracker.tsx:27 | the truthiness of `selectedMood && selectedIntensity`, shared by the save handler and by the conditions at lines 158 and 175; see `SaveMood` and `ChoicesMakeSavable` |
| `MoodTracker.MoodCheckIn.SaveMood` | src/pages/MoodTracker.tsx:26-32 | goes to the dashboard and logs the mood and intensity exactly when both are selected; otherwise stays and logs nothing; changes no state |
| `MoodTracker.MoodCheckIn.ChoicesMakeSavable` | src/pages/MoodTracker.tsx:175 | any listed mood with any listed intensity makes the save button appear |

## Left out

- The doodle canvas (`src/pages/DoodleSpace.tsx`) is not part of this model. Its behaviour is made of canvas drawing calls, raster export and a DOM download, which are foreign calls with no contract visible here.
- The dashboard, crisis resources, splash screen and app router hold static data, routing and a splash timer. They are not modelled.
- Timers are modelled one at a time, as a method the host calls when the timer fires. Overlapping timers are not modelled, for example two chat sends before the first reply, or a second badge threshold before the first animation ends.
- Toasts, `console.log`, scrolling the chat and all JSX, CSS and animation are not modelled. A navigation is only returned as a `Nav` value. `SaveMood` returns the logged record.
- The progress-bar percentages (challenge progress and the onboarding bar) are floating-point display values. They are left out.
- `MilestoneBadge.Level`: the badge's `count` prop is a JavaScript number. The model takes it as an integer, so fractional counts are not covered, and neither is `NaN`, for which the source gives level 0 and the last threshold as the next milestone.
- `ReflectionJournal.RandomQuestion` is called during rendering, so the source draws a new question on every render. The model gives the result of one draw for a given pick.
- In the source, a mood string that names an Object prototype member (such as `constructor`) looks up something other than a question list. The source still ends at the fallback question for those strings. The model's table simply has no entry for them.
- `JsString.Trim` and `JsString.Utf16Length` cover well-formed strings only. A Dafny `char` is a Unicode scalar value, so a JavaScript string holding an unpaired UTF-16 surrogate has no counterpart in the model.
- `Profile.InitialNameValid` covers the name only. The initial bio has 111 characters, all below U+FFFF, so it is within 200 code units, but no lemma states that.
- The `maxLength` attributes of the profile inputs, which stop typing beyond 50 and 200 code units, are not modelled. The validator is modelled for any input.
- `MoodTracker.MoodCheckIn.SelectIntensity` accepts any integer. The screen only offers the levels in `IntensityLevels`.
- Message ids are the decimal text of `Date.now()` (plus one for a reply). The model takes each id as a given string, so `AIBuddyChat.ChatScreen.ReplyTimerFires` does not relate the reply's id to the send's.
