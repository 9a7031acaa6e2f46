# HealthBuddyPlus screen state, in Dafny

HealthBuddyPlus is a client-side wellness app: a mood garden, a meal planner,
a care hub for medications and a first-aid quiz, a community wall with
challenges, a profile page and a dashboard. All its state lives in the screen
components. This project models that state and the handlers that change it.
Each screen is a class whose fields are the component's state variables. Each
handler is a method whose `ensures` ties the new state to a pure transition
function on a snapshot datatype. The properties the app relies on are proved
as lemmas about those functions: toggles that undo themselves, an idempotent
join, a capped history, like counts that never go negative, a quiz score that
never exceeds the questions answered, and total, monotone step functions.

Files, one module each:

- `option.dfy` (`Optional`): the `T | null` state slots.
- `text.dfy` (`Text`): `trim` with ECMAScript's white-space set, ASCII `toLowerCase`, `includes`.
- `lists.dfy` (`Lists`): duplicate-free lists, element sets, removal of every occurrence, subsequences.
- `dashboard.dfy` (`Dashboard`): the time-of-day greeting.
- `carehub.dfy` (`CareHub`): medications, adherence and the quiz state machine.
- `community.dfy` (`Community`): challenge join, likes and new posts.
- `moodtracker.dfy` (`MoodTracker`): mood entries, the 7-entry history, the average and the garden level.
- `mealplanner.dfy` (`MealPlanner`): favourites, meal plan, recipe generation, the filter and the pantry.
- `profile.dfy` (`Profile`): the edit/save/cancel transaction and the notification switches.

Inputs the app reads from its environment are parameters. These are the
clock hour (`hour`), "today" as a date string (`today`), the post id that
`crypto.randomUUID` would produce (`id`), the current time in milliseconds
(`now`), and the randomly generated first week of moods (`seed`).

String constants are kept code point for code point as the source holds
them, including two that are stored mis-encoded (UTF-8 bytes read as
Windows-1252): the seed profile's avatar (`Profile.SeedProfile`) and the
first instruction of the lentil soup recipe (`MealPlanner.AllRecipes`).

JavaScript truthiness is modelled as written. A quiz selection counts only
when it is present and not `""`. A selected mood counts only when it is
present and not `0`. An ingredient draft counts only when it is not `""`.

## Model

| member | source | states |
|---|---|---|
| `Dashboard.TimeOfDay` | src/components/Dashboard.tsx:85-102 | every hour gets exactly one greeting: morning iff hour < 12, afternoon iff 12 <= hour < 17, evening iff hour >= 17 |
| `Dashboard.BannerOf` | src/components/Dashboard.tsx:87-101 | each greeting gets its banner text ("Good Morning", "Good Afternoon", "Good Evening") and its gradient (amber to orange, sky to cyan, indigo to purple) |
| `Dashboard.TimeOfDayMonotone` | src/components/Dashboard.tsx:86-101 | a later hour never gives an earlier greeting |
| `CareHub.ToggleTaken` | src/components/CareHub.tsx:107 | same length and order; only `takenToday` can change, and it flips exactly on the medications with the given id |
| `CareHub.ToggleTakenTwice` | src/components/CareHub.tsx:107 | toggling the same id twice restores the list |
| `CareHub.ToggleTakenUnknownId` | src/components/CareHub.tsx:107 | an id no medication has leaves the list unchanged |
| `CareHub.CountTaken` | src/components/CareHub.tsx:111 | the taken count is at most the list length; it is 0 iff none is taken and the length iff all are |
| `CareHub.Adherence` | src/components/CareHub.tsx:108-113 | 0 for an empty list; otherwise 100·taken/total rounded half up, as `Math.round` rounds; always in [0,100]; 0 when none taken, 100 when all taken |
| `CareHub.RoundedPercent` | src/components/CareHub.tsx:112 | the integer formula (200·taken + total) div (2·total) lies within one half of 100·taken/total, rounding halves up, and stays in [0,100] |
| `CareHub.QuotientRounds` | src/components/CareHub.tsx:112 | a quotient within half a step of 100·taken/total lies in [0,100], and is 0 or 100 at the extremes |
| `CareHub.Select` | src/components/CareHub.tsx:115-121 | with an answer already chosen nothing changes; otherwise the option is recorded and the score rises by 1 exactly when it is the current question's correct answer |
| `CareHub.Advance` | src/components/CareHub.tsx:123-130 | before the last question: next index and no selection; at the last: only the result is shown |
| `CareHub.Restart` | src/components/CareHub.tsx:132-137 | index 0, score 0, no selection, result hidden: the initial quiz |
| `CareHub.InitialQuizInv` | src/components/CareHub.tsx:101-104 | the initial quiz state satisfies the quiz invariant |
| `CareHub.QuizInvPreserved` | src/components/CareHub.tsx:115-137 | select, advance and restart keep the index in [0,3] and the score at most the questions answered, hence at most 4 |
| `CareHub.CountCorrect` | src/components/CareHub.tsx:118 | the number of right answers is at most the number of answers |
| `CareHub.Play` | src/components/CareHub.tsx:115-130 | answering and advancing keeps the index on a question |
| `CareHub.PlayScores` | src/components/CareHub.tsx:115-130 | playing to the end from an unanswered question shows the result and adds exactly the number of correct answers to the score |
| `CareHub.CorrectAnswers` | src/components/CareHub.tsx:71-76 | the correct option of each of the four questions, in order |
| `CareHub.AllCorrectScoresFour` | src/components/CareHub.tsx:71-76 | choosing every correct option ends with score 4 and the result shown |
| `CareHub.AllWrongScoresZero` | src/components/CareHub.tsx:71-76 | choosing a wrong option for every question ends with score 0 |
| `CareHub.NoCorrectCountsZero` | src/components/CareHub.tsx:118 | with no right answer the count of right answers is 0 |
| `CareHub.CareHubScreen.MedicationAdherence` | src/components/CareHub.tsx:108-113 | the adherence shown is in [0,100] |
| `CareHub.CareHubScreen.constructor` | src/components/CareHub.tsx:84-104 | the two seed medications and the initial quiz state |
| `CareHub.CareHubScreen.TakeMedication` | src/components/CareHub.tsx:107 | the medication list becomes ToggleTaken of the old list |
| `CareHub.CareHubScreen.AnswerSelect` | src/components/CareHub.tsx:115-121 | the quiz fields move as Select says, keeping the quiz invariant |
| `CareHub.CareHubScreen.NextQuestion` | src/components/CareHub.tsx:123-130 | the quiz fields move as Advance says, keeping the quiz invariant |
| `CareHub.CareHubScreen.RestartQuiz` | src/components/CareHub.tsx:132-137 | the quiz fields return to the initial state |
| `Text.Utf16Length` | src/components/MealPlanner.tsx:113 | `.length` in UTF-16 code units: between the number of characters and twice it, and equal to it exactly when every character lies in the Basic Multilingual Plane |
| `Text.TrimEmptyIffBlank` | src/components/Community.tsx:110 | a draft trims to "" exactly when every character is white space |
| `Community.BumpParticipants` | src/components/Community.tsx:97 | exactly the challenges with the given id gain one participant; the others and the order are unchanged |
| `Community.Join` | src/components/Community.tsx:94-98 | an already joined id changes nothing; a new id is appended to the joined list and its challenge gains one participant; the wall and draft are untouched |
| `Community.JoinIdempotent` | src/components/Community.tsx:94-98 | joining twice equals joining once |
| `Community.JoinTwiceCountsOnce` | src/components/Community.tsx:94-98 | two joins of a new challenge raise its participants by exactly 1 |
| `Community.JoinKeepsNoDuplicates` | src/components/Community.tsx:95-96 | the joined list never holds an id twice |
| `Community.ToggleLikes` | src/components/Community.tsx:100-107 | matching posts flip `liked` and move `likes` by +1 (false to true) or -1 (true to false); other posts and fields are unchanged |
| `Community.ToggleLikesTwice` | src/components/Community.tsx:103 | liking twice restores the wall |
| `Community.ToggleLikesKeepsConsistent` | src/components/Community.tsx:103 | likes >= (liked ? 1 : 0) is preserved, so no count goes negative |
| `Community.SeedPostsConsistent` | src/components/Community.tsx:79-82 | the seed posts satisfy the like invariant |
| `Community.NewPost` | src/components/Community.tsx:111-121 | a new post has 0 likes, 0 comments, is not liked, and carries the draft, id and time |
| `Community.Publish` | src/components/Community.tsx:109-124 | a blank draft changes nothing; otherwise the untrimmed draft is posted at the front and the draft is cleared |
| `Community.PublishKeepsConsistent` | src/components/Community.tsx:109-124 | posting keeps the like invariant and grows the wall by one exactly when the draft is not blank |
| `Community.CommunityScreen.constructor` | src/components/Community.tsx:89-92 | seed challenges, joined list ["2"], seed posts, empty draft |
| `Community.CommunityScreen.JoinChallenge` | src/components/Community.tsx:94-98 | the state becomes Join of the old state; the joined list stays duplicate-free |
| `Community.CommunityScreen.LikePost` | src/components/Community.tsx:100-107 | the wall becomes ToggleLikes of the old wall; counts stay consistent |
| `Community.CommunityScreen.SetNewPost` | src/components/Community.tsx:220 | only the draft changes |
| `Community.CommunityScreen.AddPost` | src/components/Community.tsx:109-124 | the state becomes Publish of the old state |
| `MoodTracker.Record` | src/components/MoodTracker.tsx:89 | new length is min(old + 1, 7); the entry is first, then the old entries in order |
| `MoodTracker.SelectMood` | src/components/MoodTracker.tsx:75-78 | the mood is selected and the note input shown; history and notes untouched |
| `MoodTracker.Submit` | src/components/MoodTracker.tsx:80-94 | with no truthy mood nothing changes; otherwise today's entry with the mood and notes is recorded, and the selection, notes and note input are reset |
| `MoodTracker.SubmitKeepsHistoryValid` | src/components/MoodTracker.tsx:80-94 | saving keeps at most 7 entries, each with a mood in [1,5] |
| `MoodTracker.Sum` | src/components/MoodTracker.tsx:98 | the left-to-right total of the moods; with moods in [1,5] it lies between the count and 5 times the count |
| `MoodTracker.AverageMood` | src/components/MoodTracker.tsx:96-101 | 0 for an empty history; otherwise the sum of the moods divided by their count, i.e. the mean |
| `MoodTracker.AverageMoodBounds` | src/components/MoodTracker.tsx:96-101 | the average is 0 for no entries and lies in [1,5] otherwise |
| `MoodTracker.GardenLevelOf` | src/components/MoodTracker.tsx:103-109 | five contiguous, non-overlapping bands at 4.5, 3.5, 2.5 and 1.5 that cover every average |
| `MoodTracker.GardenLevelMonotone` | src/components/MoodTracker.tsx:103-109 | a higher average never gives a lower level |
| `MoodTracker.MeanAtLeast` | src/components/MoodTracker.tsx:103-109 | for a positive count, sum/count ≥ k/2 exactly when 2·sum ≥ k·count |
| `MoodTracker.AverageAtLeast` | src/components/MoodTracker.tsx:96-109 | the average reaches k/2 exactly when 2·sum reaches k·count, the cross-multiplied form of each threshold |
| `MoodTracker.GardenLevelAgreesWithCounts` | src/components/MoodTracker.tsx:96-109 | the level of the average equals the integer cross-multiplied classification of sum and count |
| `MoodTracker.MoodTrackerScreen.GardenStatus` | src/components/MoodTracker.tsx:111 | the level shown agrees with the integer classification of the history |
| `MoodTracker.MoodTrackerScreen.constructor` | src/components/MoodTracker.tsx:44-65 | seven seed entries with moods 3 to 5; nothing selected |
| `MoodTracker.MoodTrackerScreen.MoodSelect` | src/components/MoodTracker.tsx:75-78 | the state becomes SelectMood of the old state |
| `MoodTracker.MoodTrackerScreen.SetNotes` | src/components/MoodTracker.tsx:194 | only the notes change |
| `MoodTracker.MoodTrackerScreen.CancelNote` | src/components/MoodTracker.tsx:200 | only the note input is hidden |
| `MoodTracker.MoodTrackerScreen.HandleSubmit` | src/components/MoodTracker.tsx:80-94 | the state becomes Submit of the old state; at most 7 entries, moods in [1,5] |
| `MealPlanner.FavoritesToggled` | src/components/MealPlanner.tsx:78-82 | a present id is removed everywhere, an absent one appended |
| `MealPlanner.FavoritesToggledKeepsNoDuplicates` | src/components/MealPlanner.tsx:78-82 | favourites stay duplicate-free |
| `MealPlanner.FavoritesToggledTwice` | src/components/MealPlanner.tsx:78-82 | toggling twice restores the set of favourites, and the list itself when the id was absent |
| `MealPlanner.RemoveAllAppend` | src/components/MealPlanner.tsx:80 | removing an id from a list with it appended equals removing it from the list |
| `MealPlanner.PlanWith` | src/components/MealPlanner.tsx:92 | the name is appended to today's list, which is created when missing; other keys untouched |
| `MealPlanner.Ids` | src/components/MealPlanner.tsx:101 | the ids of the cards, in order |
| `MealPlanner.FirstUnshown` | src/components/MealPlanner.tsx:102 | the first catalog position whose id is not shown, or the catalog length when all are |
| `MealPlanner.RevealNext` | src/components/MealPlanner.tsx:101-107 | appends the first unshown catalog recipe, or changes nothing when all are shown |
| `MealPlanner.SeedShownValid` | src/components/MealPlanner.tsx:55 | the three starting cards have distinct catalog ids |
| `MealPlanner.RevealNextKeepsShownValid` | src/components/MealPlanner.tsx:101-104 | generating keeps ids distinct and from the catalog, so at most 6 cards |
| `MealPlanner.ShownAtMostCatalog` | src/components/MealPlanner.tsx:44-51 | distinct catalog cards number at most the catalog's 6 |
| `MealPlanner.RevealNextWhenExhausted` | src/components/MealPlanner.tsx:102-106 | with every catalog id shown, generating changes nothing |
| `MealPlanner.FilterRecipes` | src/components/MealPlanner.tsx:112-121 | a card is kept iff it passes both the search test (term of at most 2 UTF-16 units, or found in the lower-cased name or a tag) and the meal-type test |
| `MealPlanner.FilterIsSubsequence` | src/components/MealPlanner.tsx:112-121 | the filtered cards are an order-preserving subsequence of the cards |
| `MealPlanner.FilterShortTermAll` | src/components/MealPlanner.tsx:113-118 | a term of at most 2 UTF-16 code units with type "all" keeps every card |
| `MealPlanner.PantryWith` | src/components/MealPlanner.tsx:130-135 | an empty or already present lower-cased draft changes nothing; otherwise its lower-case form is appended |
| `MealPlanner.PantryWithKeepsNoDuplicates` | src/components/MealPlanner.tsx:130-135 | the pantry stays duplicate-free |
| `MealPlanner.PantryWithIdempotent` | src/components/MealPlanner.tsx:131 | adding the same draft twice stores it once |
| `MealPlanner.MealPlannerScreen.FilteredRecipes` | src/components/MealPlanner.tsx:112-121 | the grid shows an order-preserving subsequence of the cards holding exactly those that match search and type |
| `MealPlanner.MealPlannerScreen.constructor` | src/components/MealPlanner.tsx:55-66 | first three catalog recipes, seed pantry, favourites ["2"], empty plan |
| `MealPlanner.MealPlannerScreen.ToggleFavorite` | src/components/MealPlanner.tsx:76-87 | favourites become FavoritesToggled of the old list; duplicate-free |
| `MealPlanner.MealPlannerScreen.AddToMealPlan` | src/components/MealPlanner.tsx:89-95 | the plan becomes PlanWith of the old plan and the open recipe is closed |
| `MealPlanner.MealPlannerScreen.StartGenerate` | src/components/MealPlanner.tsx:97-98 | only the generating flag is set |
| `MealPlanner.MealPlannerScreen.CompleteGenerate` | src/components/MealPlanner.tsx:99-110 | the cards become RevealNext of the old cards and the flag is cleared |
| `MealPlanner.MealPlannerScreen.SetSearchTerm` | src/components/MealPlanner.tsx:207 | only the search term changes |
| `MealPlanner.MealPlannerScreen.SetMealType` | src/components/MealPlanner.tsx:194 | only the meal type changes |
| `MealPlanner.MealPlannerScreen.SelectRecipe` | src/components/MealPlanner.tsx:255 | only the open recipe changes |
| `MealPlanner.MealPlannerScreen.SetNewIngredient` | src/components/MealPlanner.tsx:175 | only the ingredient draft changes |
| `MealPlanner.MealPlannerScreen.AddIngredient` | src/components/MealPlanner.tsx:130-135 | the pantry becomes PantryWith of the old one; the draft is cleared exactly when it was stored |
| `Profile.WithField` | src/components/Profile.tsx:200-210 | the edited field takes the typed value and every other field is unchanged |
| `Profile.Toggled` | src/components/Profile.tsx:107 | exactly the named switch flips |
| `Profile.ToggledTwice` | src/components/Profile.tsx:107 | flipping a switch twice restores the settings |
| `Profile.BeginEdit` | src/components/Profile.tsx:104 | the draft becomes the committed profile and editing starts |
| `Profile.Save` | src/components/Profile.tsx:105 | the committed profile becomes the draft and editing ends |
| `Profile.Cancel` | src/components/Profile.tsx:106 | editing ends and the committed profile is untouched |
| `Profile.EditDraft` | src/components/Profile.tsx:200-210 | a field edit changes that draft field only, never the committed profile |
| `Profile.EditDraftsOnlyDraft` | src/components/Profile.tsx:196-213 | any series of field edits leaves the committed profile alone and applies them to the draft |
| `Profile.EditThenCancelKeepsProfile` | src/components/Profile.tsx:104-106 | edit, any edits, cancel: the committed profile equals its pre-edit value |
| `Profile.EditThenSaveCommitsEdits` | src/components/Profile.tsx:104-106 | edit, edits, save commits exactly those edits; with no edits the profile is unchanged |
| `Profile.ProfileScreen.constructor` | src/components/Profile.tsx:78-80 | seed profile as both committed and draft; seed switches |
| `Profile.ProfileScreen.HandleEdit` | src/components/Profile.tsx:104 | the state becomes BeginEdit of the old state |
| `Profile.ProfileScreen.HandleSaveProfile` | src/components/Profile.tsx:105 | the state becomes Save of the old state |
| `Profile.ProfileScreen.HandleCancelEdit` | src/components/Profile.tsx:106 | the state becomes Cancel of the old state |
| `Profile.ProfileScreen.HandleFieldChange` | src/components/Profile.tsx:200-210 | the state becomes EditDraft of the old state |
| `Profile.ProfileScreen.HandleNotificationChange` | src/components/Profile.tsx:107 | the switches become Toggled of the old ones |

## Left out

- Rendering, framer-motion animation and the spring-driven `AnimatedNumber` (src/components/Profile.tsx:42-51): presentation only.
- Toasts (ids from `Date.now()`, removal by `setTimeout`): transient notices with no effect on the modelled state. The toast text of `toggleFavorite` reads the favourites from before the update; it is not modelled.
- The 1500 ms delay in `handleGenerateRecipes`: the click and the timer callback are two separate methods (`StartGenerate`, `CompleteGenerate`), and nothing else runs between them in the model.
- The dashboard's stats timer and fixed stats values: no behaviour beyond a constant update.
- Appointments (built with `crypto.randomUUID` and `new Date()`, shown through date-fns filtering and formatting), care notes, the care team, badges and the leaderboard: static seed data or library date handling with no handler.
- The random generator of the first week of moods: the constructor takes that week as `seed`, stating only what the generator guarantees (seven entries, moods 3 to 5).
- React setter batching and stale closures: each handler is one atomic step on the current state.
- `Text.Lower` covers the ASCII letters only; `toLowerCase` on other Unicode letters is not modelled.
- `CareHub.Adherence` computes the exact round-half-up in integer arithmetic; the source's floating-point division before `Math.round` could differ by one at an exact .5 boundary that a double cannot represent.
- `MoodTracker.AverageMood` is an exact rational (`real`), not an IEEE double; for histories of a few entries the comparisons with 4.5, 3.5, 2.5 and 1.5 agree.
- `MoodTracker.MoodTrackerScreen.MoodSelect` requires a mood of 1 to 5, the values of the five mood buttons; the pure `SelectMood` and `Submit` accept any number, including the falsy 0.
- At most one mood entry per day is not enforced by the code: saving twice on one day records two entries, and the model does the same.
- Navigation, routing and the database configuration stub are not part of this model.
