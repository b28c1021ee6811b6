# BrightKids letter tracing, modelled in Dafny

BrightKids is an Android app in which children trace French and Arabic letters with a
finger. This project models its core:

- the tracing view's score and star rating (`Scoring`, scoring.dfy);
- the view's touch session: pointer-down, move and up, the deferred "is the attempt
  finished?" checks that pointer-up posts, `clear`, `setLetter` and the bitmap's
  (re)creation on a size change (`Tracing`, tracing.dfy);
- the progress and letter tables and the statements the DAO issues on them (`Dao`,
  letter_dao.dfy);
- the tracing screen: the built-in letter lists and the next-letter lookup, the score
  dialog's contents, the progress update after each scored attempt, and the wiring from
  the view's callback to both (`Activity`, drawing_activity.dfy);
- the two stored records (`Model`, model.dfy).

The view's bitmap is modelled as the guide glyph drawn on it plus the strokes committed
since it was last erased, with a flag saying whether it exists yet. The checks posted
with `postDelayed` all have the same 1500 ms delay, so they run in posting order: they are
a queue of the touch-point counts they captured, and a check "running" is an event taking
the current clock reading. The completion callback is a log of (score, duration) pairs.
Each event's effect is a pure function on a `ViewState` (`Tracing.OnDown` and so on); the
class `Tracing.DrawingView` changes its fields in place and is proved against those
functions, and lemmas about runs of events (`Tracing.Run`) state what a session does.

The score is computed by the app with 32-bit floats. For the scores that occur (0..100)
and any duration, truncating `score * 1.2f` and `score * 0.8f` gives `score * 6 / 5` and
`score * 4 / 5`, and comparing `duration / 1000f` with 1, 2, 8 and 15 is comparing the
duration with 1000, 2000, 8000 and 15000 ms. The model uses these integer forms; this is
an assumption about IEEE float rounding, not a proof. `Scoring.RealScore` states the rule
as written, with exact real arithmetic, and `Scoring.IntegerScoreMatchesRealScore` proves
the two agree.

Where the code and its own description disagree, the model follows the code:

- The comments in `saveProgress` say the best rating is kept. The final `insertProgress`
  call replaces the whole row, so a starred attempt always leaves the row as
  (id, 1, stars). This resets the practice count and can lower a higher rating
  (`Activity.SaveProgressNetEffect`, `Activity.SaveProgressForgetsBestRating`). What is
  kept is that a letter with at least one star never loses it
  (`Activity.SaveProgressKeepsCompleted`).
- Pointer-up's comment says the check waits "to see if user continues drawing". A new
  pointer-down does not close the session, so the first check posted in a session fires
  unless `clear()` runs, or the session is closed some other way, before it. It reports
  only the points counted up to the first stroke's pointer-up
  (`Tracing.TwoStrokesScoredOnFirstStroke`). The checks of later strokes find the session
  closed and fire nothing, unless a new pointer-down opens another session before they
  run. Then a check from the earlier session fires for the new one, with the count it
  captured in the old one (`Tracing.StaleCheckScoresNextSession`).

Both points are listed under "## Findings" below. Each has a corrected definition beside
the as-written one, with the intended property proved. The screen class
`Activity.DrawingActivity` and the view class `Tracing.DrawingView` model the app as it
behaves, so they use the as-written definitions.

## Model

| member | source | states |
|---|---|---|
| `Scoring.BaseScore` | app/src/main/java/com/example/brightkids/view/DrawingView.kt:120 | the base score lies in 0..100; under 10 points it is 0, from 1000 points it is 100 |
| `Scoring.CalculateScore` | app/src/main/java/com/example/brightkids/view/DrawingView.kt:114-130 | every score lies in 0..100; an attempt under 1000 ms, or with fewer than 10 points, scores 0 |
| `Scoring.RealScore` | app/src/main/java/com/example/brightkids/view/DrawingView.kt:114-130 | the rule as written, with exact reals: the score lies in 0..100, and an attempt under one second scores 0 |
| `Scoring.IntegerScoreMatchesRealScore` | app/src/main/java/com/example/brightkids/view/DrawingView.kt:116-129 | the integer rule equals the rule as written (seconds = ms / 1000, times 1.2 or 0.8, truncated) read with exact reals |
| `Scoring.ScoreByDurationBand` | app/src/main/java/com/example/brightkids/view/DrawingView.kt:120-129 | 2000..8000 ms gives min(100, base*6/5); over 15000 ms gives base*4/5; 1000..1999 and 8001..15000 ms give the base |
| `Scoring.ScoreMonotoneInPoints` | app/src/main/java/com/example/brightkids/view/DrawingView.kt:114-130 | for a fixed duration, more touch points never give a lower score |
| `Scoring.StarsFromScore` | app/src/main/java/com/example/brightkids/view/DrawingView.kt:132-139 | the rating lies in 0..3 |
| `Scoring.StarsCountThresholds` | app/src/main/java/com/example/brightkids/view/DrawingView.kt:132-139 | the rating is the number of the thresholds 20, 40, 70 that the score reaches |
| `Scoring.StarsReachThreshold` | app/src/main/java/com/example/brightkids/view/DrawingView.kt:133-137 | at least k stars exactly when the score reaches the k-th threshold |
| `Scoring.StarsMonotone` | app/src/main/java/com/example/brightkids/view/DrawingView.kt:132-139 | a higher score never gives fewer stars |
| `Scoring.StarBoundaries` | app/src/main/java/com/example/brightkids/view/DrawingView.kt:133-137 | 19, 39, 69 give 0, 1, 2 stars; 20, 40, 70 give 1, 2, 3 |
| `Scoring.QuickTapEarnsNoStar` | app/src/main/java/com/example/brightkids/view/DrawingView.kt:116-117 | under 1000 ms the score is 0 and so is the rating |
| `Scoring.StarsFromPoints` | app/src/main/java/com/example/brightkids/view/DrawingView.kt:114-139 | from one second on, k stars need exactly 170/340/590 points in the bonus window, 250/500/880 over 15 s, 200/400/700 otherwise |
| `Scoring.ScoreExamples` | app/src/main/java/com/example/brightkids/view/DrawingView.kt:114-139 | 50 points in 3 s score 6 (0 stars); 800 in 5 s score 96 (3); 500 in 20 s score 40 (2) |
| `Tracing.DrawingView.constructor` | app/src/main/java/com/example/brightkids/view/DrawingView.kt:43-54 | a new view has no letter, no bitmap, no session, no pending check |
| `Tracing.DrawingView.Down` | app/src/main/java/com/example/brightkids/view/DrawingView.kt:78-86 | opens a session at `now` with count 1 if none is open; inside a session keeps the start time and adds 1 to the count |
| `Tracing.DrawingView.Move` | app/src/main/java/com/example/brightkids/view/DrawingView.kt:87-90 | adds exactly 1 to the count and a segment to the path; the session is unchanged |
| `Tracing.DrawingView.Up` | app/src/main/java/com/example/brightkids/view/DrawingView.kt:91-98 | commits the path as a stroke, empties the path, adds 1 to the count and queues a check holding the new count |
| `Tracing.DrawingView.Settle` | app/src/main/java/com/example/brightkids/view/DrawingView.kt:98-107 | pops the oldest check; fires only if a session is open, with the score of the captured count over now - startTime; afterwards no session is open and a firing leaves count 0 |
| `Tracing.DrawingView.DrawGuide` | app/src/main/java/com/example/brightkids/view/DrawingView.kt:149-177 | with a bitmap and a non-empty letter, the bitmap becomes that glyph and nothing else; otherwise nothing changes |
| `Tracing.DrawingView.Clear` | app/src/main/java/com/example/brightkids/view/DrawingView.kt:179-188 | on a sized view: no strokes, empty path, no session, count 0, guide redrawn; unsized: no change; queued checks stay |
| `Tracing.DrawingView.StartTraceAnimation` | app/src/main/java/com/example/brightkids/view/DrawingView.kt:194-197 | the same effect as clear |
| `Tracing.DrawingView.SetLetter` | app/src/main/java/com/example/brightkids/view/DrawingView.kt:141-147 | always stores the letter; the bitmap becomes the new guide only if sized and the letter is non-empty |
| `Tracing.DrawingView.SizeChanged` | app/src/main/java/com/example/brightkids/view/DrawingView.kt:57-65 | the bitmap exists and holds the current letter's guide and no stroke |
| `Tracing.StepPreservesInv` | app/src/main/java/com/example/brightkids/view/DrawingView.kt:73-188 | every event keeps the invariant: count >= 0, an open session has count >= 1, queued counts >= 1, no bitmap content before sizing, the guide is the letter, scores in 0..100 |
| `Tracing.RunPreservesInv` | app/src/main/java/com/example/brightkids/view/DrawingView.kt:73-188 | the invariant holds after any run of events |
| `Tracing.RunExtendsCompletions` | app/src/main/java/com/example/brightkids/view/DrawingView.kt:98-107 | callbacks are only ever appended, never withdrawn |
| `Tracing.SessionOpensAtMostDowns` | app/src/main/java/com/example/brightkids/view/DrawingView.kt:79-83 | the session-opening pointer-downs of a run are at most all its pointer-downs |
| `Tracing.AtMostOneCompletionPerSession` | app/src/main/java/com/example/brightkids/view/DrawingView.kt:78-107 | callbacks plus open sessions grow by at most the number of pointer-downs taken with no session open: at most one callback per session |
| `Tracing.NoCompletionWithoutDown` | app/src/main/java/com/example/brightkids/view/DrawingView.kt:100 | with no session open and no pointer-down, no queued check fires |
| `Tracing.ClearSilencesPendingChecks` | app/src/main/java/com/example/brightkids/view/DrawingView.kt:179-188 | after clear on a sized view, checks posted earlier fire nothing unless a new pointer-down comes first |
| `Tracing.TwoStrokesScoredOnFirstStroke` | app/src/main/java/com/example/brightkids/view/DrawingView.kt:78-107 | down, up, down, up: the first check fires with 2 points over the session's time, the second fires nothing |
| `Tracing.StaleCheckScoresNextSession` | app/src/main/java/com/example/brightkids/view/DrawingView.kt:78-107 | down, up, down, up, check, down, check: the second check fires for the new session with the 4 points it captured in the old one |
| `Tracing.OnSettleWhenIdle` | app/src/main/java/com/example/brightkids/view/DrawingView.kt:98-107 | the check as its comment describes it: it pops the oldest check and fires only if a session is open and the count still equals the check's snapshot (within one session: no point counted since that pointer-up), with the current count over now - startTime, then closes the session |
| `Tracing.TwoStrokesScoredOnLastStroke` | app/src/main/java/com/example/brightkids/view/DrawingView.kt:92-107 | with that check, down, up, down, up fires once, at the second check, with 4 points over the whole session |
| `Tracing.IdleCheckAcrossClear` | app/src/main/java/com/example/brightkids/view/DrawingView.kt:92-107 | with that check, down, up, clear(), down, up queues [2, 2], and the check posted before the clear fires for the new session with 2 points over t2 - t1 |
| `Tracing.LetterSetBeforeLayoutIsDrawn` | app/src/main/java/com/example/brightkids/view/DrawingView.kt:141-150 | setLetter before sizing draws nothing; the size change then draws that letter |
| `Tracing.EmptyLetterKeepsInk` | app/src/main/java/com/example/brightkids/view/DrawingView.kt:150 | setting the empty letter on a sized view keeps the bitmap, old guide and strokes included |
| `Dao.Upsert` | app/src/main/java/com/example/brightkids/database/LetterDao.kt:19-20 | the row is stored under its id; every other row is unchanged |
| `Dao.InsertIfAbsent` | app/src/main/java/com/example/brightkids/database/LetterDao.kt:35-36 | an absent id gets (id, 1, stars); an existing row and all other rows are untouched |
| `Dao.Incremented` | app/src/main/java/com/example/brightkids/database/LetterDao.kt:25-26 | an existing row gains 1 practice; absent id or other rows: no change |
| `Dao.StarsRaised` | app/src/main/java/com/example/brightkids/database/LetterDao.kt:28-29 | an existing row's stars become the larger of old and new; nothing else changes |
| `Dao.StarsRaisedNeverLowers` | app/src/main/java/com/example/brightkids/database/LetterDao.kt:28-29 | no stored rating decreases |
| `Dao.StarsRaisedIdempotent` | app/src/main/java/com/example/brightkids/database/LetterDao.kt:28-29 | applying it twice equals applying it once |
| `Dao.StarsSet` | app/src/main/java/com/example/brightkids/database/LetterDao.kt:31-33 | an existing row's stars are overwritten; absent id or other rows: no change |
| `Dao.GetProgress` | app/src/main/java/com/example/brightkids/database/LetterDao.kt:22-23 | the row for the id if there is one, else none |
| `Dao.AllProgress` | app/src/main/java/com/example/brightkids/database/LetterDao.kt:38-40 | exactly the stored rows |
| `Dao.CompletedLettersCount` | app/src/main/java/com/example/brightkids/database/LetterDao.kt:42-44 | at most the number of rows; 0 iff no row has a star; all rows iff every row has one |
| `Dao.ProgressForLetters` | app/src/main/java/com/example/brightkids/database/LetterDao.kt:46-48 | exactly the stored rows whose id is in the list |
| `Dao.LettersByLanguage` | app/src/main/java/com/example/brightkids/database/LetterDao.kt:13-14 | exactly the stored letters of that language |
| `Dao.InsertLetterRow` | app/src/main/java/com/example/brightkids/database/LetterDao.kt:16-17 | the letter is stored under its id (a fresh id when its id is 0); other rows are unchanged |
| `Dao.LetterDao.InsertLetter` | app/src/main/java/com/example/brightkids/database/LetterDao.kt:16-17 | replaces the letters table by `InsertLetterRow` of it |
| `Dao.LetterDao.InsertProgress` | app/src/main/java/com/example/brightkids/database/LetterDao.kt:19-20 | replaces the progress table by `Upsert` of it |
| `Dao.LetterDao.IncrementPractice` | app/src/main/java/com/example/brightkids/database/LetterDao.kt:25-26 | replaces the progress table by `Incremented` of it |
| `Dao.LetterDao.UpdateStarsIfBetter` | app/src/main/java/com/example/brightkids/database/LetterDao.kt:28-29 | replaces the progress table by `StarsRaised` of it |
| `Dao.LetterDao.UpdateStars` | app/src/main/java/com/example/brightkids/database/LetterDao.kt:31-33 | replaces the progress table by `StarsSet` of it |
| `Dao.LetterDao.InsertProgressIfNotExists` | app/src/main/java/com/example/brightkids/database/LetterDao.kt:35-36 | replaces the progress table by `InsertIfAbsent` of it |
| `Activity.ArabicLetters` | app/src/main/java/com/example/brightkids/DrawingActivity.kt:161-190 | 28 Arabic letters numbered 1..28 in order |
| `Activity.FrenchLetters` | app/src/main/java/com/example/brightkids/DrawingActivity.kt:192-219 | 26 French letters numbered 1..26 in order |
| `Activity.IndexOfFirst` | app/src/main/java/com/example/brightkids/DrawingActivity.kt:152 | the first position holding the id, or -1 exactly when no position does |
| `Activity.NextLetter` | app/src/main/java/com/example/brightkids/DrawingActivity.kt:150-159 | the letter after the id's first position; none when the id is absent or last |
| `Activity.GetNextLetter` | app/src/main/java/com/example/brightkids/DrawingActivity.kt:150-159 | a next letter exists exactly when 1 <= id < the list's length, and it is the list's letter numbered id + 1 |
| `Activity.NextOfConsecutive` | app/src/main/java/com/example/brightkids/DrawingActivity.kt:150-159 | in a list numbered 1..n, id k < n leads to id k+1; 0, n and unknown ids lead nowhere |
| `Activity.NextLetterInBuiltInLists` | app/src/main/java/com/example/brightkids/DrawingActivity.kt:150-219 | for both languages id k leads to k+1 (k < 28 Arabic, k < 26 French); the default id 0 and the last id give none |
| `Activity.ScoreMessages` | app/src/main/java/com/example/brightkids/DrawingActivity.kt:221-228 | a rating of 1..3 gives a title ending in exactly that many ⭐; any other rating gives a title with no ⭐ that ends in 💪 |
| `Activity.ScoreMessagesByRating` | app/src/main/java/com/example/brightkids/DrawingActivity.kt:221-228 | ratings 0..3 get four different titles; any other value gets the no-star messages |
| `Activity.EarnedSlots` | app/src/main/java/com/example/brightkids/DrawingActivity.kt:230-236 | three slots; the earned ones come first; all are earned from 3 stars and none at 0 or below |
| `Activity.EarnedSlotsShowRating` | app/src/main/java/com/example/brightkids/DrawingActivity.kt:234-236 | a rating of 0..3 lights exactly that many of the three slots, the first ones |
| `Activity.ShowScoreDialog` | app/src/main/java/com/example/brightkids/DrawingActivity.kt:80-107 | the dialog shows the score and rating it was given; for 0..3 stars exactly that many slots are lit, and a starred title carries that many ⭐ |
| `Activity.SaveProgressEffect` | app/src/main/java/com/example/brightkids/DrawingActivity.kt:267-290 | with a letter id, its row exists afterwards, and a starred attempt leaves it at least one star; all other rows are kept |
| `Activity.SaveProgressNetEffect` | app/src/main/java/com/example/brightkids/DrawingActivity.kt:267-290 | id 0: no change; stars > 0: row becomes (id, 1, stars); no stars: a new row ends at (id, 2, 0), an existing one gains a practice |
| `Activity.SaveProgressForgetsBestRating` | app/src/main/java/com/example/brightkids/DrawingActivity.kt:278-289 | a row (5, 7, 3) becomes (5, 1, 1) after a one-star attempt |
| `Activity.SaveBestProgress` | app/src/main/java/com/example/brightkids/DrawingActivity.kt:270-283 | saveProgress without its final row replacement; all other rows are kept |
| `Activity.SaveBestProgressKeepsBest` | app/src/main/java/com/example/brightkids/DrawingActivity.kt:270-283 | an existing row gains one practice and its stars become the larger of old and new; a new row gets (id, 2, stars); a starred attempt leaves at least one star |
| `Activity.SaveBestProgressOnBetterRow` | app/src/main/java/com/example/brightkids/DrawingActivity.kt:278-289 | on a row (5, 7, 3) a one-star attempt gives (5, 8, 3) with the best kept, and (5, 1, 1) as written |
| `Activity.SaveProgressKeepsCompleted` | app/src/main/java/com/example/brightkids/DrawingActivity.kt:279-289 | starred letters stay starred, a starred attempt stars its letter, the completed count never decreases |
| `Activity.DrawingActivity.constructor` | app/src/main/java/com/example/brightkids/DrawingActivity.kt:31-51 | absent extras default to "A", "french" and id 0; the letter is set on the view |
| `Activity.DrawingActivity.SaveProgress` | app/src/main/java/com/example/brightkids/DrawingActivity.kt:267-290 | the progress table becomes `SaveProgressEffect` of it, issued statement by statement |
| `Activity.DrawingActivity.OnDrawingComplete` | app/src/main/java/com/example/brightkids/DrawingActivity.kt:72-77 | the dialog and the save both get stars = getStarsFromScore(score) |
| `Activity.DrawingActivity.CheckRuns` | app/src/main/java/com/example/brightkids/DrawingActivity.kt:72-77 | a firing check shows the dialog and saves progress for its score; a silent one changes no table |
| `Activity.DrawingActivity.ClearDrawing` | app/src/main/java/com/example/brightkids/DrawingActivity.kt:55-59 | the clear and restart buttons clear the view |

## Findings

| source | as written | input that shows it | evidently intended | confidence | as-written member | corrected member |
|---|---|---|---|---|---|---|
| app/src/main/java/com/example/brightkids/DrawingActivity.kt:287-289 | after `updateStarsIfBetter`, `insertProgress` replaces the whole row with (id, 1, stars) | stored row (5, 7, 3), a one-star attempt: the row becomes (5, 1, 1) | keep the best rating and the practice count, as the comment at line 278 says: (5, 8, 3) | medium; not executed | `Activity.SaveProgressForgetsBestRating` | `Activity.SaveBestProgressKeepsBest` |
| app/src/main/java/com/example/brightkids/view/DrawingView.kt:98-107 | the check fires whenever a session is open, even after later strokes | down, up, down, up within 1.5 s: scored at the first check with 2 points | wait for the user to stop drawing, as the comment at line 107 says, and score all 4 points at the last stroke's check | medium; not executed | `Tracing.TwoStrokesScoredOnFirstStroke` | `Tracing.TwoStrokesScoredOnLastStroke` |

## Left out

- Rendering: paints, colours, stroke widths, glyph size and centring, `onDraw`, `invalidate` and `setDrawColor`. The bitmap is only its guide glyph and stroke list, and points are kept as reals.
- `Scoring.CalculateScore`: IEEE float rounding is not modelled. Integer quotients stand in for the float products (see above). `touchPointCount` is unbounded, so its 32-bit wrap-around after 2^31 events is not modelled either.
- `Tracing.DrawingView.Up`: requires a sized view, because pointer-up draws on the bitmap, which exists only after the first size change. The model does not say what pointer-up does before that. Pointer-down and move do not touch the bitmap, so they are modelled on any view.
- `Tracing.DrawingView.Settle`: requires a queued check, since only a posted check can run. Real time is not modelled: the clock readings are parameters, and nothing forces a check to run 1500 ms after its pointer-up.
- Touch actions other than down, move and up (cancel, multi-touch) fall through the `when` without effect and are not events of the model.
- The completion callback is taken as installed, as `setupScoreTracking` does in `onCreate`; the null-callback case is not modelled.
- `Activity.DrawingActivity.SaveProgress`: runs as one sequential update. The coroutine on the I/O dispatcher and the exception fallback are not modelled, since exceptions come only from storage I/O.
- `Activity.DrawingActivity.OnDrawingComplete`: returns what the dialog shows; the dialog window, star animations and their timings are not modelled.
- Text-to-speech, intents and navigation: `speakLetter`, `navigateToNextLetter`, `onBackPressed` and the dialog buttons' navigation. The next letter itself is `Activity.GetNextLetter`.
- Room and LiveData machinery, and the `AppDatabase` singleton. SQL result lists are modelled as sets, because the queries have no ORDER BY.
- `Dao.InsertLetterRow`: the id that auto-generation picks for a letter with id 0 is a parameter, required fresh and positive. How SQLite chooses it is not modelled.
- Practice counts are unbounded integers, with no 64-bit limit.
