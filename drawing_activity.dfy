/** The tracing screen (DrawingActivity.kt): the built-in letter lists and the "next
    letter" lookup, the score dialog's contents, the progress update made after each
    scored attempt, and the wiring from the tracing view's callback to both. */
module Activity {
  import opened Model
  import opened Scoring
  import opened Dao
  import Tracing

  /** The ids of `letters` are 1, 2, ..., |letters|, in order. */
  predicate ConsecutiveIds(letters: seq<Letter>)
  {
    forall i :: 0 <= i < |letters| ==> letters[i].id == i + 1
  }

  function ArabicLetters(): (letters: seq<Letter>)
    ensures |letters| == 28 && ConsecutiveIds(letters)
    ensures forall i :: 0 <= i < |letters| ==> letters[i].language == "arabic"
  {
    [ MakeLetter(1, "ا", "Alif", "arabic"), MakeLetter(2, "ب", "Ba", "arabic"),
      MakeLetter(3, "ت", "Ta", "arabic"), MakeLetter(4, "ث", "Tha", "arabic"),
      MakeLetter(5, "ج", "Jim", "arabic"), MakeLetter(6, "ح", "Ha", "arabic"),
      MakeLetter(7, "خ", "Kha", "arabic"), MakeLetter(8, "د", "Dal", "arabic"),
      MakeLetter(9, "ذ", "Dhal", "arabic"), MakeLetter(10, "ر", "Ra", "arabic"),
      MakeLetter(11, "ز", "Zay", "arabic"), MakeLetter(12, "س", "Sin", "arabic"),
      MakeLetter(13, "ش", "Shin", "arabic"), MakeLetter(14, "ص", "Sad", "arabic"),
      MakeLetter(15, "ض", "Dad", "arabic"), MakeLetter(16, "ط", "Ta", "arabic"),
      MakeLetter(17, "ظ", "Za", "arabic"), MakeLetter(18, "ع", "Ain", "arabic"),
      MakeLetter(19, "غ", "Ghain", "arabic"), MakeLetter(20, "ف", "Fa", "arabic"),
      MakeLetter(21, "ق", "Qaf", "arabic"), MakeLetter(22, "ك", "Kaf", "arabic"),
      MakeLetter(23, "ل", "Lam", "arabic"), MakeLetter(24, "م", "Mim", "arabic"),
      MakeLetter(25, "ن", "Nun", "arabic"), MakeLetter(26, "ه", "Ha", "arabic"),
      MakeLetter(27, "و", "Waw", "arabic"), MakeLetter(28, "ي", "Ya", "arabic") ]
  }

  function FrenchLetters(): (letters: seq<Letter>)
    ensures |letters| == 26 && ConsecutiveIds(letters)
    ensures forall i :: 0 <= i < |letters| ==> letters[i].language == "french"
  {
    [ MakeLetter(1, "A", "A", "french"), MakeLetter(2, "B", "Bé", "french"),
      MakeLetter(3, "C", "Cé", "french"), MakeLetter(4, "D", "Dé", "french"),
      MakeLetter(5, "E", "E", "french"), MakeLetter(6, "F", "Effe", "french"),
      MakeLetter(7, "G", "Gé", "french"), MakeLetter(8, "H", "Hache", "french"),
      MakeLetter(9, "I", "I", "french"), MakeLetter(10, "J", "Ji", "french"),
      MakeLetter(11, "K", "Ka", "french"), MakeLetter(12, "L", "Elle", "french"),
      MakeLetter(13, "M", "Emm", "french"), MakeLetter(14, "N", "Enn", "french"),
      MakeLetter(15, "O", "O", "french"), MakeLetter(16, "P", "Pé", "french"),
      MakeLetter(17, "Q", "Qu", "french"), MakeLetter(18, "R", "Erre", "french"),
      MakeLetter(19, "S", "Ess", "french"), MakeLetter(20, "T", "Té", "french"),
      MakeLetter(21, "U", "U", "french"), MakeLetter(22, "V", "Vé", "french"),
      MakeLetter(23, "W", "Double vé", "french"), MakeLetter(24, "X", "Ixe", "french"),
      MakeLetter(25, "Y", "I grec", "french"), MakeLetter(26, "Z", "Zède", "french") ]
  }

  /** The list the screen walks through: Arabic for "arabic", French for anything else. */
  function LettersFor(language: string): seq<Letter>
  {
    if language == "arabic" then ArabicLetters() else FrenchLetters()
  }

  /** Kotlin's indexOfFirst { it.id == id }: the first position holding `id`, or -1. */
  function IndexOfFirst(letters: seq<Letter>, id: int): (i: int)
    ensures -1 <= i < |letters|
    ensures 0 <= i ==> letters[i].id == id && forall j :: 0 <= j < i ==> letters[j].id != id
    ensures i == -1 <==> forall j :: 0 <= j < |letters| ==> letters[j].id != id
  {
    if letters == [] then -1
    else if letters[0].id == id then 0
    else
      var k := IndexOfFirst(letters[1..], id);
      if k < 0 then -1 else k + 1
  }

  /** The letter after the first one whose id is `id`; None when `id` is absent or is the
      last letter's. */
  function NextLetter(letters: seq<Letter>, id: int): (next: Option<Letter>)
    ensures (forall j :: 0 <= j < |letters| ==> letters[j].id != id) ==> next == None
    ensures forall i :: 0 <= i < |letters| && letters[i].id == id && (forall j :: 0 <= j < i ==> letters[j].id != id) ==>
      next == if i < |letters| - 1 then Some(letters[i + 1]) else None
  {
    var i := IndexOfFirst(letters, id);
    if 0 <= i < |letters| - 1 then Some(letters[i + 1]) else None
  }

  /** getNextLetter(), for the screen's language and letter id. */
  function GetNextLetter(language: string, letterId: int): (next: Option<Letter>)
    ensures next.Some? <==> 1 <= letterId < |LettersFor(language)|
    ensures next.Some? ==> next.value == LettersFor(language)[letterId] && next.value.id == letterId + 1
  {
    NextOfConsecutive(LettersFor(language), letterId);
    NextLetter(LettersFor(language), letterId)
  }

  /** In a list numbered 1..n, the letter after id k is the one numbered k + 1. */
  lemma NextOfConsecutive(letters: seq<Letter>, k: int)
    requires ConsecutiveIds(letters)
    ensures 1 <= k < |letters| ==> NextLetter(letters, k) == Some(letters[k]) && letters[k].id == k + 1
    ensures (k < 1 || |letters| <= k) ==> NextLetter(letters, k) == None
  {
    if 1 <= k <= |letters| {
      assert letters[k - 1].id == k;
    }
  }

  /** Both built-in lists: id k leads to id k + 1, and the default id 0, unknown ids and
      the last id lead nowhere. */
  lemma NextLetterInBuiltInLists(language: string, k: int)
    ensures var letters := LettersFor(language);
      && |letters| == (if language == "arabic" then 28 else 26)
      && (1 <= k < |letters| ==> GetNextLetter(language, k) == Some(letters[k]) && letters[k].id == k + 1)
      && ((k < 1 || |letters| <= k) ==> GetNextLetter(language, k) == None)
  {
    NextOfConsecutive(LettersFor(language), k);
  }

  /** `title` ends with a space and then exactly `n` stars, and has no star before them. */
  predicate RatedTitle(title: string, n: nat)
  {
    && n < |title| && title[|title| - n - 1] == ' '
    && (forall i :: |title| - n <= i < |title| ==> title[i] == '⭐')
    && (forall i :: 0 <= i < |title| - n ==> title[i] != '⭐')
  }

  /** getScoreMessages(stars, score): the dialog's title and message. */
  function ScoreMessages(stars: int): (m: (string, string))
    ensures 1 <= stars <= 3 ==> RatedTitle(m.0, stars)
    ensures !(1 <= stars <= 3) ==> m.0 != [] && m.0[|m.0| - 1] == '💪' && RatedTitle(m.0[..|m.0| - 1], 0)
  {
    match stars
    case 3 => ("Excellent ! ⭐⭐⭐", "Parfait ! Tu es incroyable !")
    case 2 => ("Très bien ! ⭐⭐", "Super travail ! Tu progresses bien !")
    case 1 => ("Bien joué ! ⭐", "Continue tes efforts, tu y es presque !")
    case _ => ("Continue ! 💪", "N'abandonne pas, tu peux y arriver !")
  }

  /** The four ratings get four different titles; anything else is shown as no star. */
  lemma ScoreMessagesByRating(a: int, b: int)
    ensures 0 <= a <= 3 && 0 <= b <= 3 && a != b ==> ScoreMessages(a).0 != ScoreMessages(b).0
    ensures (a < 0 || 3 < a) ==> ScoreMessages(a) == ScoreMessages(0)
  {
  }

  /** animateStars: slot `index` (0, 1, 2) shows an earned star when stars > index. */
  function EarnedSlots(stars: int): (slots: seq<bool>)
    ensures |slots| == 3
    ensures forall i, j :: 0 <= i < j < 3 && slots[j] ==> slots[i]
    ensures stars >= 3 ==> forall i :: 0 <= i < 3 ==> slots[i]
    ensures stars <= 0 ==> forall i :: 0 <= i < 3 ==> !slots[i]
  {
    seq(3, index => stars > index)
  }

  function CountEarned(slots: seq<bool>): nat
  {
    if slots == [] then 0 else (if slots[0] then 1 else 0) + CountEarned(slots[1..])
  }

  /** A rating of 0..3 lights exactly that many star slots, from the first one on. */
  lemma EarnedSlotsShowRating(stars: int)
    requires 0 <= stars <= 3
    ensures CountEarned(EarnedSlots(stars)) == stars
  {
    var slots := EarnedSlots(stars);
    assert slots[1..][1..][1..] == [];
    assert CountEarned(slots[1..][1..]) == if stars > 2 then 1 else 0;
    assert CountEarned(slots[1..]) == (if stars > 1 then 1 else 0) + (if stars > 2 then 1 else 0);
  }

  datatype ScoreDialog = ScoreDialog(score: int, stars: int, title: string, message: string, earned: seq<bool>)

  /** showScoreDialog(score, stars): what the dialog displays. */
  function ShowScoreDialog(score: int, stars: int): (d: ScoreDialog)
    ensures d.score == score && d.stars == stars
    ensures 0 <= stars <= 3 ==> CountEarned(d.earned) == stars && (stars > 0 ==> RatedTitle(d.title, stars))
  {
    assert 0 <= stars <= 3 ==> CountEarned(EarnedSlots(stars)) == stars by {
      if 0 <= stars <= 3 { EarnedSlotsShowRating(stars); }
    }
    var m := ScoreMessages(stars);
    ScoreDialog(score, stars, m.0, m.1, EarnedSlots(stars))
  }

  /** Kotlin's coerceAtLeast. */
  function AtLeast(v: int, floor: int): int
  {
    if v < floor then floor else v
  }

  /** The net effect of saveProgress(score, stars) on the progress table: the statements
      it issues, in order. */
  function SaveProgressEffect(t: ProgressTable, letterId: int, stars: int): (r: ProgressTable)
    ensures letterId != 0 ==> letterId in r
    ensures letterId != 0 && stars > 0 ==> r[letterId].stars >= 1
    ensures SameExcept(t, r, letterId)
    ensures ProgressKeyed(t) ==> ProgressKeyed(r)
  {
    if letterId == 0 then t
    else
      var ensured := InsertIfAbsent(t, letterId, stars);
      var practised := Incremented(ensured, letterId);
      if stars > 0 then
        Upsert(StarsRaised(practised, letterId, stars), LetterProgress(letterId, 1, AtLeast(stars, 1)))
      else practised
  }

  /** What the update sequence amounts to. No letter id: nothing. A starred attempt: the
      row becomes (id, 1, stars) whatever it held. An attempt without stars: a new row
      starts at practice count 2, an existing row gains one practice. Other rows are kept. */
  lemma SaveProgressNetEffect(t: ProgressTable, letterId: int, stars: int)
    ensures letterId == 0 ==> SaveProgressEffect(t, letterId, stars) == t
    ensures letterId != 0 && stars > 0 ==>
      SaveProgressEffect(t, letterId, stars) == t[letterId := LetterProgress(letterId, 1, stars)]
    ensures letterId != 0 && stars <= 0 && letterId !in t ==>
      SaveProgressEffect(t, letterId, stars) == t[letterId := LetterProgress(letterId, 2, stars)]
    ensures letterId != 0 && stars <= 0 && letterId in t ==>
      SaveProgressEffect(t, letterId, stars) == t[letterId := t[letterId].(practiceCount := t[letterId].practiceCount + 1)]
  {
    if letterId != 0 {
      var ensured := InsertIfAbsent(t, letterId, stars);
      var practised := Incremented(ensured, letterId);
      if stars > 0 {
        var r := SaveProgressEffect(t, letterId, stars);
        assert r == practised[letterId := LetterProgress(letterId, 1, stars)];
        assert r.Keys == t.Keys + {letterId};
      }
    }
  }

  /** Unlike what its comments say, the update does not keep the best rating: a row with
      three stars and seven practices becomes one with one star and one practice after a
      one-star attempt. */
  lemma SaveProgressForgetsBestRating()
    ensures var t := map[5 := LetterProgress(5, 7, 3)];
      SaveProgressEffect(t, 5, 1)[5] == LetterProgress(5, 1, 1)
  {
    SaveProgressNetEffect(map[5 := LetterProgress(5, 7, 3)], 5, 1);
  }

  /** saveProgress as its comments describe it ("keep best score"): the same statements
      without the final whole-row replacement. */
  function SaveBestProgress(t: ProgressTable, letterId: int, stars: int): (r: ProgressTable)
    ensures SameExcept(t, r, letterId)
    ensures ProgressKeyed(t) ==> ProgressKeyed(r)
  {
    if letterId == 0 then t
    else
      var practised := Incremented(InsertIfAbsent(t, letterId, stars), letterId);
      if stars > 0 then StarsRaised(practised, letterId, stars) else practised
  }

  /** The kept-best update: an existing row gains one practice and keeps the larger of its
      rating and the new one; a new row starts with this attempt's rating (and, through
      insert-then-increment, two practices). A starred attempt leaves at least one star. */
  lemma SaveBestProgressKeepsBest(t: ProgressTable, letterId: int, stars: int)
    requires letterId != 0
    ensures var r := SaveBestProgress(t, letterId, stars);
      && letterId in r
      && (letterId in t ==>
            && r[letterId].letterId == t[letterId].letterId
            && r[letterId].practiceCount == t[letterId].practiceCount + 1
            && r[letterId].stars == if 0 < stars && t[letterId].stars < stars then stars else t[letterId].stars)
      && (letterId !in t ==> r[letterId] == LetterProgress(letterId, 2, stars))
      && (stars > 0 ==> r[letterId].stars >= 1)
      && (letterId in t ==> t[letterId].stars <= r[letterId].stars)
  {
  }

  /** Where the two differ: on a row (5, 7, 3) a one-star attempt gives (5, 8, 3) with the
      best rating kept, and (5, 1, 1) with the update as written. */
  lemma SaveBestProgressOnBetterRow()
    ensures var t := map[5 := LetterProgress(5, 7, 3)];
      && SaveBestProgress(t, 5, 1)[5] == LetterProgress(5, 8, 3)
      && SaveProgressEffect(t, 5, 1)[5] == LetterProgress(5, 1, 1)
  {
    SaveProgressForgetsBestRating();
  }

  /** A completed letter (one with a star) stays completed, a starred attempt completes
      its letter, and so the number of completed letters never goes down. */
  lemma SaveProgressKeepsCompleted(t: ProgressTable, letterId: int, stars: int)
    ensures CompletedIds(t) <= CompletedIds(SaveProgressEffect(t, letterId, stars))
    ensures letterId != 0 && stars > 0 ==> letterId in CompletedIds(SaveProgressEffect(t, letterId, stars))
    ensures CompletedLettersCount(t) <= CompletedLettersCount(SaveProgressEffect(t, letterId, stars))
  {
    SaveProgressNetEffect(t, letterId, stars);
    var r := SaveProgressEffect(t, letterId, stars);
    assert CompletedIds(t) <= CompletedIds(r);
    SubsetCardinality(CompletedIds(t), CompletedIds(r));
  }

  /** The tracing screen, holding its view and the database handle. */
  class DrawingActivity {
    const view: Tracing.DrawingView
    const dao: LetterDao
    var language: string
    var letterId: int

    ghost predicate Valid()
      reads this, view, dao
    {
      view.Valid() && dao.Valid()
    }

    /** onCreate: reads the intent extras (absent ones take their defaults) and sets the
        guide letter on the view. */
    constructor (letterExtra: Option<string>, languageExtra: Option<string>, letterIdExtra: Option<int>,
                 view: Tracing.DrawingView, dao: LetterDao)
      requires view.Valid() && dao.Valid()
      modifies view
      ensures Valid() && this.view == view && this.dao == dao
      ensures language == if languageExtra.Some? then languageExtra.value else "french"
      ensures letterId == if letterIdExtra.Some? then letterIdExtra.value else 0
      ensures view.State() == Tracing.OnSetLetter(old(view.State()), if letterExtra.Some? then letterExtra.value else "A")
    {
      this.view := view;
      this.dao := dao;
      language := if languageExtra.Some? then languageExtra.value else "french";
      letterId := if letterIdExtra.Some? then letterIdExtra.value else 0;
      new;
      view.SetLetter(if letterExtra.Some? then letterExtra.value else "A");
    }

    /** saveProgress(score, stars), as one sequential update. */
    method SaveProgress(score: int, stars: int)
      requires Valid()
      modifies dao`progress
      ensures Valid()
      ensures dao.progress == SaveProgressEffect(old(dao.progress), letterId, stars)
    {
      if letterId == 0 {
        return;
      }
      dao.InsertProgressIfNotExists(letterId, stars);
      dao.IncrementPractice(letterId);
      if stars > 0 {
        dao.UpdateStarsIfBetter(letterId, stars);
        dao.InsertProgress(LetterProgress(letterId, 1, AtLeast(stars, 1)));
      }
    }

    /** The completion callback installed by setupScoreTracking: the same (score, stars)
        goes to the dialog and to the progress table. */
    method OnDrawingComplete(score: int, duration: int) returns (dialog: ScoreDialog)
      requires Valid()
      modifies dao`progress
      ensures Valid()
      ensures dialog == ShowScoreDialog(score, StarsFromScore(score))
      ensures dao.progress == SaveProgressEffect(old(dao.progress), letterId, StarsFromScore(score))
    {
      var stars := StarsFromScore(score);
      dialog := ShowScoreDialog(score, stars);
      SaveProgress(score, stars);
    }

    /** The view's oldest posted check runs at `now`; if it fires, the callback above runs. */
    method CheckRuns(now: int) returns (dialog: Option<ScoreDialog>)
      requires Valid() && view.pending != []
      modifies view, dao`progress
      ensures Valid()
      ensures view.State() == Tracing.OnSettle(old(view.State()), now)
      ensures dialog.Some? <==> old(view.isDrawing)
      ensures dialog.Some? ==>
        var score := CalculateScore(old(view.pending[0]), now - old(view.startTime));
        && dialog.value == ShowScoreDialog(score, StarsFromScore(score))
        && dao.progress == SaveProgressEffect(old(dao.progress), letterId, StarsFromScore(score))
      ensures dialog.None? ==> dao.progress == old(dao.progress)
    {
      var fired := view.Settle(now);
      if fired.Some? {
        var shown := OnDrawingComplete(fired.value.score, fired.value.duration);
        dialog := Some(shown);
      } else {
        dialog := None;
      }
    }

    /** The clear and restart buttons, and "try again" in the dialog: all clear the view. */
    method ClearDrawing()
      requires Valid()
      modifies view
      ensures Valid() && view.State() == Tracing.OnClear(old(view.State()))
    {
      view.Clear();
    }
  }
}
