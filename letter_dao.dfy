/** The queries of database/LetterDao.kt, over two in-memory tables keyed by their
    primary keys: `letters` by `id` and `progress` by `letterId`.

    Each UPDATE/INSERT statement is a function from the old table to the new one, and a
    method of the class LetterDao that replaces its table field by that function's result.
    The SELECT statements are functions of the tables. Result lists are modelled as sets
    of rows: the queries have no ORDER BY, so their order is not specified. */
module Dao {
  import opened Model

  type ProgressTable = map<int, LetterProgress>
  type LetterTable = map<int, Letter>

  /** Every row is stored under its own primary key. */
  predicate ProgressKeyed(t: ProgressTable)
  {
    forall k :: k in t ==> t[k].letterId == k
  }

  predicate LettersKeyed(t: LetterTable)
  {
    forall k :: k in t ==> t[k].id == k
  }

  /** `r` and `t` hold the same rows under every key except `id`. */
  ghost predicate SameExcept(t: ProgressTable, r: ProgressTable, id: int)
  {
    forall k :: k != id ==> (k in r <==> k in t) && (k in t ==> r[k] == t[k])
  }

  /** INSERT OR REPLACE of a whole row (insertProgress). */
  function Upsert(t: ProgressTable, p: LetterProgress): (r: ProgressTable)
    ensures p.letterId in r && r[p.letterId] == p
    ensures SameExcept(t, r, p.letterId)
    ensures ProgressKeyed(t) ==> ProgressKeyed(r)
  {
    t[p.letterId := p]
  }

  /** INSERT OR IGNORE INTO progress VALUES (id, 1, stars) (insertProgressIfNotExists). */
  function InsertIfAbsent(t: ProgressTable, id: int, stars: int): (r: ProgressTable)
    ensures id in r
    ensures id in t ==> r[id] == t[id]
    ensures id !in t ==> r[id] == LetterProgress(id, 1, stars)
    ensures SameExcept(t, r, id)
    ensures ProgressKeyed(t) ==> ProgressKeyed(r)
  {
    if id in t then t else t[id := LetterProgress(id, 1, stars)]
  }

  /** UPDATE progress SET practiceCount = practiceCount + 1 WHERE letterId = id. */
  function Incremented(t: ProgressTable, id: int): (r: ProgressTable)
    ensures r.Keys == t.Keys
    ensures id in t ==> r[id] == t[id].(practiceCount := t[id].practiceCount + 1)
    ensures SameExcept(t, r, id)
    ensures ProgressKeyed(t) ==> ProgressKeyed(r)
  {
    if id in t then t[id := t[id].(practiceCount := t[id].practiceCount + 1)] else t
  }

  /** UPDATE progress SET stars = s WHERE letterId = id AND stars < s. */
  function StarsRaised(t: ProgressTable, id: int, stars: int): (r: ProgressTable)
    ensures r.Keys == t.Keys
    ensures id in t ==> r[id].letterId == t[id].letterId && r[id].practiceCount == t[id].practiceCount
    ensures id in t ==> r[id].stars == if t[id].stars < stars then stars else t[id].stars
    ensures SameExcept(t, r, id)
    ensures ProgressKeyed(t) ==> ProgressKeyed(r)
  {
    if id in t && t[id].stars < stars then t[id := t[id].(stars := stars)] else t
  }

  /** UPDATE progress SET stars = s WHERE letterId = id. */
  function StarsSet(t: ProgressTable, id: int, stars: int): (r: ProgressTable)
    ensures r.Keys == t.Keys
    ensures id in t ==> r[id] == t[id].(stars := stars)
    ensures SameExcept(t, r, id)
    ensures ProgressKeyed(t) ==> ProgressKeyed(r)
  {
    if id in t then t[id := t[id].(stars := stars)] else t
  }

  /** updateStarsIfBetter never lowers a stored rating. */
  lemma StarsRaisedNeverLowers(t: ProgressTable, id: int, stars: int)
    ensures forall k :: k in t ==> t[k].stars <= StarsRaised(t, id, stars)[k].stars
  {
  }

  /** updateStarsIfBetter twice has the effect of once. */
  lemma StarsRaisedIdempotent(t: ProgressTable, id: int, stars: int)
    ensures StarsRaised(StarsRaised(t, id, stars), id, stars) == StarsRaised(t, id, stars)
  {
  }

  /** SELECT * FROM progress WHERE letterId = id. */
  function GetProgress(t: ProgressTable, id: int): (r: Option<LetterProgress>)
    ensures r.Some? <==> id in t
    ensures r.Some? ==> r.value == t[id]
  {
    if id in t then Some(t[id]) else None
  }

  /** SELECT * FROM progress. */
  function AllProgress(t: ProgressTable): (rows: set<LetterProgress>)
    requires ProgressKeyed(t)
    ensures forall p :: p in rows <==> p.letterId in t && t[p.letterId] == p
  {
    var rows := set k | k in t :: t[k];
    assert forall p: LetterProgress :: p.letterId in t && t[p.letterId] == p ==> p in rows by {
      forall p: LetterProgress | p.letterId in t && t[p.letterId] == p ensures p in rows {
        assert t[p.letterId] in rows;
      }
    }
    rows
  }

  /** The ids of the rows with at least one star. */
  function CompletedIds(t: ProgressTable): set<int>
  {
    set k | k in t && t[k].stars >= 1
  }

  lemma SubsetCardinality(a: set<int>, b: set<int>)
    requires a <= b
    ensures |a| <= |b|
  {
    assert b == a + (b - a);
  }

  /** SELECT COUNT(*) FROM progress WHERE stars >= 1. */
  function CompletedLettersCount(t: ProgressTable): (n: nat)
    ensures n <= |t|
    ensures n == 0 <==> forall k :: k in t ==> t[k].stars < 1
    ensures n == |t| <==> forall k :: k in t ==> t[k].stars >= 1
  {
    var done := CompletedIds(t);
    SubsetCardinality(done, t.Keys);
    assert (forall k :: k in t ==> t[k].stars >= 1) ==> done == t.Keys;
    assert done == t.Keys || |done| < |t| by {
      if done != t.Keys {
        var k :| k in t.Keys && k !in done;
        SubsetCardinality(done, t.Keys - {k});
      }
    }
    assert (exists k :: k in t && t[k].stars >= 1) ==> |done| > 0;
    |done|
  }

  /** SELECT * FROM progress WHERE letterId IN (ids). */
  function ProgressForLetters(t: ProgressTable, ids: seq<int>): (rows: set<LetterProgress>)
    requires ProgressKeyed(t)
    ensures forall p :: p in rows <==> p.letterId in ids && p.letterId in t && t[p.letterId] == p
  {
    set k | k in t && k in ids :: t[k]
  }

  /** SELECT * FROM letters WHERE language = l. */
  function LettersByLanguage(t: LetterTable, language: string): (rows: set<Letter>)
    requires LettersKeyed(t)
    ensures forall l :: l in rows <==> l.id in t && t[l.id] == l && l.language == language
  {
    var rows := set k | k in t && t[k].language == language :: t[k];
    assert forall l: Letter :: l.id in t && t[l.id] == l && l.language == language ==> l in rows by {
      forall l: Letter | l.id in t && t[l.id] == l && l.language == language ensures l in rows {
        assert t[l.id] in rows;
      }
    }
    rows
  }

  /** INSERT OR REPLACE INTO letters (insertLetter). The key is auto-generated: a row whose
      id is 0 is stored under the fresh id `newId` that the database picks. */
  function InsertLetterRow(t: LetterTable, l: Letter, newId: int): (r: LetterTable)
    requires l.id == 0 ==> newId > 0 && newId !in t
    ensures var key := if l.id == 0 then newId else l.id;
      && key in r && r[key] == l.(id := key)
      && r.Keys == t.Keys + {key}
      && forall k :: k in t && k != key ==> r[k] == t[k]
    ensures LettersKeyed(t) ==> LettersKeyed(r)
  {
    if l.id == 0 then t[newId := l.(id := newId)] else t[l.id := l]
  }

  /** The two tables, changed in place by the DAO's statements. */
  class LetterDao {
    var letters: LetterTable
    var progress: ProgressTable

    ghost predicate Valid()
      reads this
    {
      LettersKeyed(letters) && ProgressKeyed(progress)
    }

    constructor ()
      ensures Valid() && letters == map[] && progress == map[]
    {
      letters := map[];
      progress := map[];
    }

    method InsertLetter(letter: Letter, newId: int)
      requires Valid()
      requires letter.id == 0 ==> newId > 0 && newId !in letters
      modifies this`letters
      ensures Valid() && letters == InsertLetterRow(old(letters), letter, newId)
    {
      letters := InsertLetterRow(letters, letter, newId);
    }

    method InsertProgress(p: LetterProgress)
      requires Valid()
      modifies this`progress
      ensures Valid() && progress == Upsert(old(progress), p)
    {
      progress := progress[p.letterId := p];
    }

    method IncrementPractice(letterId: int)
      requires Valid()
      modifies this`progress
      ensures Valid() && progress == Incremented(old(progress), letterId)
    {
      if letterId in progress {
        var row := progress[letterId];
        progress := progress[letterId := row.(practiceCount := row.practiceCount + 1)];
      }
    }

    method UpdateStarsIfBetter(letterId: int, stars: int)
      requires Valid()
      modifies this`progress
      ensures Valid() && progress == StarsRaised(old(progress), letterId, stars)
    {
      if letterId in progress && progress[letterId].stars < stars {
        progress := progress[letterId := progress[letterId].(stars := stars)];
      }
    }

    method UpdateStars(letterId: int, stars: int)
      requires Valid()
      modifies this`progress
      ensures Valid() && progress == StarsSet(old(progress), letterId, stars)
    {
      if letterId in progress {
        progress := progress[letterId := progress[letterId].(stars := stars)];
      }
    }

    method InsertProgressIfNotExists(letterId: int, stars: int)
      requires Valid()
      modifies this`progress
      ensures Valid() && progress == InsertIfAbsent(old(progress), letterId, stars)
    {
      if letterId !in progress {
        progress := progress[letterId := LetterProgress(letterId, 1, stars)];
      }
    }
  }
}
