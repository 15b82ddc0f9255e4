/**
 * The progress table: one record per level id, created lazily, updated once
 * per finished quiz, and the rules read from it (which level is locked, the
 * summary figures of the progress screen).
 */
module Progress {
  import opened Scoring

  /** What the page keeps about one level. */
  datatype LevelProgress = LevelProgress(completed: bool, bestScore: nat, attempts: nat, totalCorrect: nat)

  /** The whole table, keyed by level id: the unit that is saved and loaded. */
  type Table = map<int, LevelProgress>

  /** Levels that get a blank record when nothing was saved. */
  const LevelCount: nat := 20

  /** The number of questions the summary assumes for every attempt. */
  const QuestionsPerAttempt: nat := 50

  /** The record a level starts from: not completed, everything zero. */
  const Blank := LevelProgress(false, 0, 0, 0)

  /** The record of `level`, or the blank one that is created for it when missing. */
  function EntryOf(t: Table, level: int): LevelProgress {
    if level in t then t[level] else Blank
  }

  /** Blank records for levels 1 to `n`, and nothing else. */
  function BlankLevels(n: nat): (t: Table)
    ensures forall level :: level in t <==> 1 <= level <= n
    ensures forall level :: level in t ==> t[level] == Blank
  {
    if n == 0 then map[] else BlankLevels(n - 1)[n := Blank]
  }

  /** The table loaded when no progress was saved: levels 1 to 20, all blank. */
  function DefaultTable(): Table {
    BlankLevels(LevelCount)
  }

  /** One finished quiz with `score` correct answers folded into a level's record. */
  function Recorded(p: LevelProgress, score: nat, passed: bool): (q: LevelProgress)
    ensures q.attempts == p.attempts + 1
    ensures q.totalCorrect == p.totalCorrect + score
    ensures q.bestScore >= p.bestScore && q.bestScore >= score
    ensures q.bestScore == p.bestScore || q.bestScore == score
    ensures q.completed <==> p.completed || passed
  {
    var best := if score > p.bestScore then score else p.bestScore;
    LevelProgress(p.completed || passed, best, p.attempts + 1, p.totalCorrect + score)
  }

  /** The table after a finished quiz on `level`; no other level's record changes. */
  function RecordAttempt(t: Table, level: int, score: nat, passed: bool): (t': Table)
    ensures t'.Keys == t.Keys + {level}
    ensures forall k :: k in t && k != level ==> t'[k] == t[k]
    ensures t'[level].attempts == EntryOf(t, level).attempts + 1
    ensures t'[level].totalCorrect == EntryOf(t, level).totalCorrect + score
    ensures t'[level].bestScore == Max(EntryOf(t, level).bestScore, score)
    ensures t'[level].completed <==> EntryOf(t, level).completed || passed
  {
    t[level := Recorded(EntryOf(t, level), score, passed)]
  }

  function Max(a: nat, b: nat): nat {
    if a >= b then a else b
  }

  /** Whether the level card of `level` is locked. */
  function IsLocked(t: Table, level: int): (locked: bool)
    ensures locked <==> level > 1 && !EntryOf(t, level - 1).completed
    ensures level <= 1 ==> !locked
  {
    level > 1 && !(level - 1 in t && t[level - 1].completed)
  }

  /** With nothing saved, level 1 is the only open level. */
  lemma DefaultLocks(level: int)
    ensures IsLocked(DefaultTable(), level) <==> level > 1
  {
  }

  /** Recording an attempt never locks a level that was open. */
  lemma RecordKeepsUnlocked(t: Table, level: int, score: nat, passed: bool, other: int)
    requires !IsLocked(t, other)
    ensures !IsLocked(RecordAttempt(t, level, score, passed), other)
  {
  }

  /** A passed quiz on `level` opens `level + 1`. */
  lemma PassUnlocksNext(t: Table, level: int, score: nat)
    ensures !IsLocked(RecordAttempt(t, level, score, true), level + 1)
  {
  }

  /**
   * Worked examples on a fresh table, with 50 questions per quiz: 40 right
   * passes (80%); 30 right then 40 right passes on the second attempt; 20
   * right on level 2 (40%) does not pass.
   */
  lemma RecordExamples()
    ensures RecordAttempt(DefaultTable(), 1, 40, IsPass(PercentageOf(40, 50)))[1] == LevelProgress(true, 40, 1, 40)
    ensures var once := RecordAttempt(DefaultTable(), 1, 30, IsPass(PercentageOf(30, 50)));
      RecordAttempt(once, 1, 40, IsPass(PercentageOf(40, 50)))[1] == LevelProgress(true, 40, 2, 70)
    ensures RecordAttempt(DefaultTable(), 2, 20, IsPass(PercentageOf(20, 50)))[2] == LevelProgress(false, 20, 1, 20)
  {
  }

  // ---------------------------------------------------------------------------
  // Summary figures, summed over every record of the table

  /** The three quantities the summary adds up over all records. */
  datatype Measure = CompletedLevels | CorrectAnswers | Attempts

  function MeasureOf(p: LevelProgress, m: Measure): nat {
    match m
    case CompletedLevels => if p.completed then 1 else 0
    case CorrectAnswers => p.totalCorrect
    case Attempts => p.attempts
  }

  /** The sum of `m` over the records of `keys`, in no particular order. */
  ghost function TotalOver(t: Table, keys: set<int>, m: Measure): nat
    requires keys <= t.Keys
    decreases keys
  {
    if keys == {} then 0
    else
      HasElement(keys);
      var k :| k in keys;
      MeasureOf(t[k], m) + TotalOver(t, keys - {k}, m)
  }

  lemma HasElement(keys: set<int>)
    requires keys != {}
    ensures exists k :: k in keys
  {
    if forall k :: k !in keys {
      assert false;
    }
  }

  /** The sum of `m` over all records of the table. */
  ghost function Total(t: Table, m: Measure): nat {
    TotalOver(t, t.Keys, m)
  }

  /** Any one record can be taken out of a sum first. */
  lemma {:induction false} TotalOverRemove(t: Table, keys: set<int>, k: int, m: Measure)
    requires keys <= t.Keys && k in keys
    ensures TotalOver(t, keys, m) == MeasureOf(t[k], m) + TotalOver(t, keys - {k}, m)
    decreases keys
  {
    var j :| j in keys && TotalOver(t, keys, m) == MeasureOf(t[j], m) + TotalOver(t, keys - {j}, m);
    if j != k {
      TotalOverRemove(t, keys - {j}, k, m);
      TotalOverRemove(t, keys - {k}, j, m);
      assert keys - {j} - {k} == keys - {k} - {j};
    }
  }

  /** A sum reads only the records of its keys. */
  lemma {:induction false} TotalOverAgree(t: Table, t': Table, keys: set<int>, m: Measure)
    requires keys <= t.Keys && keys <= t'.Keys
    requires forall k :: k in keys ==> t[k] == t'[k]
    ensures TotalOver(t, keys, m) == TotalOver(t', keys, m)
    decreases keys
  {
    if keys != {} {
      HasElement(keys);
      var k :| k in keys && TotalOver(t, keys, m) == MeasureOf(t[k], m) + TotalOver(t, keys - {k}, m);
      TotalOverRemove(t', keys, k, m);
      TotalOverAgree(t, t', keys - {k}, m);
    }
  }

  /** Summing over blank records gives zero. */
  lemma {:induction false} TotalOverBlank(t: Table, keys: set<int>, m: Measure)
    requires keys <= t.Keys
    requires forall k :: k in keys ==> t[k] == Blank
    ensures TotalOver(t, keys, m) == 0
    decreases keys
  {
    if keys != {} {
      HasElement(keys);
      var k :| k in keys && TotalOver(t, keys, m) == MeasureOf(t[k], m) + TotalOver(t, keys - {k}, m);
      TotalOverBlank(t, keys - {k}, m);
    }
  }

  /** How a recorded attempt moves each sum: only the recorded level's share changes. */
  lemma RecordAttemptTotal(t: Table, level: int, score: nat, passed: bool, m: Measure)
    ensures Total(RecordAttempt(t, level, score, passed), m)
         == Total(t, m) - MeasureOf(EntryOf(t, level), m) + MeasureOf(RecordAttempt(t, level, score, passed)[level], m)
  {
    var t' := RecordAttempt(t, level, score, passed);
    var rest := t.Keys - {level};
    TotalOverRemove(t', t'.Keys, level, m);
    assert t'.Keys - {level} == rest;
    TotalOverAgree(t, t', rest, m);
    if level in t {
      TotalOverRemove(t, t.Keys, level, m);
    } else {
      assert t.Keys == rest;
    }
  }

  /**
   * After a finished quiz on `level`: one more attempt in all, `score` more
   * correct answers, and one more completed level exactly when this quiz
   * passed a level that was not completed before.
   */
  lemma RecordAttemptTotals(t: Table, level: int, score: nat, passed: bool)
    ensures Total(RecordAttempt(t, level, score, passed), Attempts) == Total(t, Attempts) + 1
    ensures Total(RecordAttempt(t, level, score, passed), CorrectAnswers) == Total(t, CorrectAnswers) + score
    ensures Total(RecordAttempt(t, level, score, passed), CompletedLevels)
         == Total(t, CompletedLevels) + (if passed && !EntryOf(t, level).completed then 1 else 0)
  {
    RecordAttemptTotal(t, level, score, passed, Attempts);
    RecordAttemptTotal(t, level, score, passed, CorrectAnswers);
    RecordAttemptTotal(t, level, score, passed, CompletedLevels);
  }

  /** The figures of the home and progress screens. */
  datatype Summary = Summary(completedLevels: nat, totalCorrect: nat, averageScore: nat, overallPercentage: nat)

  /**
   * The summary: completed levels, correct answers over all attempts, the
   * average score as a rounded percentage of 50 questions per attempt (0 before
   * any attempt), and the completed levels as a rounded percentage of 20.
   */
  ghost function Summarize(t: Table): (s: Summary)
    ensures s.completedLevels == Total(t, CompletedLevels)
    ensures s.totalCorrect == Total(t, CorrectAnswers)
    ensures Total(t, Attempts) == 0 ==> s.averageScore == 0
    // with attempts, the average is the nearest integer to 100 * correct / (50 * attempts)
    ensures var whole := Total(t, Attempts) * QuestionsPerAttempt;
      whole > 0 ==> (2 * s.averageScore - 1) * whole <= 200 * s.totalCorrect < (2 * s.averageScore + 1) * whole
    // the overall percentage is the nearest integer to 100 * completed / 20
    ensures (2 * s.overallPercentage - 1) * LevelCount <= 200 * s.completedLevels
                                                       < (2 * s.overallPercentage + 1) * LevelCount
    ensures s.completedLevels <= LevelCount ==> s.overallPercentage <= 100
  {
    var completed := Total(t, CompletedLevels);
    var correct := Total(t, CorrectAnswers);
    var attempts := Total(t, Attempts);
    Summary(completed, correct,
            if attempts > 0 then RoundedPercent(correct, attempts * QuestionsPerAttempt) else 0,
            RoundedPercent(completed, LevelCount))
  }

  /** With nothing saved, every figure of the summary is zero. */
  lemma DefaultSummary()
    ensures Summarize(DefaultTable()) == Summary(0, 0, 0, 0)
  {
    var t := DefaultTable();
    TotalOverBlank(t, t.Keys, CompletedLevels);
    TotalOverBlank(t, t.Keys, CorrectAnswers);
    TotalOverBlank(t, t.Keys, Attempts);
  }

  // ---------------------------------------------------------------------------
  // One level's record over a history of attempts

  /** A finished quiz as it reaches the table: its score and whether it passed. */
  datatype Attempt = Attempt(score: nat, passed: bool)

  /** `p` after recording every attempt of `h`, oldest first. */
  function Replay(p: LevelProgress, h: seq<Attempt>): LevelProgress
    decreases |h|
  {
    if h == [] then p
    else
      var last := h[|h| - 1];
      Recorded(Replay(p, h[..|h| - 1]), last.score, last.passed)
  }

  function ScoreSum(h: seq<Attempt>): nat
    decreases |h|
  {
    if h == [] then 0 else ScoreSum(h[..|h| - 1]) + h[|h| - 1].score
  }

  /**
   * A level's record after any history of attempts: it counts them, adds
   * their scores, is completed exactly when one of them passed, and its best
   * score is the highest score of the history (0 before any attempt).
   */
  lemma {:induction false} ReplayFromBlank(h: seq<Attempt>)
    ensures Replay(Blank, h).attempts == |h|
    ensures Replay(Blank, h).totalCorrect == ScoreSum(h)
    ensures Replay(Blank, h).completed <==> exists i :: 0 <= i < |h| && h[i].passed
    ensures forall i :: 0 <= i < |h| ==> h[i].score <= Replay(Blank, h).bestScore
    ensures Replay(Blank, h).bestScore == 0 || exists i :: 0 <= i < |h| && h[i].score == Replay(Blank, h).bestScore
  {
    if h != [] {
      var init := h[..|h| - 1];
      ReplayFromBlank(init);
      assert forall i :: 0 <= i < |init| ==> init[i] == h[i];
      var before := Replay(Blank, init);
      var last := |h| - 1;
      if before.completed {
        var i :| 0 <= i < |init| && init[i].passed;
        assert h[i].passed;
      }
      if Replay(Blank, h).bestScore != h[last].score && before.bestScore != 0 {
        var i :| 0 <= i < |init| && init[i].score == before.bestScore;
        assert h[i].score == Replay(Blank, h).bestScore;
      }
    }
  }

  /**
   * Along any history, later records never have a lower best score, never
   * lose completion, and count exactly the attempts in between.
   */
  lemma {:induction false} ReplayMonotone(p: LevelProgress, h: seq<Attempt>, i: nat, j: nat)
    requires i <= j <= |h|
    ensures Replay(p, h[..i]).bestScore <= Replay(p, h[..j]).bestScore
    ensures Replay(p, h[..i]).completed ==> Replay(p, h[..j]).completed
    ensures Replay(p, h[..j]).attempts == Replay(p, h[..i]).attempts + (j - i)
    decreases j
  {
    if i < j {
      ReplayMonotone(p, h, i, j - 1);
      assert h[..j][..j - 1] == h[..j - 1];
    }
  }
}
