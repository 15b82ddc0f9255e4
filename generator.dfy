/**
 * Building a quiz from the vocabulary: the cumulative, weighted word pool of
 * a level, the Fisher-Yates shuffle, the wrong answers offered beside the
 * correct one, and the answer options of a question.
 *
 * Randomness is a parameter. A shuffle takes a `draw: nat -> nat`; at loop
 * index i it swaps with position draw(i) % (i + 1). That covers exactly the
 * positions 0..i that `Math.floor(Math.random() * (i + 1))` can produce, so
 * every permutation the page can produce is produced for some `draw`.
 */
module Generator {
  import opened Optional

  /** One vocabulary item: a French word and its Korean translation. */
  datatype WordPair = WordPair(french: string, korean: string)

  /** One level of the vocabulary: its id, theme and words. */
  datatype Level = Level(level: int, theme: string, words: seq<WordPair>)

  /** The most questions one quiz asks. */
  const QuestionLimit: nat := 50

  /** How many times more the chosen level's own words are added to the pool. */
  const ExtraCopies: nat := 2

  /** The most wrong answers offered with a question. */
  const WrongAnswerLimit: nat := 3

  function Min(a: nat, b: nat): nat {
    if a <= b then a else b
  }

  /** `levels.find(l => l.level === id)`: the first level with that id. */
  function FindLevel(levels: seq<Level>, id: int): (found: Option<Level>)
    ensures found.None? <==> forall i :: 0 <= i < |levels| ==> levels[i].level != id
    ensures found.Some? ==> found.value in levels && found.value.level == id
    ensures found.Some? ==> exists i :: 0 <= i < |levels| && levels[i] == found.value
                                        && forall k :: 0 <= k < i ==> levels[k].level != id
  {
    if levels == [] then None
    else if levels[0].level == id then Some(levels[0])
    else
      var rest := FindLevel(levels[1..], id);
      assert rest.Some? ==> exists i :: 1 <= i < |levels| && levels[i] == rest.value
                                        && forall k :: 0 <= k < i ==> levels[k].level != id by {
        if rest.Some? {
          var i :| 0 <= i < |levels[1..]| && levels[1..][i] == rest.value
                   && forall k :: 0 <= k < i ==> levels[1..][k].level != id;
          assert levels[i + 1] == rest.value;
          assert forall k :: 0 <= k < i + 1 ==> levels[k].level != id by {
            forall k | 0 <= k < i + 1 ensures levels[k].level != id {
              if k > 0 { assert levels[k] == levels[1..][k - 1]; }
            }
          }
        }
      }
      rest
  }

  /** The words of a found level; none for a missing one. */
  function WordsOf(found: Option<Level>): seq<WordPair> {
    if found.Some? then found.value.words else []
  }

  /** The words of levels 1 to `n`, in level order; ids that no level has add nothing. */
  function CumulativeWords(levels: seq<Level>, n: int): (ws: seq<WordPair>)
    ensures forall w :: w in ws ==> exists l :: l in levels && 1 <= l.level <= n && w in l.words
    decreases n
  {
    if n < 1 then []
    else
      var before := CumulativeWords(levels, n - 1);
      var found := FindLevel(levels, n);
      assert forall w :: w in WordsOf(found) ==> exists l :: l in levels && 1 <= l.level <= n && w in l.words by {
        if found.Some? {
          assert found.value in levels && found.value.level == n;
        }
      }
      before + WordsOf(found)
  }

  /** `items` followed by `count` more copies of `extra`. */
  function WithCopies<T>(items: seq<T>, extra: seq<T>, count: nat): seq<T>
    decreases count
  {
    if count == 0 then items else WithCopies(items, extra, count - 1) + extra
  }

  /**
   * The pool of a quiz on level `n`: the words of levels 1 to `n`, then the
   * level's own words two more times.
   */
  function QuizPool(levels: seq<Level>, n: int): seq<WordPair> {
    WithCopies(CumulativeWords(levels, n), WordsOf(FindLevel(levels, n)), ExtraCopies)
  }

  /**
   * The chosen level's words weigh three times in the pool, the words of the
   * levels below it once.
   */
  lemma PoolWeighting(levels: seq<Level>, n: int)
    requires n >= 1 && FindLevel(levels, n).Some?
    ensures var own := multiset(FindLevel(levels, n).value.words);
      multiset(QuizPool(levels, n)) == multiset(CumulativeWords(levels, n - 1)) + own + own + own
  {
  }

  /** Every word of the pool belongs to a level whose id is at most `n`. */
  lemma {:induction false} PoolFromLevelsUpTo(levels: seq<Level>, n: int, w: WordPair)
    requires w in QuizPool(levels, n)
    ensures exists l :: l in levels && l.level <= n && w in l.words
  {
    var found := FindLevel(levels, n);
    var base := CumulativeWords(levels, n);
    assert QuizPool(levels, n) == base + WordsOf(found) + WordsOf(found);
    if w !in base {
      assert found.Some? && found.value in levels && w in found.value.words;
    }
  }

  /** The pool as `startQuiz` builds it: one push loop over levels 1 to n, one for the two extra copies. */
  method BuildPool(levels: seq<Level>, levelNumber: int, target: Level) returns (pool: seq<WordPair>)
    requires FindLevel(levels, levelNumber) == Some(target)
    ensures pool == QuizPool(levels, levelNumber)
  {
    pool := [];
    var i := 1;
    while i <= levelNumber
      invariant 1 <= i <= if levelNumber >= 1 then levelNumber + 1 else 1
      invariant pool == CumulativeWords(levels, i - 1)
    {
      var level := FindLevel(levels, i);
      if level.Some? {
        pool := pool + level.value.words;
      }
      i := i + 1;
    }
    if levelNumber < 1 {
      assert CumulativeWords(levels, levelNumber) == [] == CumulativeWords(levels, 0);
    }
    var k := 0;
    while k < ExtraCopies
      invariant 0 <= k <= ExtraCopies
      invariant pool == WithCopies(CumulativeWords(levels, levelNumber), target.words, k)
    {
      pool := pool + target.words;
      k := k + 1;
    }
  }

  /**
   * `shuffleArray`: a Fisher-Yates shuffle of a copy of `items`, from the last
   * position down to position 1. The result is a permutation of `items`.
   */
  method ShuffleArray<T>(items: seq<T>, draw: nat -> nat) returns (shuffled: seq<T>)
    ensures |shuffled| == |items|
    ensures multiset(shuffled) == multiset(items)
  {
    var a := new T[|items|](k requires 0 <= k < |items| => items[k]);
    assert a[..] == items;
    var i := a.Length - 1;
    while i > 0
      invariant -1 <= i < a.Length
      invariant multiset(a[..]) == multiset(items)
    {
      var j := draw(i) % (i + 1);
      a[i], a[j] := a[j], a[i];
      i := i - 1;
    }
    shuffled := a[..];
  }

  /** The first `n` elements, or all of them when there are fewer: `slice(0, n)`. */
  function Take<T>(s: seq<T>, n: nat): (r: seq<T>)
    ensures |r| == Min(n, |s|)
    ensures r <= s
    ensures multiset(r) <= multiset(s)
  {
    var r := s[..Min(n, |s|)];
    assert s == r + s[Min(n, |s|)..];
    r
  }

  /** `levels.flatMap(level => level.words)`. */
  function AllWords(levels: seq<Level>): seq<WordPair> {
    if levels == [] then [] else levels[0].words + AllWords(levels[1..])
  }

  /** `words.map(word => word.korean)`. */
  function Translations(words: seq<WordPair>): (r: seq<string>)
    ensures |r| == |words|
    ensures forall i :: 0 <= i < |r| ==> r[i] == words[i].korean
  {
    if words == [] then [] else [words[0].korean] + Translations(words[1..])
  }

  /**
   * `words.filter(word => word.korean !== correct).map(word => word.korean)`:
   * every translation that differs from `correct`, as often as it occurs.
   */
  function WrongCandidates(words: seq<WordPair>, correct: string): (r: seq<string>)
    ensures correct !in r
    ensures forall x :: x != correct ==> multiset(r)[x] == multiset(Translations(words))[x]
  {
    if words == [] then []
    else
      var rest := WrongCandidates(words[1..], correct);
      assert Translations(words) == [words[0].korean] + Translations(words[1..]);
      if words[0].korean != correct then [words[0].korean] + rest else rest
  }

  /**
   * `getWrongAnswers`: the wrong candidates from every level, shuffled, cut to
   * three. Fewer than three come back when fewer exist.
   */
  method GetWrongAnswers(levels: seq<Level>, correct: string, draw: nat -> nat) returns (wrong: seq<string>)
    ensures |wrong| == Min(WrongAnswerLimit, |WrongCandidates(AllWords(levels), correct)|)
    ensures correct !in wrong
    ensures multiset(wrong) <= multiset(WrongCandidates(AllWords(levels), correct))
    ensures forall x :: x in wrong ==> x in Translations(AllWords(levels))
  {
    var candidates := WrongCandidates(AllWords(levels), correct);
    var shuffled := ShuffleArray(candidates, draw);
    wrong := Take(shuffled, WrongAnswerLimit);
    assert multiset(candidates)[correct] == 0;
    assert multiset(wrong)[correct] == 0;
    forall x | x in wrong ensures x in Translations(AllWords(levels)) {
      assert multiset(wrong)[x] > 0;
      assert multiset(candidates)[x] > 0;
    }
  }

  /**
   * The options of a question on `word`: its translation and the wrong
   * answers, shuffled together. The correct answer is among them exactly
   * once, and every other option is the translation of some word.
   */
  method BuildAnswerOptions(levels: seq<Level>, word: WordPair, wrongDraw: nat -> nat, optionDraw: nat -> nat)
    returns (options: seq<string>)
    ensures |options| == 1 + Min(WrongAnswerLimit, |WrongCandidates(AllWords(levels), word.korean)|)
    ensures |options| <= 4
    ensures multiset(options)[word.korean] == 1
    ensures forall x :: x in options && x != word.korean ==> x in Translations(AllWords(levels))
  {
    var wrong := GetWrongAnswers(levels, word.korean, wrongDraw);
    options := ShuffleArray([word.korean] + wrong, optionDraw);
    assert multiset([word.korean] + wrong) == multiset{word.korean} + multiset(wrong);
    forall x | x in options && x != word.korean ensures x in Translations(AllWords(levels)) {
      assert multiset(options)[x] > 0;
      assert x in wrong;
    }
  }

  /**
   * The questions of a quiz on level `levelNumber` (found as `target`): the
   * pool shuffled and cut to 50 questions.
   */
  method BuildQuiz(levels: seq<Level>, levelNumber: int, target: Level, draw: nat -> nat)
    returns (quiz: seq<WordPair>)
    requires FindLevel(levels, levelNumber) == Some(target)
    ensures |quiz| == Min(QuestionLimit, |QuizPool(levels, levelNumber)|)
    ensures multiset(quiz) <= multiset(QuizPool(levels, levelNumber))
    ensures forall w :: w in quiz ==> exists l :: l in levels && l.level <= levelNumber && w in l.words
  {
    var pool := BuildPool(levels, levelNumber, target);
    var shuffled := ShuffleArray(pool, draw);
    quiz := Take(shuffled, QuestionLimit);
    forall w | w in quiz ensures exists l :: l in levels && l.level <= levelNumber && w in l.words {
      assert multiset(quiz)[w] > 0;
      assert multiset(pool)[w] > 0;
      PoolFromLevelsUpTo(levels, levelNumber, w);
    }
  }
}
