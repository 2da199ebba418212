/** The quiz session shared by the three quiz pages
    (src/app/learn/basics/{grape,region-appellation,vintage}/quiz/page.tsx).
    The pages are near-copies; `Variant` records how they differ:
    - Grape: `choose` and `next` unguarded, XP and progress persisted;
    - Region: `choose` ignored once done, `next` ignored until an answer is
      picked, XP and progress persisted;
    - Vintage: `choose` and `next` unguarded, no XP, nothing persisted, and
      `resetQuiz` reshuffles by bumping a seed. */
module Quiz {
  import opened Wrappers

  datatype Variant = Grape | Region | Vintage {
    /** Keeps `earnedXp` and writes progress on completion. */
    predicate TracksProgress() { this != Vintage }
    /** `choose` returns early when the quiz is done. */
    predicate ChooseGuardsDone() { this == Region }
    /** `next` returns early when no answer is picked. */
    predicate NextNeedsPick() { this == Region }
  }

  const PassScore: nat := 4
  const XpPerCorrect: nat := 10
  const GrapeKey: string := "learn:basics:grape:quiz"
  const RegionKey: string := "learn:basics:region:quiz"

  /** A question; `correct[k]` says whether answer `k` is right. */
  datatype Question = Question(id: string, correct: seq<bool>)

  // ---------------------------------------------------------------------
  // Shuffle (Durstenfeld's version of Fisher-Yates)

  /** The random draws of one shuffle of `n` items: at the step for top
      index `i` (from `n - 1` down to 1) the draw `draws[n - 1 - i]` plays
      `Math.floor(Math.random() * (i + 1))`, so it lies in 0..i. */
  predicate ValidDraws(n: nat, draws: seq<nat>)
  {
    |draws| == (if n == 0 then 0 else n - 1) &&
    forall k :: 0 <= k < |draws| ==> draws[k] <= n - 1 - k
  }

  function SwapAt<T>(s: seq<T>, i: nat, j: nat): (r: seq<T>)
    requires i < |s| && j < |s|
    ensures |r| == |s|
  {
    s[i := s[j]][j := s[i]]
  }

  lemma SwapAtPermutes<T>(s: seq<T>, i: nat, j: nat)
    requires i < |s| && j < |s|
    ensures multiset(SwapAt(s, i, j)) == multiset(s)
  {
  }

  /** The swaps for top indices `i` down to 1, applied to `s`. */
  function SwapsFrom<T>(s: seq<T>, draws: seq<nat>, i: nat): seq<T>
    requires i < |s| && ValidDraws(|s|, draws)
    decreases i
  {
    if i == 0 then s
    else SwapsFrom(SwapAt(s, i, draws[|s| - 1 - i]), draws, i - 1)
  }

  /** The order `shuffle` returns for the given draws. */
  function Shuffled<T>(s: seq<T>, draws: seq<nat>): seq<T>
    requires ValidDraws(|s|, draws)
  {
    if s == [] then s else SwapsFrom(s, draws, |s| - 1)
  }

  lemma {:induction false} SwapsFromPermutes<T>(s: seq<T>, draws: seq<nat>, i: nat)
    requires i < |s| && ValidDraws(|s|, draws)
    ensures |SwapsFrom(s, draws, i)| == |s|
    ensures multiset(SwapsFrom(s, draws, i)) == multiset(s)
    decreases i
  {
    if i > 0 {
      SwapAtPermutes(s, i, draws[|s| - 1 - i]);
      SwapsFromPermutes(SwapAt(s, i, draws[|s| - 1 - i]), draws, i - 1);
    }
  }

  /** Whatever the draws, the shuffled bank is a permutation of the bank. */
  lemma ShuffledPermutes<T>(s: seq<T>, draws: seq<nat>)
    requires ValidDraws(|s|, draws)
    ensures |Shuffled(s, draws)| == |s|
    ensures multiset(Shuffled(s, draws)) == multiset(s)
  {
    if s != [] {
      SwapsFromPermutes(s, draws, |s| - 1);
    }
  }

  /** `shuffle(array)`: swap loop over a copy; the input is a value and is
      left as it was. */
  method Shuffle<T>(input: seq<T>, draws: seq<nat>) returns (r: seq<T>)
    requires ValidDraws(|input|, draws)
    ensures r == Shuffled(input, draws)
    ensures |r| == |input| && multiset(r) == multiset(input)
  {
    var n := |input|;
    var copy := new T[n](k requires 0 <= k < n => input[k]);
    assert copy[..] == input;
    var i: int := n - 1;
    while i > 0
      invariant 0 <= i < n || (n == 0 && i == -1)
      invariant copy.Length == n
      invariant n > 0 ==> SwapsFrom(copy[..], draws, i) == Shuffled(input, draws)
      decreases i
    {
      var j := draws[n - 1 - i];
      ghost var before := copy[..];
      assert SwapsFrom(before, draws, i) == SwapsFrom(SwapAt(before, i, j), draws, i - 1);
      var t := copy[i];
      copy[i] := copy[j];
      copy[j] := t;
      assert copy[..] == SwapAt(before, i, j);
      i := i - 1;
    }
    r := copy[..];
    ShuffledPermutes(input, draws);
  }

  // ---------------------------------------------------------------------
  // Progress kept per topic

  datatype Progress = Progress(passed: bool, bestScore: int, attempts: int, xp: int)

  /** The progress of a topic never attempted. */
  const FreshProgress: Progress := Progress(false, 0, 0, 0)

  /** What the topic's key holds: nothing, the empty string, text that does
      not parse, or a parsed record. */
  datatype ProgressBlob = NoEntry | EmptyEntry | BadJson | Saved(p: Progress)

  /** `readProgress()`: null for a missing, empty or unparsable entry. */
  function ReadProgress(b: ProgressBlob): (r: Option<Progress>)
    ensures r.None? <==> !b.Saved?
    ensures b.Saved? ==> r == Some(b.p)
  {
    if b.Saved? then Some(b.p) else None
  }

  /** `readProgress() ?? { passed: false, bestScore: 0, attempts: 0, xp: 0 }` */
  function LoadedProgress(b: ProgressBlob): (p: Progress)
    ensures !b.Saved? ==> p == FreshProgress
    ensures b.Saved? ==> p == b.p
  {
    ReadProgress(b).GetOr(FreshProgress)
  }

  /** The record written when an attempt with `score` and `earnedXp` ends. */
  function Merge(p: Progress, score: nat, earnedXp: nat): (r: Progress)
    ensures r.attempts == p.attempts + 1
    ensures r.bestScore >= p.bestScore && r.bestScore >= score
    ensures r.bestScore == p.bestScore || r.bestScore == score
    ensures r.passed <==> p.passed || score >= PassScore
    ensures r.xp == p.xp + earnedXp
    ensures p.passed ==> r.passed
  {
    Progress(
      p.passed || score >= PassScore,
      if p.bestScore >= score then p.bestScore else score,
      p.attempts + 1,
      p.xp + earnedXp)
  }

  /** The progress after completed attempts with the given scores, each
      earning `XpPerCorrect` per correct answer. */
  function Run(p: Progress, scores: seq<nat>): Progress
    decreases scores
  {
    if scores == [] then p
    else Run(Merge(p, scores[0], XpPerCorrect * scores[0]), scores[1..])
  }

  function MaxFrom(b: int, scores: seq<nat>): int
    decreases scores
  {
    if scores == [] then b
    else MaxFrom(if b >= scores[0] then b else scores[0], scores[1..])
  }

  predicate AnyPass(scores: seq<nat>)
  {
    exists k :: 0 <= k < |scores| && scores[k] >= PassScore
  }

  function Sum(scores: seq<nat>): nat
  {
    if scores == [] then 0 else scores[0] + Sum(scores[1..])
  }

  /** Over any run of attempts: passed is sticky, bestScore is the maximum,
      attempts counts them and xp adds up what each earned. */
  lemma {:induction false} RunSummary(p: Progress, scores: seq<nat>)
    ensures Run(p, scores) == Progress(
      p.passed || AnyPass(scores),
      MaxFrom(p.bestScore, scores),
      p.attempts + |scores|,
      p.xp + XpPerCorrect * Sum(scores))
    decreases scores
  {
    if scores != [] {
      var q := Merge(p, scores[0], XpPerCorrect * scores[0]);
      RunSummary(q, scores[1..]);
      if AnyPass(scores[1..]) {
        var k :| 0 <= k < |scores[1..]| && scores[1..][k] >= PassScore;
        assert scores[k + 1] >= PassScore;
      }
      if AnyPass(scores) && scores[0] < PassScore {
        var k :| 0 <= k < |scores| && scores[k] >= PassScore;
        assert scores[1..][k - 1] >= PassScore;
      }
    }
  }

  /** No field of the progress ever decreases over a run of attempts. */
  lemma {:induction false} RunMonotone(p: Progress, scores: seq<nat>)
    ensures p.passed ==> Run(p, scores).passed
    ensures Run(p, scores).bestScore >= p.bestScore
    ensures Run(p, scores).attempts >= p.attempts
    ensures Run(p, scores).xp >= p.xp
    decreases scores
  {
    if scores != [] {
      RunMonotone(Merge(p, scores[0], XpPerCorrect * scores[0]), scores[1..]);
    }
  }

  /** Attempts scoring 3, 5 and 2 out of 5 on a fresh topic. */
  lemma ThreeAttemptsScenario()
    ensures Run(FreshProgress, [3]) == Progress(false, 3, 1, 30)
    ensures Run(FreshProgress, [3, 5]) == Progress(true, 5, 2, 80)
    ensures Run(FreshProgress, [3, 5, 2]) == Progress(true, 5, 3, 100)
  {
    assert [3, 5, 2][1..] == [5, 2] && [5, 2][1..] == [2] && [3, 5][1..] == [5];
  }

  // ---------------------------------------------------------------------
  // The session

  class QuizSession {
    const variant: Variant
    const bank: seq<Question>
    var questions: seq<Question>
    var i: nat
    var picked: Option<nat>
    var score: nat
    var earnedXp: nat
    /** The vintage page's reshuffle counter. */
    var seed: nat
    /** The loaded progress; null until the load effect has run. */
    var progress: Option<Progress>
    /** What the topic's storage key holds. */
    var stored: ProgressBlob

    ghost predicate Valid()
      reads this
    {
      && |bank| > 0
      && |questions| == |bank| && multiset(questions) == multiset(bank)
      && earnedXp == (if variant.TracksProgress() then XpPerCorrect * score else 0)
      && score <= i + (if picked.Some? then 1 else 0)
      && (variant == Region ==> i <= |questions| && (picked.Some? ==> i < |questions|))
      && (!variant.TracksProgress() ==> progress.None?)
    }

    /** The page's initial state: a fresh shuffle, nothing answered, the
        progress not yet loaded. */
    constructor (variant: Variant, bank: seq<Question>, draws: seq<nat>, stored: ProgressBlob)
      requires |bank| > 0 && ValidDraws(|bank|, draws)
      ensures Valid()
      ensures this.variant == variant && this.bank == bank && this.stored == stored
      ensures questions == Shuffled(bank, draws)
      ensures i == 0 && picked == None && score == 0 && earnedXp == 0 && seed == 0
      ensures progress == None
    {
      var qs := Shuffle(bank, draws);
      this.variant := variant;
      this.bank := bank;
      this.stored := stored;
      questions := qs;
      i := 0;
      picked := None;
      score := 0;
      earnedXp := 0;
      seed := 0;
      progress := None;
    }

    /** `done` */
    function Done(): bool
      reads this
    {
      i >= |questions|
    }

    /** `success` */
    function Success(): (b: bool)
      reads this
      ensures b <==> i >= |questions| && score >= PassScore
    {
      Done() && score >= PassScore
    }

    /** `questions[Math.min(i, questions.length - 1)]` */
    function Current(): (q: Question)
      reads this
      requires |questions| > 0
      ensures q in questions
      ensures i < |questions| ==> q == questions[i]
    {
      questions[if i < |questions| then i else |questions| - 1]
    }

    /** `answeredCount` of the region page. */
    function AnsweredCount(): (n: nat)
      reads this
      ensures n <= |questions|
      ensures n == |questions| || n == i + (if picked.Some? then 1 else 0)
    {
      var a := i + (if picked.Some? then 1 else 0);
      if a < |questions| then a else |questions|
    }

    /** The load effect of the grape and region pages. */
    method LoadProgress()
      requires Valid() && variant.TracksProgress()
      modifies this
      ensures Valid()
      ensures progress == Some(LoadedProgress(stored))
      ensures stored == old(stored) && questions == old(questions) && i == old(i)
      ensures picked == old(picked) && score == old(score) && earnedXp == old(earnedXp)
      ensures seed == old(seed)
    {
      progress := Some(LoadedProgress(stored));
    }

    /** `choose(idx)`: a no-op once an answer is picked (and, on the region
        page, once done); otherwise the pick is recorded and a correct one
        scores a point and, where XP is kept, `XpPerCorrect`. */
    method Choose(idx: nat)
      requires Valid() && idx < |Current().correct|
      modifies this
      ensures Valid()
      ensures var ignored := old(picked).Some? || (variant.ChooseGuardsDone() && old(Done()));
        if ignored then
          picked == old(picked) && score == old(score) && earnedXp == old(earnedXp)
        else
          var right := old(Current()).correct[idx];
          && picked == Some(idx)
          && score == old(score) + (if right then 1 else 0)
          && earnedXp == old(earnedXp) + (if right && variant.TracksProgress() then XpPerCorrect else 0)
      ensures questions == old(questions) && i == old(i) && seed == old(seed)
      ensures progress == old(progress) && stored == old(stored)
    {
      if picked.Some? || (variant.ChooseGuardsDone() && Done()) {
        return;
      }
      var right := Current().correct[idx];
      picked := Some(idx);
      if right {
        score := score + 1;
        if variant.TracksProgress() {
          earnedXp := earnedXp + XpPerCorrect;
        }
      }
    }

    /** `next()`: clears the pick and moves on (on the region page only
        after a pick). When this makes the quiz done and the progress is
        loaded, the completion effect merges the attempt into it and writes
        it to the topic's key. */
    method Next()
      requires Valid()
      modifies this
      ensures Valid()
      ensures var ignored := variant.NextNeedsPick() && old(picked).None?;
        if ignored then
          picked == old(picked) && i == old(i)
        else
          picked == None && i == old(i) + 1
      ensures var fires := !(variant.NextNeedsPick() && old(picked).None?) &&
          variant.TracksProgress() && !old(Done()) && Done() && old(progress).Some?;
        if fires then
          var merged := Merge(old(progress).value, score, earnedXp);
          progress == Some(merged) && stored == Saved(merged)
        else
          progress == old(progress) && stored == old(stored)
      ensures questions == old(questions) && score == old(score) && earnedXp == old(earnedXp)
      ensures seed == old(seed)
    {
      if variant.NextNeedsPick() && picked.None? {
        return;
      }
      var wasDone := Done();
      picked := None;
      i := i + 1;
      // completion effect, run when `done` turns true
      if variant.TracksProgress() && !wasDone && Done() && progress.Some? {
        var merged := Merge(progress.value, score, earnedXp);
        stored := Saved(merged);
        progress := Some(merged);
      }
    }

    /** `restart()` (grape, region) and `resetQuiz()` (vintage): back to the
        first question with nothing scored, in a new order of the bank. */
    method Restart(draws: seq<nat>)
      requires Valid() && ValidDraws(|bank|, draws)
      modifies this
      ensures Valid()
      ensures questions == Shuffled(bank, draws)
      ensures i == 0 && picked == None && score == 0 && earnedXp == 0
      ensures seed == old(seed) + (if variant == Vintage then 1 else 0)
      ensures progress == old(progress) && stored == old(stored)
    {
      var qs := Shuffle(bank, draws);
      questions := qs;
      i := 0;
      picked := None;
      score := 0;
      earnedXp := 0;
      if variant == Vintage {
        seed := seed + 1;
      }
    }
  }

  /** On a valid region session the answered count is never clipped, and
      the score never exceeds the number of questions. */
  lemma RegionCounts(s: QuizSession)
    requires s.Valid() && s.variant == Region
    ensures s.AnsweredCount() == s.i + (if s.picked.Some? then 1 else 0)
    ensures s.score <= s.AnsweredCount() <= |s.questions|
  {
  }
}
