/** The training player: a position over (module, lesson) pairs, the set of
    lessons marked read, and the final quiz with its answers, score and
    retake. A lesson's key `${module}-${lesson}` is the pair itself. */
module TrainingContent {
  import opened Wrappers
  import opened Scoring

  type Key = (int, int)

  /** Loaded content: at least one module, and every module with at least
      one lesson. A module with no lessons leaves the page without a current
      lesson once it is entered. */
  predicate Loaded(lessons: seq<nat>)
  {
    |lessons| > 0 && forall i :: 0 <= i < |lessons| ==> lessons[i] > 0
  }

  /** `modules.reduce((sum, m) => sum + m.lessons.length, 0)`. */
  function Total(lessons: seq<nat>): nat
  {
    if lessons == [] then 0 else Total(lessons[..|lessons| - 1]) + lessons[|lessons| - 1]
  }

  lemma {:induction false} TotalPositive(lessons: seq<nat>)
    requires Loaded(lessons)
    ensures Total(lessons) > 0
  {
    assert lessons[|lessons| - 1] > 0;
  }

  /** A key that names an existing lesson. */
  predicate IsLesson(lessons: seq<nat>, k: Key)
  {
    0 <= k.0 < |lessons| && 0 <= k.1 < lessons[k.0]
  }

  /** The keys of one module's lessons. */
  ghost function Row(m: int, k: nat): (r: set<Key>)
    ensures |r| == k
    ensures forall p :: p in r <==> p.0 == m && 0 <= p.1 < k
  {
    if k == 0 then {} else Row(m, k - 1) + {(m, k - 1)}
  }

  /** The keys of every lesson: exactly `Total` of them. */
  ghost function Keys(lessons: seq<nat>): (r: set<Key>)
    ensures |r| == Total(lessons)
    ensures forall p :: p in r <==> IsLesson(lessons, p)
  {
    if lessons == [] then {}
    else
      var n := |lessons| - 1;
      var front := Keys(lessons[..n]);
      var last := Row(n, lessons[n]);
      assert front * last == {};
      front + last
  }

  /** Where "Suivant" leads: the next lesson of the module, the first of the
      next module, or nowhere at the very last lesson. */
  function Following(lessons: seq<nat>, m: nat, l: nat): (r: Option<(nat, nat)>)
    requires Loaded(lessons) && m < |lessons| && l < lessons[m]
    ensures r.None? <==> m == |lessons| - 1 && l == lessons[m] - 1
    ensures r.Some? ==> r.value.0 < |lessons| && r.value.1 < lessons[r.value.0]
  {
    if l < lessons[m] - 1 then Some((m, l + 1))
    else if m < |lessons| - 1 then Some((m + 1, 0))
    else None
  }

  /** Where "Précédent" leads: the previous lesson, the last lesson of the
      previous module, or nowhere at the first lesson, where the button is
      disabled. */
  function Preceding(lessons: seq<nat>, m: nat, l: nat): (r: Option<(nat, nat)>)
    requires Loaded(lessons) && m < |lessons| && l < lessons[m]
    ensures r.None? <==> m == 0 && l == 0
    ensures r.Some? ==> r.value.0 < |lessons| && r.value.1 < lessons[r.value.0]
  {
    if l > 0 then Some((m, l - 1))
    else if m > 0 then Some((m - 1, lessons[m - 1] - 1))
    else None
  }

  /** "Précédent" after "Suivant" comes back, and so does the reverse. */
  lemma StepsInvert(lessons: seq<nat>, m: nat, l: nat)
    requires Loaded(lessons) && m < |lessons| && l < lessons[m]
    ensures var f := Following(lessons, m, l);
      f.Some? ==> Preceding(lessons, f.value.0, f.value.1) == Some((m, l))
    ensures var p := Preceding(lessons, m, l);
      p.Some? ==> Following(lessons, p.value.0, p.value.1) == Some((m, l))
  {
    if l == lessons[m] - 1 && m < |lessons| - 1 {
      assert lessons[m + 1] > 0;
    }
    if l == 0 && m > 0 {
      assert lessons[m - 1] > 0;
    }
  }

  // ---------------------------------------------------------------- quiz

  /** `Math.round(correct / n * 100)`, which is NaN for a quiz without
      questions. */
  datatype QuizScore = Points(value: int) | NotANumber

  /** The answers that match the key among the first `n` questions. */
  function CountCorrect(answers: seq<int>, key: seq<int>, n: nat): (c: nat)
    requires n <= |answers| == |key|
    ensures c <= n
    ensures (forall i :: 0 <= i < n ==> answers[i] == key[i]) ==> c == n
    ensures (forall i :: 0 <= i < n ==> answers[i] != key[i]) ==> c == 0
  {
    if n == 0 then 0
    else CountCorrect(answers, key, n - 1) + (if answers[n - 1] == key[n - 1] then 1 else 0)
  }

  /** The score `submitQuiz` records. */
  function Grade(answers: seq<int>, key: seq<int>): (g: QuizScore)
    requires |answers| == |key|
    ensures g.Points? <==> |key| > 0
    ensures g.Points? ==> 0 <= g.value <= 100
  {
    if |key| == 0 then NotANumber
    else
      var c := CountCorrect(answers, key, |key|);
      PercentBounds(c, |key|);
      Points(Percent(c, |key|))
  }

  /** All answers right is 100, none right is 0. */
  lemma GradeExtremes(answers: seq<int>, key: seq<int>)
    requires |answers| == |key| > 0
    ensures (forall i :: 0 <= i < |key| ==> answers[i] == key[i]) ==> Grade(answers, key) == Points(100)
    ensures (forall i :: 0 <= i < |key| ==> answers[i] != key[i]) ==> Grade(answers, key) == Points(0)
  {
    PercentEndpoints(|key|);
  }

  /** The result colour and headline: green "Excellent !" from 80, yellow
      "Bien joué !" from 60, red "À revoir" below, and for NaN, which fails
      every comparison. */
  function QuizBand(s: QuizScore): Band
  {
    if s.Points? then BandOf(s.value) else Low
  }

  function Headline(s: QuizScore): string
  {
    match QuizBand(s)
    case High => "Excellent !"
    case Mid => "Bien joué !"
    case Low => "À revoir"
  }

  /** "Télécharger mon certificat" is shown from 60. */
  predicate CertificateOffered(s: QuizScore)
  {
    s.Points? && s.value >= 60
  }

  lemma CertificateWithPassingBand(s: QuizScore)
    ensures CertificateOffered(s) <==> QuizBand(s) != Low
    ensures CertificateOffered(s) <==> Headline(s) != "À revoir"
  {
  }

  // ---------------------------------------------------------------- player

  class TrainingPlayer {
    /** Lessons per module, and the correct option of each question. */
    const lessons: seq<nat>
    const key: seq<int>
    var activeModule: nat
    var activeLesson: nat
    var completed: set<Key>
    var showQuiz: bool
    var answers: seq<int>
    var submitted: bool
    var score: QuizScore

    /** The position names a lesson, every completed key is a lesson's and
        there is one answer per question. */
    ghost predicate Valid()
      reads this
    {
      Loaded(lessons) && activeModule < |lessons| && activeLesson < lessons[activeModule]
      && (forall k :: k in completed ==> IsLesson(lessons, k)) && |answers| == |key|
    }

    /** The state once the content is loaded: first lesson, nothing read,
        every answer -1. */
    constructor (lessons: seq<nat>, key: seq<int>)
      requires Loaded(lessons)
      ensures Valid() && this.lessons == lessons && this.key == key
      ensures activeModule == 0 && activeLesson == 0 && completed == {} && !showQuiz
      ensures answers == seq(|key|, _ => -1) && !submitted && score == Points(0)
    {
      this.lessons := lessons;
      this.key := key;
      activeModule := 0;
      activeLesson := 0;
      completed := {};
      showQuiz := false;
      answers := seq(|key|, _ => -1);
      submitted := false;
      score := Points(0);
    }

    /** `handleNextLesson`: mark the current lesson read, then move on or,
        at the very last lesson, open the quiz in place. */
    method NextLesson()
      requires Valid()
      modifies this
      ensures Valid()
      ensures completed == old(completed) + {(old(activeModule), old(activeLesson))}
      ensures var f := Following(lessons, old(activeModule), old(activeLesson));
        if f.Some? then (activeModule, activeLesson) == f.value && showQuiz == old(showQuiz)
        else activeModule == old(activeModule) && activeLesson == old(activeLesson) && showQuiz
      ensures answers == old(answers) && submitted == old(submitted) && score == old(score)
    {
      completed := completed + {(activeModule, activeLesson)};
      if activeLesson < lessons[activeModule] - 1 {
        activeLesson := activeLesson + 1;
      } else if activeModule < |lessons| - 1 {
        activeModule := activeModule + 1;
        activeLesson := 0;
        assert lessons[activeModule] > 0;
      } else {
        showQuiz := true;
      }
    }

    /** The "Précédent" handler; nothing happens at the first lesson. */
    method PreviousLesson()
      requires Valid()
      modifies this
      ensures Valid()
      ensures var p := Preceding(lessons, old(activeModule), old(activeLesson));
        if p.Some? then (activeModule, activeLesson) == p.value
        else activeModule == old(activeModule) && activeLesson == old(activeLesson)
      ensures completed == old(completed) && showQuiz == old(showQuiz)
      ensures answers == old(answers) && submitted == old(submitted) && score == old(score)
    {
      if activeLesson > 0 {
        activeLesson := activeLesson - 1;
      } else if activeModule > 0 {
        activeModule := activeModule - 1;
        assert lessons[activeModule] > 0;
        activeLesson := lessons[activeModule] - 1;
      }
    }

    /** A module button of the sidebar: its first lesson, quiz closed. */
    method SelectModule(idx: nat)
      requires Valid() && idx < |lessons|
      modifies this
      ensures Valid()
      ensures activeModule == idx && activeLesson == 0 && !showQuiz
      ensures completed == old(completed)
      ensures answers == old(answers) && submitted == old(submitted) && score == old(score)
    {
      activeModule := idx;
      activeLesson := 0;
      showQuiz := false;
    }

    /** The "Quiz Final" button, shown only when there are questions. */
    method OpenQuiz()
      requires Valid() && |key| > 0
      modifies this
      ensures Valid() && showQuiz
      ensures activeModule == old(activeModule) && activeLesson == old(activeLesson)
      ensures completed == old(completed)
      ensures answers == old(answers) && submitted == old(submitted) && score == old(score)
    {
      showQuiz := true;
    }

    /** `handleQuizAnswer(q, a)`: only answer `q` changes. */
    method QuizAnswer(q: nat, a: int)
      requires Valid() && q < |answers|
      modifies this
      ensures Valid()
      ensures |answers| == |old(answers)| && answers[q] == a
      ensures forall i :: 0 <= i < |answers| && i != q ==> answers[i] == old(answers)[i]
      ensures activeModule == old(activeModule) && activeLesson == old(activeLesson)
      ensures completed == old(completed) && showQuiz == old(showQuiz)
      ensures submitted == old(submitted) && score == old(score)
    {
      answers := answers[q := a];
    }

    /** "Valider mes réponses" is enabled while no answer is -1. */
    predicate CanSubmit()
      reads this
    {
      -1 !in answers
    }

    /** `submitQuiz`: count the answers that match, record the rounded
        percentage and show the result. */
    method SubmitQuiz()
      requires Valid()
      modifies this
      ensures Valid() && submitted
      ensures score == Grade(answers, key)
      ensures answers == old(answers)
      ensures activeModule == old(activeModule) && activeLesson == old(activeLesson)
      ensures completed == old(completed) && showQuiz == old(showQuiz)
    {
      var correct := 0;
      var idx := 0;
      while idx < |key|
        invariant 0 <= idx <= |key|
        invariant correct == CountCorrect(answers, key, idx)
      {
        if answers[idx] == key[idx] {
          correct := correct + 1;
        }
        idx := idx + 1;
      }
      if |key| == 0 {
        score := NotANumber;
      } else {
        score := Points(Percent(correct, |key|));
      }
      submitted := true;
    }

    /** "Refaire le quiz": every answer back to -1, score 0, form shown. */
    method Retake()
      requires Valid()
      modifies this
      ensures Valid() && !submitted && score == Points(0)
      ensures |answers| == |key| && forall i :: 0 <= i < |answers| ==> answers[i] == -1
      ensures CanSubmit() <==> |key| == 0
      ensures activeModule == old(activeModule) && activeLesson == old(activeLesson)
      ensures completed == old(completed) && showQuiz == old(showQuiz)
    {
      submitted := false;
      answers := seq(|key|, _ => -1);
      score := Points(0);
      assert |key| > 0 ==> answers[0] == -1;
    }

    /** The header's `Math.round(completed / total * 100)`. */
    function Progress(): (r: int)
      reads this
      requires Valid()
      ensures 0 <= r <= 100
      ensures completed == Keys(lessons) ==> r == 100
    {
      TotalPositive(lessons);
      assert completed <= Keys(lessons);
      SubsetCard(completed, Keys(lessons));
      PercentBounds(|completed|, Total(lessons));
      PercentEndpoints(Total(lessons));
      Percent(|completed|, Total(lessons))
    }

    /** The sidebar tick: every lesson of the module is in the set. */
    predicate ModuleComplete(idx: nat)
      reads this
      requires idx < |lessons|
    {
      forall l :: 0 <= l < lessons[idx] ==> (idx, l) in completed
    }
  }

  lemma SubsetCard(a: set<Key>, b: set<Key>)
    requires a <= b
    ensures |a| <= |b|
    ensures |a| == |b| ==> a == b
  {
    assert b == a + (b - a);
    assert a * (b - a) == {};
  }

  /** Every module is ticked exactly when every lesson key is in the set,
      and then the header reads 100%. */
  lemma AllModulesComplete(p: TrainingPlayer)
    requires p.Valid()
    ensures (forall idx :: 0 <= idx < |p.lessons| ==> p.ModuleComplete(idx)) <==> p.completed == Keys(p.lessons)
    ensures p.completed == Keys(p.lessons) ==> p.Progress() == 100
  {
    if forall idx :: 0 <= idx < |p.lessons| ==> p.ModuleComplete(idx) {
      TicksCoverKeys(p);
    }
    if p.completed == Keys(p.lessons) {
      KeysTickAll(p);
    }
  }

  lemma TicksCoverKeys(p: TrainingPlayer)
    requires p.Valid() && forall idx :: 0 <= idx < |p.lessons| ==> p.ModuleComplete(idx)
    ensures p.completed == Keys(p.lessons)
  {
    forall k | k in Keys(p.lessons)
      ensures k in p.completed
    {
      assert p.ModuleComplete(k.0);
    }
  }

  lemma KeysTickAll(p: TrainingPlayer)
    requires p.Valid() && p.completed == Keys(p.lessons)
    ensures forall idx :: 0 <= idx < |p.lessons| ==> p.ModuleComplete(idx)
  {
    forall idx | 0 <= idx < |p.lessons|
      ensures p.ModuleComplete(idx)
    {
      forall l | 0 <= l < p.lessons[idx]
        ensures (idx, l) in p.completed
      {
        assert IsLesson(p.lessons, (idx, l));
      }
    }
  }

  /** The quiz opens from the last lesson whatever was read before: from a
      fresh start, choosing the last module of a one-lesson ending and
      pressing "Suivant" shows the quiz with module 0 unread. */
  method SkipToQuiz(p: TrainingPlayer)
    requires p.Valid() && |p.lessons| >= 2 && p.lessons[|p.lessons| - 1] == 1 && p.completed == {}
    modifies p
    ensures p.Valid() && p.showQuiz && !p.ModuleComplete(0)
  {
    p.SelectModule(|p.lessons| - 1);
    p.NextLesson();
    assert p.completed == {(|p.lessons| - 1, 0)};
    assert (0, 0) !in p.completed;
  }
}
