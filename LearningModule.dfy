/**
 * The lessons page: a fixed catalogue of six lessons in three categories, marked with the
 * signed-in learner's completions, filtered by category and search text, and a completion
 * action that reports a progress percentage to the session.
 */
module LearningModule {
  import opened Wrappers
  import opened Text
  import opened Seqs
  import opened Numbers
  import opened AuthContext

  datatype Lesson = Lesson(
    id: string,
    title: string,
    description: string,
    difficulty: string,
    duration: string,
    videoUrl: string,
    completed: bool,
    category: string)

  const Basics: seq<Lesson> := [
    Lesson("basic-1", "Hello & Goodbye", "Learn basic greetings in ISL", "Beginner", "5 min",
           "/videos/hello-goodbye.mp4", false, "basics"),
    Lesson("basic-2", "Family Signs", "Signs for family members", "Beginner", "8 min",
           "/videos/family-signs.mp4", false, "basics"),
    Lesson("basic-3", "Numbers 1-10", "Learn to count in ISL", "Beginner", "6 min",
           "/videos/numbers.mp4", false, "basics")
  ]

  const Intermediate: seq<Lesson> := [
    Lesson("inter-1", "Everyday Conversations", "Common conversation phrases", "Intermediate", "12 min",
           "/videos/conversations.mp4", false, "intermediate"),
    Lesson("inter-2", "Emotions & Feelings", "Express emotions through signs", "Intermediate", "10 min",
           "/videos/emotions.mp4", false, "intermediate")
  ]

  const Advanced: seq<Lesson> := [
    Lesson("adv-1", "Complex Grammar", "Advanced ISL grammar rules", "Advanced", "15 min",
           "/videos/grammar.mp4", false, "advanced")
  ]

  /** `Object.values(lessonData).flat()`: the categories in declaration order. */
  const AllLessons: seq<Lesson> := Basics + Intermediate + Advanced

  predicate UniqueIds(ls: seq<Lesson>)
  {
    forall i, j :: 0 <= i < j < |ls| ==> ls[i].id != ls[j].id
  }

  /** The catalogue: six lessons with distinct ids, none completed. */
  lemma AllLessonsFacts()
    ensures |AllLessons| == 6 && UniqueIds(AllLessons)
    ensures forall i :: 0 <= i < |AllLessons| ==> !AllLessons[i].completed
    ensures AllLessons[0].id == "basic-1" && AllLessons[5].id == "adv-1"
  {
  }

  /** A catalogue lesson marked with the learner's completions (`includes` on their list). */
  function Marked(l: Lesson, user: Option<User>): Lesson
  {
    l.(completed := user.Some? && l.id in user.value.completedLessons)
  }

  /**
   * `loadLessons`: the flattened catalogue, each lesson's `completed` flag set in place to
   * whether the signed-in user lists its id; without a user every flag stays false.
   */
  method LoadLessons(user: Option<User>) returns (loaded: seq<Lesson>)
    ensures |loaded| == |AllLessons|
    ensures forall i :: 0 <= i < |loaded| ==> loaded[i] == Marked(AllLessons[i], user)
  {
    var all := AllLessons;
    var a := new Lesson[|all|](i requires 0 <= i < |all| => all[i]);
    if user.Some? {
      for k := 0 to a.Length
        invariant forall i :: 0 <= i < k ==> a[i] == Marked(all[i], user)
        invariant forall i :: k <= i < a.Length ==> a[i] == all[i]
      {
        a[k] := a[k].(completed := a[k].id in user.value.completedLessons);
      }
    }
    loaded := a[..];
  }

  predicate MatchesCategory(l: Lesson, category: string)
  {
    category == "all" || l.category == category
  }

  /** The search test: the lower-cased title or description contains the lower-cased term. */
  predicate MatchesSearch(l: Lesson, term: string)
  {
    Includes(ToLower(l.title), ToLower(term)) || Includes(ToLower(l.description), ToLower(term))
  }

  /** The test `filteredLessons` applies to each lesson. */
  function Shows(category: string, term: string): Lesson -> bool
  {
    l => MatchesCategory(l, category) && MatchesSearch(l, term)
  }

  /** `filteredLessons`: the lessons passing both tests, in their order. */
  function FilteredLessons(lessons: seq<Lesson>, category: string, term: string): (r: seq<Lesson>)
    ensures |r| <= |lessons|
    ensures forall l :: l in r <==> l in lessons && MatchesCategory(l, category) && MatchesSearch(l, term)
  {
    Filter(Shows(category, term), lessons)
  }

  /** Category "all" with no search text shows every lesson. */
  lemma ShowAll(lessons: seq<Lesson>)
    ensures FilteredLessons(lessons, "all", "") == lessons
  {
    forall l | l in lessons
      ensures MatchesCategory(l, "all") && MatchesSearch(l, "")
    {
      IncludesEmpty(ToLower(l.title));
    }
    FilterAllPass(Shows("all", ""), lessons);
  }

  /** The empty search term matches every lesson. */
  lemma EmptySearchMatches(l: Lesson)
    ensures MatchesSearch(l, "")
  {
    IncludesEmpty(ToLower(l.title));
  }

  lemma BasicsShown()
    ensures Filter(Shows("basics", ""), Basics) == Basics
  {
    forall l | l in Basics
      ensures Shows("basics", "")(l)
    {
      EmptySearchMatches(l);
    }
    FilterAllPass(Shows("basics", ""), Basics);
  }

  lemma OthersHidden()
    ensures Filter(Shows("basics", ""), Intermediate) == []
    ensures Filter(Shows("basics", ""), Advanced) == []
  {
    FilterNonePass(Shows("basics", ""), Intermediate);
    FilterNonePass(Shows("basics", ""), Advanced);
  }

  /** The first view: the default category with no search text shows exactly the basics. */
  lemma DefaultView()
    ensures FilteredLessons(AllLessons, "basics", "") == Basics
  {
    var p := Shows("basics", "");
    BasicsShown();
    OthersHidden();
    FilterAppend(p, Basics, Intermediate);
    FilterAppend(p, Basics + Intermediate, Advanced);
    assert Basics + [] + [] == Basics;
  }

  lemma {:induction false} ToLowerIdempotent(s: string)
    ensures ToLower(ToLower(s)) == ToLower(s)
  {
    forall i | 0 <= i < |s|
      ensures ToLower(ToLower(s))[i] == ToLower(s)[i]
    {
      assert ToLower(s)[i] == LowerChar(s[i]);
    }
  }

  /** The search ignores the case of the term. */
  lemma SearchIgnoresCase(lessons: seq<Lesson>, category: string, term: string)
    ensures FilteredLessons(lessons, category, ToLower(term)) == FilteredLessons(lessons, category, term)
  {
    ToLowerIdempotent(term);
    FilterCongruent(Shows(category, ToLower(term)), Shows(category, term), lessons);
  }

  function IsCompleted(l: Lesson): bool
  {
    l.completed
  }

  /** `lessons.filter(l => l.completed).length`. */
  function CompletedCount(lessons: seq<Lesson>): (n: nat)
    ensures n <= |lessons|
    ensures n == |lessons| <==> forall l :: l in lessons ==> l.completed
  {
    Count(IsCompleted, lessons)
  }

  /** The lessons after completing `lessonId`: that lesson is flagged completed, nothing else changes. */
  function MarkCompleted(lessons: seq<Lesson>, lessonId: string): (r: seq<Lesson>)
    ensures |r| == |lessons|
    ensures forall i :: 0 <= i < |lessons| ==>
      r[i] == lessons[i].(completed := lessons[i].completed || lessons[i].id == lessonId)
  {
    seq(|lessons|, i requires 0 <= i < |lessons| =>
      if lessons[i].id == lessonId then lessons[i].(completed := true) else lessons[i])
  }

  /** `lessonId` names a lesson that is not yet completed. */
  predicate Pending(lessons: seq<Lesson>, lessonId: string)
  {
    exists i :: 0 <= i < |lessons| && lessons[i].id == lessonId && !lessons[i].completed
  }

  lemma CountCons(lessons: seq<Lesson>)
    requires lessons != []
    ensures CompletedCount(lessons) == (if lessons[0].completed then 1 else 0) + CompletedCount(lessons[1..])
  {
  }

  /** Pending on a non-empty list: pending at the head, or pending further on. */
  lemma PendingCons(lessons: seq<Lesson>, lessonId: string)
    requires lessons != []
    ensures Pending(lessons, lessonId) <==>
      (lessons[0].id == lessonId && !lessons[0].completed) || Pending(lessons[1..], lessonId)
  {
    if Pending(lessons, lessonId) {
      var i :| 0 <= i < |lessons| && lessons[i].id == lessonId && !lessons[i].completed;
      if i > 0 {
        assert lessons[1..][i - 1] == lessons[i];
      }
    }
    if Pending(lessons[1..], lessonId) {
      var i :| 0 <= i < |lessons[1..]| && lessons[1..][i].id == lessonId && !lessons[1..][i].completed;
      assert lessons[i + 1] == lessons[1..][i];
    }
  }

  /** With distinct ids, the head's id occurs nowhere further on, and the tail's ids are distinct. */
  lemma UniqueTail(lessons: seq<Lesson>, lessonId: string)
    requires lessons != [] && UniqueIds(lessons)
    ensures UniqueIds(lessons[1..])
    ensures lessons[0].id == lessonId ==> !Pending(lessons[1..], lessonId)
  {
  }

  lemma MarkCons(lessons: seq<Lesson>, lessonId: string)
    requires lessons != []
    ensures MarkCompleted(lessons, lessonId)[1..] == MarkCompleted(lessons[1..], lessonId)
    ensures MarkCompleted(lessons, lessonId)[0].completed == (lessons[0].completed || lessons[0].id == lessonId)
  {
  }

  /**
   * With distinct ids, completing a pending lesson adds exactly one to the completed count,
   * and completing one already done (or an unknown id) adds nothing.
   */
  lemma {:induction false} CountAfterMark(lessons: seq<Lesson>, lessonId: string)
    requires UniqueIds(lessons)
    ensures CompletedCount(MarkCompleted(lessons, lessonId))
         == CompletedCount(lessons) + (if Pending(lessons, lessonId) then 1 else 0)
  {
    if lessons != [] {
      var m := MarkCompleted(lessons, lessonId);
      MarkCons(lessons, lessonId);
      UniqueTail(lessons, lessonId);
      PendingCons(lessons, lessonId);
      CountAfterMark(lessons[1..], lessonId);
      CountCons(lessons);
      CountCons(m);
    }
  }

  /** The percentage `completeLesson` reports: one more than the completions before the click. */
  function CompletionProgress(lessons: seq<Lesson>): (p: int)
    requires |lessons| > 0
    ensures |lessons| * (2 * p - 1) <= 200 * (CompletedCount(lessons) + 1) < |lessons| * (2 * p + 1)
  {
    RoundPercent(CompletedCount(lessons) + 1, |lessons|)
  }

  /**
   * Completing a pending lesson reports the rounded share of completed lessons afterwards,
   * which lies between 0 and 100.
   */
  lemma PendingProgressIsShare(lessons: seq<Lesson>, lessonId: string)
    requires |lessons| > 0 && UniqueIds(lessons) && Pending(lessons, lessonId)
    ensures CompletionProgress(lessons) == RoundPercent(CompletedCount(MarkCompleted(lessons, lessonId)), |lessons|)
    ensures 0 <= CompletionProgress(lessons) <= 100
  {
    CountAfterMark(lessons, lessonId);
    var i :| 0 <= i < |lessons| && lessons[i].id == lessonId && !lessons[i].completed;
    assert lessons[i] in lessons;
  }

  /**
   * Completing a lesson again when all six are done reports 117: the count is not guarded
   * against lessons already completed.
   */
  lemma RepeatedCompletionOvershoots(lessons: seq<Lesson>)
    requires |lessons| == 6 && forall l :: l in lessons ==> l.completed
    ensures CompletionProgress(lessons) == 117
  {
  }

  const BeginnerColor := "text-green-400 bg-green-500/20"
  const IntermediateColor := "text-yellow-400 bg-yellow-500/20"
  const AdvancedColor := "text-red-400 bg-red-500/20"
  const UnknownColor := "text-gray-400 bg-gray-500/20"

  /** The badge colours of the three difficulty levels; any other level is grey. */
  function GetDifficultyColor(difficulty: string): (c: string)
    ensures difficulty == "Beginner" <==> c == BeginnerColor
    ensures difficulty == "Intermediate" <==> c == IntermediateColor
    ensures difficulty == "Advanced" <==> c == AdvancedColor
    ensures difficulty !in {"Beginner", "Intermediate", "Advanced"} <==> c == UnknownColor
  {
    match difficulty
    case "Beginner" => BeginnerColor
    case "Intermediate" => IntermediateColor
    case "Advanced" => AdvancedColor
    case _ => UnknownColor
  }

  /** Every catalogue lesson gets a coloured badge. */
  lemma CatalogueColoured()
    ensures forall l :: l in AllLessons ==> GetDifficultyColor(l.difficulty) != UnknownColor
  {
  }

  /** The `LearningModule` component's state. */
  class LearningPage {
    var lessons: seq<Lesson>
    var currentLesson: Option<Lesson>
    var selectedCategory: string
    var searchTerm: string
    var isLoading: bool

    constructor()
      ensures lessons == [] && currentLesson.None?
      ensures selectedCategory == "basics" && searchTerm == "" && isLoading
    {
      lessons := [];
      currentLesson := None;
      selectedCategory := "basics";
      searchTerm := "";
      isLoading := true;
    }

    /**
     * The mount effect: a visitor who is not signed in is sent to `/login` and the page stays
     * loading; otherwise the catalogue is loaded with the user's completions.
     */
    method Open(auth: AuthProvider) returns (navigateTo: Option<string>)
      modifies this
      ensures currentLesson == old(currentLesson)
      ensures selectedCategory == old(selectedCategory) && searchTerm == old(searchTerm)
      ensures !auth.isAuthenticated ==>
        navigateTo == Some("/login") && lessons == old(lessons) && isLoading == old(isLoading)
      ensures auth.isAuthenticated ==>
        && navigateTo.None? && !isLoading && |lessons| == |AllLessons|
        && forall i :: 0 <= i < |lessons| ==> lessons[i] == Marked(AllLessons[i], auth.user)
    {
      if !auth.isAuthenticated {
        return Some("/login");
      }
      isLoading := true;
      lessons := LoadLessons(auth.user);
      isLoading := false;
      navigateTo := None;
    }

    method StartLesson(lesson: Lesson)
      modifies this
      ensures currentLesson == Some(lesson)
      ensures lessons == old(lessons) && selectedCategory == old(selectedCategory)
      ensures searchTerm == old(searchTerm) && isLoading == old(isLoading)
    {
      currentLesson := Some(lesson);
    }

    method SelectCategory(category: string)
      modifies this
      ensures selectedCategory == category
      ensures lessons == old(lessons) && currentLesson == old(currentLesson)
      ensures searchTerm == old(searchTerm) && isLoading == old(isLoading)
    {
      selectedCategory := category;
    }

    method SetSearchTerm(term: string)
      modifies this
      ensures searchTerm == term
      ensures lessons == old(lessons) && currentLesson == old(currentLesson)
      ensures selectedCategory == old(selectedCategory) && isLoading == old(isLoading)
    {
      searchTerm := term;
    }

    /**
     * `completeLesson`: the lesson is flagged completed, the progress computed from the
     * lessons as they were before the click is reported to the session, and the lesson view
     * closes.
     */
    method CompleteLesson(auth: AuthProvider, lessonId: string)
      requires |lessons| > 0 && auth.Valid()
      modifies this, auth, auth.store
      ensures auth.Valid()
      ensures lessons == MarkCompleted(old(lessons), lessonId)
      ensures currentLesson.None?
      ensures selectedCategory == old(selectedCategory) && searchTerm == old(searchTerm)
      ensures isLoading == old(isLoading)
      ensures auth.isAuthenticated == old(auth.isAuthenticated)
      ensures old(auth.user).None? ==> auth.user.None? && auth.store.entries == old(auth.store.entries)
      ensures old(auth.user).Some? ==>
        && auth.user == Some(UpdatedUser(old(auth.user).value, lessonId, CompletionProgress(old(lessons))))
        && auth.store.entries == old(auth.store.entries)["user" := UserRecord(auth.user.value)]
    {
      var before := lessons;
      lessons := MarkCompleted(before, lessonId);
      var progress := CompletionProgress(before);
      auth.UpdateProgress(lessonId, progress);
      currentLesson := None;
    }
  }
}
