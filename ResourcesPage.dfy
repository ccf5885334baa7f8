/**
 * The resources page: a fixed list of six study resources narrowed by a search term, a
 * category and a difficulty, and the labels each card shows.
 */
module ResourcesPage {
  import opened Text
  import opened Seqs

  datatype Resource = Resource(
    id: int,
    title: string,
    description: string,
    category: string,
    difficulty: string,
    kind: string,
    url: string,
    thumbnail: string,
    duration: string,
    downloads: int,
    rating: real,
    tags: seq<string>)

  const MockResources: seq<Resource> := [
    Resource(1, "ISL Dictionary - Basic Signs",
      "Comprehensive dictionary of basic Indian Sign Language signs with video demonstrations.",
      "dictionary", "beginner", "video", "/resources/basic-dictionary", "/images/basic-signs.jpg",
      "45 min", 1250, 4.8, ["basics", "dictionary", "beginner-friendly"]),
    Resource(2, "ISL Grammar Rules Guide",
      "Complete guide to Indian Sign Language grammar structure and sentence formation.",
      "grammar", "intermediate", "pdf", "/resources/grammar-guide.pdf", "/images/grammar-guide.jpg",
      "30 min read", 980, 4.6, ["grammar", "structure", "intermediate"]),
    Resource(3, "Practice Exercises - Family Signs",
      "Interactive practice exercises for learning family-related signs in ISL.",
      "practice", "beginner", "interactive", "/resources/family-practice", "/images/family-signs.jpg",
      "20 min", 1500, 4.9, ["family", "practice", "interactive"]),
    Resource(4, "Advanced Conversation Patterns",
      "Learn advanced conversation patterns and complex sentence structures in ISL.",
      "conversation", "advanced", "video", "/resources/advanced-conversations", "/images/advanced-conv.jpg",
      "60 min", 750, 4.7, ["conversation", "advanced", "patterns"]),
    Resource(5, "Regional ISL Variations",
      "Understanding regional differences in Indian Sign Language across different states.",
      "culture", "intermediate", "article", "/resources/regional-variations", "/images/regional-isl.jpg",
      "25 min read", 650, 4.5, ["regional", "culture", "variations"]),
    Resource(6, "ISL Fingerspelling Master Class",
      "Master the art of fingerspelling in Indian Sign Language with detailed practice sessions.",
      "fingerspelling", "beginner", "video", "/resources/fingerspelling-master", "/images/fingerspelling.jpg",
      "35 min", 1100, 4.8, ["fingerspelling", "alphabet", "fundamentals"])
  ]

  /** Some tag, lower-cased, contains the lower-cased term. */
  predicate TagMatches(tags: seq<string>, term: string)
  {
    exists i :: 0 <= i < |tags| && Includes(ToLower(tags[i]), ToLower(term))
  }

  /** The search test: title, description or some tag contains the term, ignoring ASCII case. */
  predicate SearchMatches(r: Resource, term: string)
  {
    || Includes(ToLower(r.title), ToLower(term))
    || Includes(ToLower(r.description), ToLower(term))
    || TagMatches(r.tags, term)
  }

  /** A resource shown under the current filters; an empty term and "all" impose nothing. */
  predicate Shown(r: Resource, term: string, category: string, difficulty: string)
  {
    && (term == "" || SearchMatches(r, term))
    && (category == "all" || r.category == category)
    && (difficulty == "all" || r.difficulty == difficulty)
  }

  function ShownBy(term: string, category: string, difficulty: string): Resource -> bool
  {
    r => Shown(r, term, category, difficulty)
  }

  /** The filtered list the page shows: the shown resources in their order. */
  function Visible(resources: seq<Resource>, term: string, category: string, difficulty: string): (r: seq<Resource>)
    ensures |r| <= |resources|
    ensures forall x :: x in r <==> x in resources && Shown(x, term, category, difficulty)
  {
    Filter(ShownBy(term, category, difficulty), resources)
  }

  /**
   * `filterResources`: up to three filter passes in a row, each skipped when its control
   * imposes nothing. The result is the one-pass filter by all three tests.
   */
  method FilterResources(resources: seq<Resource>, term: string, category: string, difficulty: string)
    returns (filtered: seq<Resource>)
    ensures filtered == Visible(resources, term, category, difficulty)
  {
    ghost var passed: Resource -> bool := _ => true;
    FilterAllPass(passed, resources);
    filtered := resources;
    if term != "" {
      var search := (r: Resource) => SearchMatches(r, term);
      FilterFilter(passed, search, resources);
      filtered := Filter(search, filtered);
      passed := And(passed, search);
    }
    if category != "all" {
      var inCategory := (r: Resource) => r.category == category;
      FilterFilter(passed, inCategory, resources);
      filtered := Filter(inCategory, filtered);
      passed := And(passed, inCategory);
    }
    if difficulty != "all" {
      var atLevel := (r: Resource) => r.difficulty == difficulty;
      FilterFilter(passed, atLevel, resources);
      filtered := Filter(atLevel, filtered);
      passed := And(passed, atLevel);
    }
    FilterCongruent(passed, ShownBy(term, category, difficulty), resources);
  }

  /** The empty term matches every resource, so skipping the search pass for it changes nothing. */
  lemma EmptyTermMatches(r: Resource)
    ensures SearchMatches(r, "")
  {
    IncludesEmpty(ToLower(r.title));
  }

  /** With every control cleared, all resources are shown. */
  lemma ClearedShowsAll(resources: seq<Resource>)
    ensures Visible(resources, "", "all", "all") == resources
  {
    FilterAllPass(ShownBy("", "all", "all"), resources);
  }

  /** A narrower control only hides resources: what a category or level shows, "all" shows too. */
  lemma NarrowingHides(resources: seq<Resource>, term: string, category: string, difficulty: string)
    ensures forall x :: x in Visible(resources, term, category, difficulty) ==> x in Visible(resources, term, "all", "all")
    ensures |Visible(resources, term, category, difficulty)| <= |resources|
  {
  }

  lemma DictionaryShownAlone(p: Resource -> bool)
    requires forall r :: p(r) == Shown(r, "", "dictionary", "all")
    ensures Filter(p, MockResources[..1]) == MockResources[..1]
    ensures Filter(p, MockResources[1..]) == []
  {
    FilterAllPass(p, MockResources[..1]);
    FilterNonePass(p, MockResources[1..]);
  }

  /** Choosing the dictionary category shows exactly the first resource. */
  lemma DictionaryCategory()
    ensures Visible(MockResources, "", "dictionary", "all") == [MockResources[0]]
  {
    var p := ShownBy("", "dictionary", "all");
    DictionaryShownAlone(p);
    FilterAppend(p, MockResources[..1], MockResources[1..]);
    assert MockResources == MockResources[..1] + MockResources[1..];
    assert Filter(p, MockResources) == MockResources[..1] + [];
  }

  /** `resource.tags.slice(0, 3)`: the first three tags, or all of them when there are fewer. */
  function TagsShown(tags: seq<string>): (r: seq<string>)
    ensures |r| == if |tags| < 3 then |tags| else 3
    ensures r == tags[..|r|]
  {
    if |tags| < 3 then tags else tags[..3]
  }

  const VideoIcon := "\U{1F3AC}"
  const PdfIcon := "\U{1F4C4}"
  const InteractiveIcon := "\U{1F3AE}"
  const ArticleIcon := "\U{1F4D6}"
  const OtherIcon := "\U{1F4DA}"

  /** `getResourceIcon`: one icon per known resource type and a fallback for any other. */
  function GetResourceIcon(kind: string): (icon: string)
    ensures kind == "video" <==> icon == VideoIcon
    ensures kind == "pdf" <==> icon == PdfIcon
    ensures kind == "interactive" <==> icon == InteractiveIcon
    ensures kind == "article" <==> icon == ArticleIcon
    ensures kind !in {"video", "pdf", "interactive", "article"} <==> icon == OtherIcon
  {
    match kind
    case "video" => VideoIcon
    case "pdf" => PdfIcon
    case "interactive" => InteractiveIcon
    case "article" => ArticleIcon
    case _ => OtherIcon
  }

  const BeginnerColor := "text-green-400 bg-green-500/20"
  const IntermediateColor := "text-yellow-400 bg-yellow-500/20"
  const AdvancedColor := "text-red-400 bg-red-500/20"
  const UnknownColor := "text-gray-400 bg-gray-500/20"

  /** `getDifficultyColor` on this page's lower-case level names; any other level is grey. */
  function GetDifficultyColor(difficulty: string): (c: string)
    ensures difficulty == "beginner" <==> c == BeginnerColor
    ensures difficulty == "intermediate" <==> c == IntermediateColor
    ensures difficulty == "advanced" <==> c == AdvancedColor
    ensures difficulty !in {"beginner", "intermediate", "advanced"} <==> c == UnknownColor
  {
    match difficulty
    case "beginner" => BeginnerColor
    case "intermediate" => IntermediateColor
    case "advanced" => AdvancedColor
    case _ => UnknownColor
  }

  /** Every listed resource has a known type and a coloured level. */
  lemma MockResourcesLabelled()
    ensures forall r :: r in MockResources ==> GetResourceIcon(r.kind) != OtherIcon
    ensures forall r :: r in MockResources ==> GetDifficultyColor(r.difficulty) != UnknownColor
  {
  }

  /** The `ResourcesPage` component's state. */
  class ResourcesView {
    var resources: seq<Resource>
    var filteredResources: seq<Resource>
    var searchTerm: string
    var selectedCategory: string
    var selectedDifficulty: string
    var isLoading: bool

    /** The filter effect has run: the shown list is the current filter of the loaded list. */
    ghost predicate Valid()
      reads this
    {
      filteredResources == Visible(resources, searchTerm, selectedCategory, selectedDifficulty)
    }

    constructor()
      ensures Valid()
      ensures resources == [] && filteredResources == []
      ensures searchTerm == "" && selectedCategory == "all" && selectedDifficulty == "all" && isLoading
    {
      resources := [];
      filteredResources := [];
      searchTerm := "";
      selectedCategory := "all";
      selectedDifficulty := "all";
      isLoading := true;
    }

    /** `loadResources` followed by the filter effect. */
    method LoadResources()
      modifies this
      ensures Valid()
      ensures resources == MockResources && !isLoading
      ensures searchTerm == old(searchTerm) && selectedCategory == old(selectedCategory)
      ensures selectedDifficulty == old(selectedDifficulty)
    {
      isLoading := true;
      resources := MockResources;
      isLoading := false;
      filteredResources := FilterResources(resources, searchTerm, selectedCategory, selectedDifficulty);
    }

    /** Typing in the search box, followed by the filter effect. */
    method SetSearchTerm(term: string)
      modifies this
      ensures Valid()
      ensures searchTerm == term && resources == old(resources)
      ensures selectedCategory == old(selectedCategory) && selectedDifficulty == old(selectedDifficulty)
      ensures isLoading == old(isLoading)
    {
      searchTerm := term;
      filteredResources := FilterResources(resources, searchTerm, selectedCategory, selectedDifficulty);
    }

    /** Choosing a category, followed by the filter effect. */
    method SetCategory(category: string)
      modifies this
      ensures Valid()
      ensures selectedCategory == category && resources == old(resources)
      ensures searchTerm == old(searchTerm) && selectedDifficulty == old(selectedDifficulty)
      ensures isLoading == old(isLoading)
    {
      selectedCategory := category;
      filteredResources := FilterResources(resources, searchTerm, selectedCategory, selectedDifficulty);
    }

    /** Choosing a level, followed by the filter effect. */
    method SetDifficulty(difficulty: string)
      modifies this
      ensures Valid()
      ensures selectedDifficulty == difficulty && resources == old(resources)
      ensures searchTerm == old(searchTerm) && selectedCategory == old(selectedCategory)
      ensures isLoading == old(isLoading)
    {
      selectedDifficulty := difficulty;
      filteredResources := FilterResources(resources, searchTerm, selectedCategory, selectedDifficulty);
    }

    /** "Clear Filters", followed by the filter effect: every loaded resource is shown again. */
    method ClearFilters()
      modifies this
      ensures Valid()
      ensures searchTerm == "" && selectedCategory == "all" && selectedDifficulty == "all"
      ensures resources == old(resources) && filteredResources == resources
      ensures isLoading == old(isLoading)
    {
      searchTerm := "";
      selectedCategory := "all";
      selectedDifficulty := "all";
      filteredResources := FilterResources(resources, searchTerm, selectedCategory, selectedDifficulty);
      ClearedShowsAll(resources);
    }
  }
}
