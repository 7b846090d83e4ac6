/** The Activities page: the client-side search and filters, and the difficulty badge. */
module Activities {
  import opened Text
  import opened Seqs
  import opened Palette

  datatype Activity = Activity(
    id: string,
    title: string,
    description: string,
    ageRange: string,
    duration: string,
    difficulty: string,
    category: string,
    image: string)

  /** The three select boxes; each holds a value or the sentinel `All`. */
  datatype ActivityFilter = ActivityFilter(ageRange: string, difficulty: string, category: string)

  const All := "all"

  /** The initial filter state. */
  const NoFilter := ActivityFilter(All, All, All)

  /** The query occurs, case-insensitively, in the title or in the description. */
  predicate MatchesSearch(a: Activity, query: string) {
    Contains(ToLower(a.title), ToLower(query)) || Contains(ToLower(a.description), ToLower(query))
  }

  /** Each select box is `All` or equals the activity's field. */
  predicate MatchesFilter(a: Activity, f: ActivityFilter) {
    && (f.ageRange == All || a.ageRange == f.ageRange)
    && (f.difficulty == All || a.difficulty == f.difficulty)
    && (f.category == All || a.category == f.category)
  }

  predicate Keeps(a: Activity, query: string, f: ActivityFilter) {
    MatchesSearch(a, query) && MatchesFilter(a, f)
  }

  /** `filteredActivities`: every matching activity as often as it is listed, and nothing else. */
  function FilteredActivities(activities: seq<Activity>, query: string, f: ActivityFilter): (r: seq<Activity>)
    ensures forall a :: multiset(r)[a] == if MatchesSearch(a, query) && MatchesFilter(a, f) then multiset(activities)[a] else 0
  {
    Filter(activities, a => Keeps(a, query, f))
  }

  /** The filtered list keeps the order of the activity list and only drops entries. */
  lemma FilteredIsSubsequence(activities: seq<Activity>, query: string, f: ActivityFilter)
    ensures IsSubsequence(FilteredActivities(activities, query, f), activities)
  {
    FilterIsSubsequence(activities, a => Keeps(a, query, f));
  }

  /** An activity is listed exactly when it is in the list and passes search and filters. */
  lemma FilteredMembership(activities: seq<Activity>, query: string, f: ActivityFilter, a: Activity)
    ensures a in FilteredActivities(activities, query, f) <==> a in activities && MatchesSearch(a, query) && MatchesFilter(a, f)
  {
    var r := FilteredActivities(activities, query, f);
    if a in r {
      var i :| 0 <= i < |r| && r[i] == a;
    }
    if a in activities && Keeps(a, query, f) {
      var i :| 0 <= i < |activities| && activities[i] == a;
    }
  }

  /** Every listed activity agrees with each select box that is not `All`. */
  lemma FilteredAgreeWithFilters(activities: seq<Activity>, query: string, f: ActivityFilter)
    ensures forall a :: a in FilteredActivities(activities, query, f) ==>
      && (f.ageRange != All ==> a.ageRange == f.ageRange)
      && (f.difficulty != All ==> a.difficulty == f.difficulty)
      && (f.category != All ==> a.category == f.category)
  {
    forall a | a in FilteredActivities(activities, query, f)
      ensures MatchesFilter(a, f)
    {
      FilteredMembership(activities, query, f, a);
    }
  }

  /** With an empty query and every box on `All`, nothing is filtered out. */
  lemma NoFilterKeepsAll(activities: seq<Activity>)
    ensures FilteredActivities(activities, "", NoFilter) == activities
  {
    forall i | 0 <= i < |activities| ensures Keeps(activities[i], "", NoFilter) {
      ContainsEmpty(ToLower(activities[i].title));
    }
    FilterKeepsAll(activities, a => Keeps(a, "", NoFilter));
  }

  /** Two queries that differ only in letter case give the same list. */
  lemma SearchIgnoresCase(activities: seq<Activity>, q1: string, q2: string, f: ActivityFilter)
    requires ToLower(q1) == ToLower(q2)
    ensures FilteredActivities(activities, q1, f) == FilteredActivities(activities, q2, f)
  {
    FilterCongruent(activities, a => Keeps(a, q1, f), a => Keeps(a, q2, f));
  }

  /** In particular, typing the query in lower case changes nothing. */
  lemma LowerCaseQuery(activities: seq<Activity>, query: string, f: ActivityFilter)
    ensures FilteredActivities(activities, ToLower(query), f) == FilteredActivities(activities, query, f)
  {
    ToLowerIdempotent(query);
    SearchIgnoresCase(activities, ToLower(query), query, f);
  }

  /** Filtering the filtered list again with the same settings returns it unchanged. */
  lemma FilterTwice(activities: seq<Activity>, query: string, f: ActivityFilter)
    ensures FilteredActivities(FilteredActivities(activities, query, f), query, f) == FilteredActivities(activities, query, f)
  {
    FilterIdempotent(activities, a => Keeps(a, query, f));
  }

  /** `getDifficultyColor`: easy is green, medium yellow, hard red, anything else gray. */
  function DifficultyTone(difficulty: string): (t: Tone)
    ensures t == Green <==> difficulty == "easy"
    ensures t == Yellow <==> difficulty == "medium"
    ensures t == Red <==> difficulty == "hard"
    ensures t == Gray <==> difficulty !in {"easy", "medium", "hard"}
  {
    match difficulty
    case "easy" => Green
    case "medium" => Yellow
    case "hard" => Red
    case _ => Gray
  }

  /** The class string the badge receives. */
  function DifficultyColor(difficulty: string): (c: string)
    ensures difficulty == "easy" ==> c == "bg-green-100 text-green-800"
    ensures difficulty == "medium" ==> c == "bg-yellow-100 text-yellow-800"
    ensures difficulty == "hard" ==> c == "bg-red-100 text-red-800"
    ensures difficulty !in {"easy", "medium", "hard"} ==> c == "bg-gray-100 text-gray-800"
  {
    BadgeClasses(DifficultyTone(difficulty))
  }
}
