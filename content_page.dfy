/** The Content page: title search, the type filter and what the list area shows. */
module ContentPage {
  import opened Wrappers
  import opened Text
  import opened Seqs
  import opened Schema

  datatype ContentItem = ContentItem(id: ContentId, title: string, kind: ContentType, url: string)

  const All := "all"

  /** The search looks at the title only. */
  predicate MatchesSearch(item: ContentItem, query: string) {
    Contains(ToLower(item.title), ToLower(query))
  }

  predicate MatchesType(item: ContentItem, filterType: string) {
    filterType == All || ContentTypeName(item.kind) == filterType
  }

  predicate Keeps(item: ContentItem, query: string, filterType: string) {
    MatchesSearch(item, query) && MatchesType(item, filterType)
  }

  /** `filteredContent`: every matching item as often as it was loaded, and nothing else. */
  function FilteredContent(content: seq<ContentItem>, query: string, filterType: string): (r: seq<ContentItem>)
    ensures forall item :: multiset(r)[item] == if MatchesSearch(item, query) && MatchesType(item, filterType) then multiset(content)[item] else 0
  {
    Filter(content, item => Keeps(item, query, filterType))
  }

  /** The filtered content keeps the loaded order and only drops items. */
  lemma FilteredIsSubsequence(content: seq<ContentItem>, query: string, filterType: string)
    ensures IsSubsequence(FilteredContent(content, query, filterType), content)
  {
    FilterIsSubsequence(content, item => Keeps(item, query, filterType));
  }

  /** An item is shown exactly when it was loaded, its title contains the query and its type passes. */
  lemma FilteredMembership(content: seq<ContentItem>, query: string, filterType: string, item: ContentItem)
    ensures item in FilteredContent(content, query, filterType) <==>
      item in content && Contains(ToLower(item.title), ToLower(query)) && (filterType == All || ContentTypeName(item.kind) == filterType)
  {
    var r := FilteredContent(content, query, filterType);
    if item in r {
      var i :| 0 <= i < |r| && r[i] == item;
    }
    if item in content && Keeps(item, query, filterType) {
      var i :| 0 <= i < |content| && content[i] == item;
    }
  }

  /** With a type other than `all`, every shown item has exactly that type. */
  lemma FilteredHaveType(content: seq<ContentItem>, query: string, t: ContentType)
    ensures forall item :: item in FilteredContent(content, query, ContentTypeName(t)) ==> item.kind == t
  {
    forall item | item in FilteredContent(content, query, ContentTypeName(t)) ensures item.kind == t {
      FilteredMembership(content, query, ContentTypeName(t), item);
      ContentTypeNameInjective(item.kind, t);
    }
  }

  /** The `all` filter keeps items of every type: only the search decides. */
  lemma AllTypesSearchOnly(content: seq<ContentItem>, query: string)
    ensures FilteredContent(content, query, All) == Filter(content, item => MatchesSearch(item, query))
  {
    FilterCongruent(content, item => Keeps(item, query, All), item => MatchesSearch(item, query));
  }

  /** An empty query with the `all` filter shows everything that was loaded. */
  lemma EmptyQueryKeepsAll(content: seq<ContentItem>)
    ensures FilteredContent(content, "", All) == content
  {
    forall i | 0 <= i < |content| ensures Keeps(content[i], "", All) {
      ContainsEmpty(ToLower(content[i].title));
    }
    FilterKeepsAll(content, item => Keeps(item, "", All));
  }

  /** Two queries that differ only in letter case show the same items. */
  lemma SearchIgnoresCase(content: seq<ContentItem>, q1: string, q2: string, filterType: string)
    requires ToLower(q1) == ToLower(q2)
    ensures FilteredContent(content, q1, filterType) == FilteredContent(content, q2, filterType)
  {
    FilterCongruent(content, item => Keeps(item, q1, filterType), item => Keeps(item, q2, filterType));
  }

  const NoMatchMessage := "No content matches your search or filters"
  const NoContentMessage := "No content available"

  /** The text shown when nothing is listed; a non-empty query string is truthy. */
  function EmptyMessage(query: string, filterType: string): (m: string)
    ensures m == NoMatchMessage <==> query != "" || filterType != All
    ensures m == NoContentMessage <==> query == "" && filterType == All
  {
    if query != "" || filterType != All then NoMatchMessage else NoContentMessage
  }

  /** What the list area renders. */
  datatype Listing =
    | Spinner
    | ErrorText(message: string)
    | EmptyNotice(message: string)
    | Grid(items: seq<ContentItem>)

  /** The chain loading, then error, then empty, then the grid (lines 131-160). */
  function ListArea(loading: bool, error: Option<string>, content: seq<ContentItem>, query: string, filterType: string): (v: Listing)
    ensures v.Spinner? <==> loading
    ensures v.ErrorText? <==> !loading && error.Some? && error.value != ""
    ensures v.ErrorText? ==> v.message == error.value
    ensures v.Grid? ==> v.items == FilteredContent(content, query, filterType) && v.items != []
    ensures v.EmptyNotice? ==> FilteredContent(content, query, filterType) == [] && v.message == EmptyMessage(query, filterType)
  {
    if loading then Spinner
    else if error.Some? && error.value != "" then ErrorText(error.value)
    else
      var shown := FilteredContent(content, query, filterType);
      if |shown| == 0 then EmptyNotice(EmptyMessage(query, filterType)) else Grid(shown)
  }
}
