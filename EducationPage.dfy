/** The education catalogue page: resources filtered by a search term and a tab. */
module EducationPage {
  import opened Types
  import opened Seqs
  import opened Text

  /** The tab value that selects a resource type. */
  function TypeName(t: ResourceType): string
  {
    match t
    case Video => "video"
    case Article => "article"
    case Quiz => "quiz"
  }

  /** Case-insensitive search on the title, the description or any tag. */
  predicate MatchesSearch(r: EducationResource, term: string)
  {
    var t := Lower(term);
    || Contains(Lower(r.title), t)
    || Contains(Lower(r.description), t)
    || exists tag :: tag in r.tags && Contains(Lower(tag), t)
  }

  /** Whether a resource is listed under the active tab. */
  predicate Listed(r: EducationResource, done: seq<string>, term: string, tab: string)
  {
    if tab == "all" then MatchesSearch(r, term)
    else if tab == "completed" then MatchesSearch(r, term) && r.id in done
    else MatchesSearch(r, term) && TypeName(r.kind) == tab
  }

  /** `filteredResources`: the resources listed under the tab for the search term, in catalogue order. */
  function FilteredResources(rs: seq<EducationResource>, done: seq<string>, term: string, tab: string)
    : (r: seq<EducationResource>)
    ensures forall x :: x in r <==> x in rs && Listed(x, done, term, tab)
    ensures tab == "all" ==> forall x :: x in r <==> x in rs && MatchesSearch(x, term)
    ensures tab == "completed" ==> forall x :: x in r ==> x.id in done
    ensures tab != "all" && tab != "completed" ==> forall x :: x in r ==> TypeName(x.kind) == tab
  {
    Filter(rs, (x: EducationResource) => Listed(x, done, term, tab))
  }

  /** The filtered list keeps catalogue order. */
  lemma FilteredKeepsOrder(rs: seq<EducationResource>, done: seq<string>, term: string, tab: string)
    ensures IsSubsequence(FilteredResources(rs, done, term, tab), rs)
  {
    FilterIsSubsequence(rs, (x: EducationResource) => Listed(x, done, term, tab));
  }

  /** An empty search term matches every resource. */
  lemma EmptySearchMatchesAll(r: EducationResource)
    ensures MatchesSearch(r, "")
  {
    assert Lower("") == "";
    assert Contains(Lower(r.title), "");
  }

  /** With an empty search term the "all" tab lists the whole catalogue. */
  lemma AllTabEmptySearchListsAll(rs: seq<EducationResource>, done: seq<string>)
    ensures FilteredResources(rs, done, "", "all") == rs
  {
    forall i | 0 <= i < |rs|
      ensures Listed(rs[i], done, "", "all")
    {
      EmptySearchMatchesAll(rs[i]);
    }
    FilterKeepsAll(rs, (x: EducationResource) => Listed(x, done, "", "all"));
  }

  /** Search ignores the case of the term. */
  lemma SearchIgnoresTermCase(r: EducationResource, term: string)
    ensures MatchesSearch(r, term) <==> MatchesSearch(r, Lower(term))
  {
    LowerIdempotent(term);
  }
}
