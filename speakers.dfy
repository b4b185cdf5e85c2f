/** The speaker directory (app/speakers/page.tsx): the speakers fetched once when the
    page opens, the list narrowed by a search term and two category filters, and the
    distinct departments and regions offered as filter values. */
module SpeakersPage {
  import opened Collections
  import opened Text
  import opened Api

  /** The lowercased display name or department contains the lowercased term. */
  predicate MatchesSearch(s: Speaker, term: string) {
    Includes(Lower(s.displayName), Lower(term)) || Includes(Lower(s.department), Lower(term))
  }

  /** An empty or "all" filter lets every value through; any other requires equality. */
  predicate MatchesCategory(value: string, filter: string) {
    filter == "" || filter == "all" || value == filter
  }

  /** The test `filteredSpeakers` applies to one speaker. */
  predicate Keep(s: Speaker, term: string, department: string, region: string) {
    MatchesSearch(s, term) && MatchesCategory(s.department, department) && MatchesCategory(s.region, region)
  }

  /** `speakersData?.results`, empty when the data or its results are missing. */
  function Results(data: Option<SpeakerData>): seq<Speaker> {
    if data.Some? && data.value.results.Some? then data.value.results.value else []
  }

  /** `filteredSpeakers`: the speakers passing Keep, in their original order, each as
      often as in the results. */
  function FilteredSpeakers(data: Option<SpeakerData>, term: string, department: string, region: string)
    : (r: seq<Speaker>)
    ensures IsSubsequence(r, Results(data))
    ensures forall s :: s in r <==> s in Results(data) && Keep(s, term, department, region)
    ensures forall s :: multiset(r)[s] == if Keep(s, term, department, region) then multiset(Results(data))[s] else 0
    ensures data.None? ==> r == []
  {
    Filter(Results(data), s => Keep(s, term, department, region))
  }

  /** Case does not matter on either side of the search. */
  lemma SearchIgnoresCase(s: Speaker, t: Speaker, term: string, term': string)
    requires SameIgnoringCase(term, term')
    requires SameIgnoringCase(s.displayName, t.displayName) && SameIgnoringCase(s.department, t.department)
    ensures MatchesSearch(s, term) == MatchesSearch(t, term')
  {
    SameIgnoringCaseLower(term, term');
    SameIgnoringCaseLower(s.displayName, t.displayName);
    SameIgnoringCaseLower(s.department, t.department);
  }

  /** Two search terms that differ only in letter case list the same speakers. */
  lemma FilterIgnoresSearchCase(data: Option<SpeakerData>, term: string, term': string,
                                department: string, region: string)
    requires SameIgnoringCase(term, term')
    ensures FilteredSpeakers(data, term, department, region) == FilteredSpeakers(data, term', department, region)
  {
    forall s ensures Keep(s, term, department, region) == Keep(s, term', department, region) {
      SearchIgnoresCase(s, s, term, term');
    }
    FilterCongruent(Results(data), s => Keep(s, term, department, region),
                    s => Keep(s, term', department, region));
  }

  /** With an empty search and both filters at "all", every speaker is listed. */
  lemma NoFiltersListsEverySpeaker(data: Option<SpeakerData>)
    ensures FilteredSpeakers(data, "", "all", "all") == Results(data)
  {
    forall i | 0 <= i < |Results(data)| ensures Keep(Results(data)[i], "", "all", "all") {
      IncludesEmpty(Lower(Results(data)[i].displayName));
    }
    FilterKeepsAll(Results(data), s => Keep(s, "", "all", "all"));
  }

  function DepartmentNames(data: Option<SpeakerData>): (r: seq<string>)
    ensures |r| == |Results(data)|
    ensures forall i :: 0 <= i < |r| ==> r[i] == Results(data)[i].department
  {
    seq(|Results(data)|, i requires 0 <= i < |Results(data)| => Results(data)[i].department)
  }

  function RegionNames(data: Option<SpeakerData>): (r: seq<string>)
    ensures |r| == |Results(data)|
    ensures forall i :: 0 <= i < |r| ==> r[i] == Results(data)[i].region
  {
    seq(|Results(data)|, i requires 0 <= i < |Results(data)| => Results(data)[i].region)
  }

  /** `departments`: each department of the results once. */
  function Departments(data: Option<SpeakerData>): (r: seq<string>)
    ensures NoDuplicates(r)
    ensures forall x :: x in r <==> exists i :: 0 <= i < |Results(data)| && Results(data)[i].department == x
  {
    Distinct(DepartmentNames(data))
  }

  /** `regions`: each region of the results once. */
  function Regions(data: Option<SpeakerData>): (r: seq<string>)
    ensures NoDuplicates(r)
    ensures forall x :: x in r <==> exists i :: 0 <= i < |Results(data)| && Results(data)[i].region == x
  {
    Distinct(RegionNames(data))
  }

  /** Departments are listed in the order in which they first occur in the results. */
  lemma DepartmentsInFirstOccurrenceOrder(data: Option<SpeakerData>, i: nat, j: nat)
    requires i < j < |Departments(data)|
    ensures FirstIndex(DepartmentNames(data), Departments(data)[i])
            < FirstIndex(DepartmentNames(data), Departments(data)[j])
  {
    DistinctKeepsFirstOccurrenceOrder(DepartmentNames(data), i, j);
  }

  /** Regions are listed in the order in which they first occur in the results. */
  lemma RegionsInFirstOccurrenceOrder(data: Option<SpeakerData>, i: nat, j: nat)
    requires i < j < |Regions(data)|
    ensures FirstIndex(RegionNames(data), Regions(data)[i]) < FirstIndex(RegionNames(data), Regions(data)[j])
  {
    DistinctKeepsFirstOccurrenceOrder(RegionNames(data), i, j);
  }

  /** The data the page holds once its fetch settles: the reply's, or no results. */
  function SpeakersAfterFetch(outcome: Outcome<SpeakerData>): (d: SpeakerData)
    ensures outcome.Ok? ==> d == outcome.value
    ensures outcome.Failed? ==> d.results == Some([])
  {
    if outcome.Ok? then outcome.value else SpeakerData(Some([]))
  }

  /** `fetchSpeakers`: one GET of the speakers endpoint without parameters. */
  method FetchSpeakers(client: ApiClient, reply: Reply<SpeakerData>)
    returns (request: HttpRequest, data: SpeakerData)
    ensures UrlRule(client.baseUrl, SpeakersPath, client.functionKey, request.url)
    ensures request.verb == None && request.body == None
    ensures data == SpeakersAfterFetch(RequestOutcome(reply))
  {
    var outcome;
    request, outcome := client.GetSpeakers([], reply);
    data := SpeakersAfterFetch(outcome);
  }

  /** After a failed fetch the page lists no speaker and offers no department or
      region, whatever the filters. */
  lemma FailedFetchShowsNothing(message: string, term: string, department: string, region: string)
    ensures var data := Some(SpeakersAfterFetch(Failed(message)));
      FilteredSpeakers(data, term, department, region) == [] && Departments(data) == [] && Regions(data) == []
  {
  }
}
