/** The dashboard home page (app/page.tsx): three datasets fetched together when the
    page opens, and the headline figures and the active-speaker list derived from
    them. */
module Dashboard {
  import opened Collections
  import opened Text
  import opened Api
  import UtterancesPage
  import SpeakersPage

  /** The page's three pieces of state; None until the fetch settles. */
  datatype DashboardData = DashboardData(trends: Option<TrendData>, speakers: Option<SpeakerData>,
                                         utterances: Option<UtteranceData>)

  /** What the page shows when any of the three requests fails. */
  const EmptyTrends := TrendData("", "", [])
  const EmptySpeakers := SpeakerData(Some([]))
  const EmptyUtterances := UtteranceData(Some([]), Some(0), "")

  /** The dashboard asks for up to this many utterances at once. */
  const AllUtterancesParams: Params := [("top", "10000")]

  /** The state once the three requests settle: all three replies when every request
      succeeds, and the three empty datasets as soon as one of them fails. */
  function AfterFetch(u: Outcome<UtteranceData>, s: Outcome<SpeakerData>, t: Outcome<TrendData>)
    : (d: DashboardData)
    ensures d.trends.Some? && d.speakers.Some? && d.utterances.Some?
    ensures u.Ok? && s.Ok? && t.Ok? ==> d.utterances.value == u.value && d.speakers.value == s.value
                                         && d.trends.value == t.value
    ensures u.Failed? || s.Failed? || t.Failed? ==>
              d.utterances.value == EmptyUtterances && d.speakers.value == EmptySpeakers
              && d.trends.value == EmptyTrends
  {
    if u.Ok? && s.Ok? && t.Ok? then DashboardData(Some(t.value), Some(s.value), Some(u.value))
    else DashboardData(Some(EmptyTrends), Some(EmptySpeakers), Some(EmptyUtterances))
  }

  /** `fetchDashboardData`: the three GETs and the state they leave behind. */
  method FetchDashboard(client: ApiClient, utteranceReply: Reply<UtteranceData>,
                        speakerReply: Reply<SpeakerData>, trendReply: Reply<TrendData>)
    returns (utteranceRequest: HttpRequest, speakerRequest: HttpRequest, trendRequest: HttpRequest,
             d: DashboardData)
    ensures UrlRule(client.baseUrl, ResourceEndpoint(UtterancesPath, AllUtterancesParams), client.functionKey,
                    utteranceRequest.url)
    ensures UrlRule(client.baseUrl, SpeakersPath, client.functionKey, speakerRequest.url)
    ensures UrlRule(client.baseUrl, TrendsPath, client.functionKey, trendRequest.url)
    ensures utteranceRequest.verb == None && utteranceRequest.body == None
    ensures speakerRequest.verb == None && speakerRequest.body == None
    ensures trendRequest.verb == None && trendRequest.body == None
    ensures d == AfterFetch(RequestOutcome(utteranceReply), RequestOutcome(speakerReply),
                            RequestOutcome(trendReply))
  {
    var u, s, t;
    utteranceRequest, u := client.GetUtterances(AllUtterancesParams, utteranceReply);
    speakerRequest, s := client.GetSpeakers([], speakerReply);
    trendRequest, t := client.GetTrends([], trendReply);
    d := AfterFetch(u, s, t);
  }

  /** The dashboard's utterance request carries the single parameter `top=10000`. */
  lemma AllUtterancesEndpoint()
    ensures ResourceEndpoint(UtterancesPath, AllUtterancesParams) == UtterancesPath + "?top=10000"
  {
    FormEncodeKeepsSafeText("top");
    FormEncodeKeepsSafeText("10000");
    assert Serialize(AllUtterancesParams) == EncodePair(("top", "10000")) == "top=10000";
  }

  /** The utterance items on hand, empty when there are none. */
  function Items(d: DashboardData): seq<Utterance> {
    if d.utterances.Some? then UtterancesPage.ItemsOf(d.utterances.value) else []
  }

  /** `totalTopics`: the number of trends. */
  function TotalTopics(d: DashboardData): (n: nat)
    ensures d.trends.None? ==> n == 0
    ensures d.trends.Some? ==> n == |d.trends.value.trends|
  {
    if d.trends.Some? then |d.trends.value.trends| else 0
  }

  /** `activeSpeakers`: the number of speaker results. */
  function ActiveSpeakers(d: DashboardData): (n: nat)
    ensures n == |SpeakersPage.Results(d.speakers)|
    ensures d.speakers.None? ==> n == 0
  {
    |SpeakersPage.Results(d.speakers)|
  }

  /** `totalUtterances`: the reported total, 0 when it is missing. */
  function TotalUtterances(d: DashboardData): (n: int)
    ensures d.utterances.None? || d.utterances.value.totalCount.None? ==> n == 0
    ensures d.utterances.Some? && d.utterances.value.totalCount.Some? ==> n == d.utterances.value.totalCount.value
  {
    if d.utterances.Some? then UtterancesPage.TotalOf(d.utterances.value) else 0
  }

  /** A region or department counts unless it is empty or "Unknown". */
  predicate Known(value: string) {
    value != "" && value != "Unknown"
  }

  function MeetingIds(items: seq<Utterance>): (r: seq<string>)
    ensures |r| == |items| && forall i :: 0 <= i < |items| ==> r[i] == items[i].meetingId
  {
    seq(|items|, i requires 0 <= i < |items| => items[i].meetingId)
  }

  /** `meetingsHeld`: `new Set(items.map(u => u.meeting_id)).size`, the number of
      distinct meetings among the items. */
  function MeetingsHeld(d: DashboardData): (n: nat)
    ensures n == |set u | u in Items(d) :: u.meetingId|
    ensures n <= |Items(d)|
    ensures Items(d) != [] ==> n >= 1
  {
    var items := Items(d);
    var ids := MeetingIds(items);
    assert Elements(ids) == set u | u in items :: u.meetingId by {
      forall x | x in Elements(ids) ensures x in set u | u in items :: u.meetingId {
        var i :| 0 <= i < |ids| && ids[i] == x;
        assert items[i] in items;
      }
    }
    assert items != [] ==> items[0].meetingId in set u | u in items :: u.meetingId;
    CountDistinct(ids)
  }

  /** The known values of one field, read off the items one by one, are the known
      values of that field among the items. */
  lemma KnownValuesOfField(items: seq<Utterance>, names: seq<string>, field: Utterance -> string)
    requires |names| == |items| && forall i :: 0 <= i < |items| ==> names[i] == field(items[i])
    ensures Elements(Filter(names, Known)) == set u | u in items && Known(field(u)) :: field(u)
  {
    var known := Filter(names, Known);
    forall x | x in Elements(known) ensures x in set u | u in items && Known(field(u)) :: field(u) {
      var i :| 0 <= i < |items| && names[i] == x;
      assert items[i] in items;
    }
    forall x | x in set u | u in items && Known(field(u)) :: field(u) ensures x in Elements(known) {
      var u :| u in items && Known(field(u)) && field(u) == x;
      var i :| 0 <= i < |items| && items[i] == u;
      assert names[i] == x;
    }
  }

  /** `uniqueRegions`: `new Set(items.map(u => u.region).filter(known)).size`, the
      number of distinct known regions among the items. */
  function UniqueRegions(d: DashboardData): (n: nat)
    ensures n == |set u | u in Items(d) && Known(u.region) :: u.region|
    ensures n <= |Items(d)|
  {
    var items := Items(d);
    var field := (u: Utterance) => u.region;
    KnownValuesOfField(items, UtterancesPage.RegionNames(items), field);
    assert (set u | u in items && Known(field(u)) :: field(u)) == set u | u in items && Known(u.region) :: u.region;
    CountDistinct(Filter(UtterancesPage.RegionNames(items), Known))
  }

  /** `uniqueDepartments`: `new Set(items.map(u => u.department).filter(known)).size`,
      the number of distinct known departments among the items. */
  function UniqueDepartments(d: DashboardData): (n: nat)
    ensures n == |set u | u in Items(d) && Known(u.department) :: u.department|
    ensures n <= |Items(d)|
  {
    var items := Items(d);
    var field := (u: Utterance) => u.department;
    KnownValuesOfField(items, UtterancesPage.DepartmentNames(items), field);
    assert (set u | u in items && Known(field(u)) :: field(u)) == set u | u in items && Known(u.department) :: u.department;
    CountDistinct(Filter(UtterancesPage.DepartmentNames(items), Known))
  }

  /** A speaker whose lowercased name mentions "moderator". */
  predicate IsModerator(s: Speaker) {
    Includes(Lower(s.displayName), "moderator")
  }

  const ActiveSpeakerLimit := 5

  /** The "Most Active Speakers" list: the results without moderators, cut to five. */
  function ActiveSpeakerList(d: DashboardData): (r: seq<Speaker>)
    ensures |r| <= ActiveSpeakerLimit
    ensures IsSubsequence(r, SpeakersPage.Results(d.speakers))
    ensures forall s :: s in r ==> s in SpeakersPage.Results(d.speakers) && !IsModerator(s)
    ensures r <= Filter(SpeakersPage.Results(d.speakers), s => !IsModerator(s))
    ensures |r| < ActiveSpeakerLimit ==> r == Filter(SpeakersPage.Results(d.speakers), s => !IsModerator(s))
  {
    var others := Filter(SpeakersPage.Results(d.speakers), s => !IsModerator(s));
    var k := if |others| < ActiveSpeakerLimit then |others| else ActiveSpeakerLimit;
    SubsequencePrefix(others, SpeakersPage.Results(d.speakers), k);
    assert forall s :: s in others[..k] ==> s in others;
    others[..k]
  }

  /** After any failed request every figure is zero and no speaker is listed. */
  lemma FailedFetchZeroesFigures(u: Outcome<UtteranceData>, s: Outcome<SpeakerData>, t: Outcome<TrendData>)
    requires u.Failed? || s.Failed? || t.Failed?
    ensures var d := AfterFetch(u, s, t);
      && TotalTopics(d) == 0 && ActiveSpeakers(d) == 0 && MeetingsHeld(d) == 0
      && UniqueRegions(d) == 0 && UniqueDepartments(d) == 0 && TotalUtterances(d) == 0
      && ActiveSpeakerList(d) == []
  {
    var d := AfterFetch(u, s, t);
    assert Items(d) == [];
  }
}
