/**
 * Hot-ranking composition (the `getHotDatasets` effect): a stats call gives
 * `[id, count]` pairs already ranked by the backend; a batch lookup of those
 * ids gives the dataset details; the two are zipped by position.
 */
module HotRanking {
  import opened Wrappers
  import opened Effects

  /** One `[id, count]` pair of the stats result. */
  datatype Stat = Stat(id: int, count: int)

  /** `{...detail, count}`: a dataset detail extended with its usage count. */
  datatype HotEntry<D> = HotEntry(detail: D, count: int)

  /**
   * Where the effect stands after the stats call: finished with a result, or
   * waiting for the details of `ids`, to be zipped with `stats`.
   */
  datatype Stage<D> = Done(result: seq<HotEntry<D>>) | NeedDetails(ids: seq<int>, stats: seq<Stat>)

  /** The ids of the pairs, in rank order: what the detail lookup is asked for. */
  function Ids(stats: seq<Stat>): (r: seq<int>)
    ensures |r| == |stats|
    ensures forall i :: 0 <= i < |stats| ==> r[i] == stats[i].id
  {
    if stats == [] then [] else [stats[0].id] + Ids(stats[1..])
  }

  /**
   * The positional zip: entry `i` is detail `i` with the count of pair `i`.
   * Where the two lists differ in length the zip stops at the shorter.
   */
  function Zip<D>(stats: seq<Stat>, details: seq<D>): (r: seq<HotEntry<D>>)
    ensures |r| == if |stats| <= |details| then |stats| else |details|
    ensures forall i :: 0 <= i < |r| ==> r[i] == HotEntry(details[i], stats[i].count)
  {
    if stats == [] || details == [] then []
    else [HotEntry(details[0], stats[0].count)] + Zip(stats[1..], details[1..])
  }

  /**
   * The first stage: a failed stats call or an empty ranking finishes with
   * `[]`; otherwise the details of the ranked ids are needed.
   */
  function AfterStats<D>(response: Envelope<seq<Stat>>): (s: Stage<D>)
    ensures s.Done? ==> s.result == []
    ensures s.NeedDetails? <==> Settle(response).Some? && Settle(response).value != []
    ensures s.NeedDetails? ==> s.stats == Settle(response).value && s.ids == Ids(s.stats)
  {
    match Settle(response)
    case None => Done([])
    case Some(stats) => if stats == [] then Done([]) else NeedDetails(Ids(stats), stats)
  }

  /**
   * The second stage: a missing detail list degrades to `[]`; otherwise the
   * pairs are zipped with the details.
   */
  function AfterDetails<D>(stats: seq<Stat>, details: Option<seq<D>>): (r: seq<HotEntry<D>>)
    ensures details.None? ==> r == []
    ensures details.Some? && |details.value| == |stats| ==>
      |r| == |stats| && forall i :: 0 <= i < |stats| ==> r[i] == HotEntry(details.value[i], stats[i].count)
  {
    match details
    case None => []
    case Some(ds) => Zip(stats, ds)
  }

  /**
   * The whole effect. `details` is what the lookup of the requested ids gave;
   * it is consulted only when the first stage asked for it.
   */
  function GetHotDatasets<D>(response: Envelope<seq<Stat>>, details: Option<seq<D>>): (r: seq<HotEntry<D>>)
    ensures Settle(response).None? ==> r == []
    ensures Settle(response) == Some([]) ==> r == []
    ensures details.None? ==> r == []
    ensures Settle(response).Some? && details.Some? && |details.value| == |Settle(response).value| ==>
      var stats := Settle(response).value;
      |r| == |stats| && forall i :: 0 <= i < |stats| ==> r[i] == HotEntry(details.value[i], stats[i].count)
  {
    match AfterStats(response)
    case Done(result) => result
    case NeedDetails(_, stats) => AfterDetails(stats, details)
  }

  /**
   * The happy path: when the details line up with the pairs, the ranking has
   * the pairs' length and order, entry `i` being detail `i` with count `i`.
   */
  lemma HappyPath<D>(stats: seq<Stat>, details: seq<D>)
    requires |details| == |stats|
    ensures var r := GetHotDatasets(Reply(SuccessCode, Some(stats)), Some(details));
      && |r| == |stats|
      && forall i :: 0 <= i < |stats| ==> r[i].detail == details[i] && r[i].count == stats[i].count
  {
  }

  /** Unzipping the ranking gives back the details and the counts of the pairs. */
  lemma UnzipRoundTrip<D>(stats: seq<Stat>, details: seq<D>)
    requires |details| == |stats|
    ensures Details(Zip(stats, details)) == details
    ensures |Counts(Zip(stats, details))| == |stats|
    ensures forall i :: 0 <= i < |stats| ==> Counts(Zip(stats, details))[i] == stats[i].count
  {
  }

  /** The details of a ranking, in order. */
  function Details<D>(entries: seq<HotEntry<D>>): (r: seq<D>)
    ensures |r| == |entries|
    ensures forall i :: 0 <= i < |entries| ==> r[i] == entries[i].detail
  {
    if entries == [] then [] else [entries[0].detail] + Details(entries[1..])
  }

  /** The counts of a ranking, in order. */
  function Counts<D>(entries: seq<HotEntry<D>>): (r: seq<int>)
    ensures |r| == |entries|
    ensures forall i :: 0 <= i < |entries| ==> r[i] == entries[i].count
  {
    if entries == [] then [] else [entries[0].count] + Counts(entries[1..])
  }

  /** An empty ranking finishes at the first stage: no detail lookup is made. */
  lemma EmptyStatsShortCircuits<D>(details: Option<seq<D>>)
    ensures AfterStats<D>(Reply(SuccessCode, Some([]))) == Done([])
    ensures GetHotDatasets(Reply(SuccessCode, Some([])), details) == []
  {
  }

  /** A failed stats call yields `[]`, whatever the lookup would have given. */
  lemma FailedStatsYieldsEmpty<D>(response: Envelope<seq<Stat>>, details: Option<seq<D>>)
    requires response.Thrown? || response.code != SuccessCode
    ensures AfterStats<D>(response).Done?
    ensures GetHotDatasets(response, details) == []
  {
  }

  /** A missing detail list yields `[]` rather than a partial ranking. */
  lemma MissingDetailsYieldEmpty<D>(response: Envelope<seq<Stat>>)
    ensures GetHotDatasets<D>(response, None) == []
  {
  }

  /**
   * The lookup is the batchDatasets effect: when it fails, its `undefined`
   * result degrades the ranking to `[]`, not to an error.
   */
  lemma FailedLookupYieldsEmpty<D>(response: Envelope<seq<Stat>>, lookup: Envelope<seq<D>>)
    requires lookup.Thrown? || lookup.code != SuccessCode
    ensures GetHotDatasets(response, Settle(lookup)) == []
  {
  }

  /** The lookup is asked for exactly the ranked ids, in rank order. */
  lemma LookupAsksForRankedIds<D>(stats: seq<Stat>)
    requires stats != []
    ensures AfterStats<D>(Reply(SuccessCode, Some(stats))) == NeedDetails(Ids(stats), stats)
  {
  }

  /** The pairs `[[1, 34], [1001, 31], [23, 2]]` of the tests. */
  function SampleStats(): seq<Stat>
  {
    [Stat(1, 34), Stat(1001, 31), Stat(23, 2)]
  }

  /**
   * The three cases of the tests, a detail `{id: n}` standing as the integer
   * `n`: details present, details `undefined`, and an empty stats result.
   */
  lemma HotDatasetsExamples()
    ensures GetHotDatasets(Reply(0, Some(SampleStats())), Some([1, 1001, 23]))
      == [HotEntry(1, 34), HotEntry(1001, 31), HotEntry(23, 2)]
    ensures GetHotDatasets<int>(Reply(0, Some(SampleStats())), None) == []
    ensures GetHotDatasets<int>(Reply(0, Some([])), Some([1])) == []
  {
  }
}
