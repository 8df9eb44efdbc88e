/**
 * Progress reconciliation (the `updateDatasets` effect): a sparse batch of
 * progress notifications, keyed by dataset hash, is merged into the dataset
 * list currently held by the store, item by item, without a refetch.
 */
module Reconcile {
  import opened Wrappers

  /** A dataset record as the list holds it; `forceUpdate == false` stands for an absent flag. */
  datatype Dataset = Dataset(id: int, hash: string, state: int, progress: int, forceUpdate: bool)

  /** The list slice of the store: the items shown and the logical count. */
  datatype Collection = Collection(items: seq<Dataset>, total: int)

  /** One progress notification; `percent` is a fraction, an exact real here. */
  datatype Update = Update(id: int, state: int, percent: real)

  /** The progress given to an item whose state has advanced. */
  const FullProgress: int := 100

  /**
   * `percent * 100` rounded to the nearest integer (halves go up).
   */
  function Round(percent: real): (r: int)
    ensures r as real - 0.5 <= percent * 100.0 < r as real + 0.5
  {
    (percent * 100.0 + 0.5).Floor
  }

  /** A fraction in [0, 1] rounds to a percentage in [0, 100]. */
  lemma RoundInRange(percent: real)
    requires 0.0 <= percent <= 1.0
    ensures 0 <= Round(percent) <= FullProgress
  {
  }

  /**
   * One item against the notifications, looked up by its hash: unmatched, it
   * is kept; with its own state, it takes the rounded percentage; with a
   * higher state, it takes that state, a full progress and the flag.
   */
  function ReconcileItem(d: Dataset, updates: map<string, Update>): (r: Dataset)
    ensures r.id == d.id && r.hash == d.hash
    ensures d.hash !in updates ==> r == d
    ensures d.hash in updates && updates[d.hash].state == d.state ==>
      r.state == d.state && r.progress == Round(updates[d.hash].percent) && r.forceUpdate == d.forceUpdate
    ensures d.hash in updates && updates[d.hash].state > d.state ==>
      r.state == updates[d.hash].state && r.progress == FullProgress && r.forceUpdate
  {
    if d.hash !in updates then d
    else
      var u := updates[d.hash];
      if u.state > d.state then d.(state := u.state, progress := FullProgress, forceUpdate := true)
      else d.(progress := Round(u.percent))
  }

  /** The per-item map over the list: item `i` of the result comes from item `i` of the input. */
  function ReconcileItems(items: seq<Dataset>, updates: map<string, Update>): (r: seq<Dataset>)
    ensures |r| == |items|
    ensures forall i :: 0 <= i < |items| ==> r[i] == ReconcileItem(items[i], updates)
  {
    if items == [] then []
    else [ReconcileItem(items[0], updates)] + ReconcileItems(items[1..], updates)
  }

  /**
   * The collection `updateDatasets` publishes: with no payload, the current
   * collection as it is; otherwise the reconciled items with the same `total`.
   */
  function UpdateDatasets(current: Collection, payload: Option<map<string, Update>>): (r: Collection)
    ensures r.total == current.total
    ensures |r.items| == |current.items|
    ensures payload.None? ==> r == current
    ensures forall i :: 0 <= i < |r.items| ==>
      r.items[i].id == current.items[i].id && r.items[i].hash == current.items[i].hash
  {
    match payload
    case None => current
    case Some(updates) => Collection(ReconcileItems(current.items, updates), current.total)
  }

  /** The sequence of hashes of a list. */
  function Hashes(items: seq<Dataset>): (r: seq<string>)
    ensures |r| == |items|
    ensures forall i :: 0 <= i < |items| ==> r[i] == items[i].hash
  {
    if items == [] then [] else [items[0].hash] + Hashes(items[1..])
  }

  /** No two items of a list share a hash. */
  predicate UniqueHashes(items: seq<Dataset>)
  {
    forall i, j :: 0 <= i < j < |items| ==> items[i].hash != items[j].hash
  }

  /**
   * Reconciliation keeps the list's length, order and `total`: item `i` of the
   * result keeps the id and hash of item `i` of the input.
   */
  lemma ShapePreserved(current: Collection, payload: Option<map<string, Update>>)
    ensures var r := UpdateDatasets(current, payload);
      && |r.items| == |current.items|
      && r.total == current.total
      && Hashes(r.items) == Hashes(current.items)
      && forall i :: 0 <= i < |r.items| ==> r.items[i].id == current.items[i].id
  {
  }

  /** Hashes stay unique, since reconciliation never changes a hash. */
  lemma UniqueHashesPreserved(current: Collection, payload: Option<map<string, Update>>)
    requires UniqueHashes(current.items)
    ensures UniqueHashes(UpdateDatasets(current, payload).items)
  {
  }

  /** An item whose hash has no notification is returned unchanged. */
  lemma UnmatchedUnchanged(current: Collection, updates: map<string, Update>, i: int)
    requires 0 <= i < |current.items|
    requires current.items[i].hash !in updates
    ensures UpdateDatasets(current, Some(updates)).items[i] == current.items[i]
  {
  }

  /**
   * A matched item whose notification carries its current state gets the
   * rounded percentage as progress, and nothing else about it changes (no
   * `forceUpdate` flag is added).
   */
  lemma SameStateTakesProgress(current: Collection, updates: map<string, Update>, i: int)
    requires 0 <= i < |current.items|
    requires current.items[i].hash in updates
    requires updates[current.items[i].hash].state == current.items[i].state
    ensures var d, u := current.items[i], updates[current.items[i].hash];
      var r := UpdateDatasets(current, Some(updates)).items[i];
      && r.progress == Round(u.percent)
      && r.state == d.state
      && r.forceUpdate == d.forceUpdate
      && r.id == d.id && r.hash == d.hash
  {
  }

  /**
   * A matched item whose notification carries a strictly higher state takes
   * that state, a full progress and the `forceUpdate` flag, whatever the percentage.
   */
  lemma AdvancedStateForcesUpdate(current: Collection, updates: map<string, Update>, i: int)
    requires 0 <= i < |current.items|
    requires current.items[i].hash in updates
    requires updates[current.items[i].hash].state > current.items[i].state
    ensures var d, u := current.items[i], updates[current.items[i].hash];
      var r := UpdateDatasets(current, Some(updates)).items[i];
      && r.state == u.state
      && r.progress == FullProgress
      && r.forceUpdate
      && r.id == d.id && r.hash == d.hash
  {
  }

  /** A matched item whose notified state is equal or higher ends in the notified state. */
  lemma MatchedStateIsNotified(current: Collection, updates: map<string, Update>, i: int)
    requires 0 <= i < |current.items|
    requires current.items[i].hash in updates
    requires updates[current.items[i].hash].state >= current.items[i].state
    ensures UpdateDatasets(current, Some(updates)).items[i].state == updates[current.items[i].hash].state
  {
  }

  /** With no payload the published collection is the current one, items and total. */
  lemma AbsentPayloadRepublishes(current: Collection)
    ensures UpdateDatasets(current, None) == current
  {
  }

  /** An empty payload changes nothing either. */
  lemma EmptyPayloadRepublishes(current: Collection)
    ensures UpdateDatasets(current, Some(map[])) == current
  {
  }

  /** Reconciling twice with no payload yields the same collection both times. */
  lemma AbsentPayloadIdempotent(current: Collection)
    ensures UpdateDatasets(UpdateDatasets(current, None), None) == UpdateDatasets(current, None)
  {
  }

  /** Every progress is within [0, 100]. */
  predicate ProgressInRange(items: seq<Dataset>)
  {
    forall i :: 0 <= i < |items| ==> 0 <= items[i].progress <= FullProgress
  }

  /** Every notification carries a fraction in [0, 1]. */
  predicate PercentInRange(updates: map<string, Update>)
  {
    forall h :: h in updates ==> 0.0 <= updates[h].percent <= 1.0
  }

  /** Percentages in range stay in range: reconciliation never stores progress outside [0, 100]. */
  lemma ProgressStaysInRange(current: Collection, updates: map<string, Update>)
    requires ProgressInRange(current.items)
    requires PercentInRange(updates)
    ensures ProgressInRange(UpdateDatasets(current, Some(updates)).items)
  {
  }

  /** The three items of the "normal success" case. */
  function SampleCollection(): Collection
  {
    Collection([
      Dataset(34, "hash1", 2, 20, false),
      Dataset(35, "hash2", 3, 100, false),
      Dataset(36, "hash3", 2, 96, false)], 3)
  }

  /**
   * The "normal success" case: `hash1` keeps state 2 and reaches 45, `hash2`
   * has no notification, `hash3` advances to state 3 with a forced update.
   */
  lemma NormalSuccessExample()
    ensures UpdateDatasets(SampleCollection(),
      Some(map["hash1" := Update(34, 2, 0.45), "hash3" := Update(36, 3, 1.0)])).items
      == [Dataset(34, "hash1", 2, 45, false),
          Dataset(35, "hash2", 3, 100, false),
          Dataset(36, "hash3", 3, 100, true)]
  {
  }

  /** The "empty success" case: no payload republishes the collection as it was. */
  lemma EmptySuccessExample()
    ensures UpdateDatasets(SampleCollection(), None) == SampleCollection()
  {
  }
}
