# Dataset model of the ymir web client, in Dafny

This project models the dataset model of the ymir web client, as its test file
`ymir/web/src/models/__test__/dataset.test.js` pins it down. That model is a set of
redux-saga effects that call the backend and keep the list of datasets held in
the store up to date. The production module `ymir/web/src/models/dataset.js` is
not part of this model, so what is modelled is the behaviour the tests assert:

- **Pass-through effects** (`getDatasets`, `getDataset`, `batchDatasets`,
  `getAssetsOfDataset`, `getAsset`, `delDataset`, `createDataset`, `updateDataset`,
  `getInternalDataset`). One generic function, `Effects.Settle`, turns a backend
  envelope `{code, result}` into the effect's result. A success envelope gives
  `result` unchanged. A non-zero code or a thrown error gives `undefined`
  (`None`). See `effects.dfy`.
- **Progress reconciliation** (`updateDatasets`). A map from hash to
  `{id, state, percent}` is merged into the list item by item. An item with no
  notification is unchanged. An item whose notification carries the same state
  gets `progress` set to `percent * 100` rounded to the nearest integer. An item whose notification
  carries a higher state takes that state, `progress = 100` and
  `forceUpdate = true`. With no payload the collection is republished as it is.
  See `reconcile.dfy`.
- **Hot ranking** (`getHotDatasets`). This is a two-stage machine. The stats
  call gives ranked `[id, count]` pairs. A failed call or an empty list ends
  with `[]` and makes no lookup. Otherwise the details of the ranked ids are
  looked up. A missing detail list ends with `[]`. Otherwise the pairs are
  zipped with the details by position, giving `{...detail, count}`. See
  `hot_ranking.dfy`.

Modelling choices:

- JavaScript's `undefined` result is `Option.None` (`wrappers.dfy`).
- A missing `forceUpdate` flag is `false`.
- `percent` is an exact `real`. Rounding to the nearest integer is `Floor(percent * 100 + 0.5)`, so halves go up.
- The redux-saga stepping (`call`, `put`, `select` and `next()`) is replaced by plain functions.
  Each function maps the values the saga receives to the value it publishes or returns.
- The second stage of the hot ranking receives the detail list as an
  argument. This is the value that the `batchDatasets` effect returns
  (`FailedLookupYieldsEmpty` composes the two).

## Model

| member | source | states |
|---|---|---|
| `Effects.Settle` | ymir/web/src/models/__test__/dataset.test.js:79-239 | the result is present exactly when the envelope has code 0 and carries a result, and it is then that result, unchanged |
| `Effects.SuccessYieldsResult` | ymir/web/src/models/__test__/dataset.test.js:351-369 | `{code: 0, result: r}` yields exactly `r` for every result type |
| `Effects.FailureYieldsUndefined` | ymir/web/src/models/__test__/dataset.test.js:12-20 | a non-zero code or a thrown error yields `undefined` |
| `Reconcile.Round` | ymir/web/src/models/__test__/dataset.test.js:251-254 | the progress is the integer nearest to `percent * 100`, halves rounded up |
| `Reconcile.ReconcileItem` | ymir/web/src/models/__test__/dataset.test.js:244-256 | one item keeps its id and hash; unmatched it is unchanged; with its own state it takes the rounded percentage and keeps state and flag; with a higher state it takes that state, progress 100 and `forceUpdate` |
| `Reconcile.RoundInRange` | ymir/web/src/models/__test__/dataset.test.js:251-256 | a fraction in [0, 1] rounds to a progress in [0, 100] |
| `Reconcile.ReconcileItems` | ymir/web/src/models/__test__/dataset.test.js:242-257 | the result has the input's length, and item `i` is item `i` of the input reconciled on its own |
| `Reconcile.UpdateDatasets` | ymir/web/src/models/__test__/dataset.test.js:240-289 | the published collection keeps `total`, length, and id and hash at every position; with no payload it is the current collection |
| `Reconcile.ShapePreserved` | ymir/web/src/models/__test__/dataset.test.js:242-265 | reconciliation keeps the length, the `total`, and the id and hash of every position |
| `Reconcile.UniqueHashesPreserved` | ymir/web/src/models/__test__/dataset.test.js:242-257 | hashes unique before reconciliation stay unique after it |
| `Reconcile.UnmatchedUnchanged` | ymir/web/src/models/__test__/dataset.test.js:245-255 | an item whose hash has no notification comes back unchanged |
| `Reconcile.SameStateTakesProgress` | ymir/web/src/models/__test__/dataset.test.js:244-254 | a notification with the item's own state sets progress to the rounded percentage and leaves state, flag, id and hash as they were |
| `Reconcile.AdvancedStateForcesUpdate` | ymir/web/src/models/__test__/dataset.test.js:246-256 | a notification with a higher state sets that state, progress 100 and `forceUpdate`, whatever the percentage |
| `Reconcile.MatchedStateIsNotified` | ymir/web/src/models/__test__/dataset.test.js:244-256 | after an equal or advanced notification the item's state is the notified state |
| `Reconcile.ProgressStaysInRange` | ymir/web/src/models/__test__/dataset.test.js:242-257 | progress in [0, 100] and percentages in [0, 1] give progress in [0, 100] |
| `Reconcile.AbsentPayloadRepublishes` | ymir/web/src/models/__test__/dataset.test.js:268-289 | with no payload the published collection is the current one, items and total |
| `Reconcile.EmptyPayloadRepublishes` | ymir/web/src/models/__test__/dataset.test.js:268-289 | an empty payload also republishes the collection unchanged |
| `Reconcile.AbsentPayloadIdempotent` | ymir/web/src/models/__test__/dataset.test.js:268-289 | reconciling twice with no payload gives the same collection both times |
| `Reconcile.NormalSuccessExample` | ymir/web/src/models/__test__/dataset.test.js:240-267 | the three-item case: `hash1` to 45, `hash2` unchanged, `hash3` to state 3, progress 100 and a forced update |
| `Reconcile.EmptySuccessExample` | ymir/web/src/models/__test__/dataset.test.js:268-289 | the same three items with no payload come back as they were |
| `HotRanking.Ids` | ymir/web/src/models/__test__/dataset.test.js:296-297 | the requested ids are the pairs' ids, in rank order |
| `HotRanking.Zip` | ymir/web/src/models/__test__/dataset.test.js:296-298 | entry `i` is detail `i` with the count of pair `i`, up to the shorter list |
| `HotRanking.AfterStats` | ymir/web/src/models/__test__/dataset.test.js:290-350 | the first stage finishes with `[]`, and asks for details exactly when the stats call succeeded with a non-empty list; it then asks for those pairs' ids |
| `HotRanking.AfterDetails` | ymir/web/src/models/__test__/dataset.test.js:306-331 | a missing detail list gives `[]`; with one detail per pair, entry `i` is detail `i` with the count of pair `i`, in the pairs' order |
| `HotRanking.GetHotDatasets` | ymir/web/src/models/__test__/dataset.test.js:290-350 | a failed stats call, an empty stats list and a missing detail list each give `[]`; otherwise, with one detail per pair, the ranking has the pairs' length and order and entry `i` is detail `i` with count `i` |
| `HotRanking.HappyPath` | ymir/web/src/models/__test__/dataset.test.js:290-310 | with one detail per pair, the ranking has the pairs' length and order, each entry being that pair's detail with its count |
| `HotRanking.UnzipRoundTrip` | ymir/web/src/models/__test__/dataset.test.js:296-298 | unzipping the ranking gives back the details, and its counts are the pairs' counts in order |
| `HotRanking.EmptyStatsShortCircuits` | ymir/web/src/models/__test__/dataset.test.js:332-350 | an empty stats list ends at the first stage with `[]` |
| `HotRanking.FailedStatsYieldsEmpty` | ymir/web/src/models/__test__/dataset.test.js:21 | a failed stats call yields `[]` whatever the lookup would give |
| `HotRanking.MissingDetailsYieldEmpty` | ymir/web/src/models/__test__/dataset.test.js:311-331 | an `undefined` detail list yields `[]` |
| `HotRanking.FailedLookupYieldsEmpty` | ymir/web/src/models/__test__/dataset.test.js:311-331 | a failed `batchDatasets` lookup degrades the ranking to `[]` |
| `HotRanking.LookupAsksForRankedIds` | ymir/web/src/models/__test__/dataset.test.js:294-305 | a non-empty stats list asks the lookup for exactly its ids, in rank order |
| `HotRanking.HotDatasetsExamples` | ymir/web/src/models/__test__/dataset.test.js:290-350 | the three cases: details present, details `undefined`, stats empty |

## Left out

- `Reconcile.ReconcileItem`: a notification whose state is lower than the item's state is not fixed by any test. The function must give some result, so it updates the progress and keeps the state. No lemma states this case.
- `Reconcile.SameStateTakesProgress`: keeps a `forceUpdate` flag that an item already had. The tests only show items without the flag.
- `HotRanking.Zip`: the tests do not fix what happens when the detail list and the pairs differ in length. The model stops at the shorter list, and `HotRanking.HappyPath` assumes one detail per pair. The lookup is assumed to keep the requested order.
- The store writes are not modelled: the `UPDATE_DATASETS`, `UPDATE_DATASET`, `UPDATE_ASSETS`, `UPDATE_ASSET` and `UPDATE_PUBLICDATASETS` reducers, and the dispatches of the list-shaped pass-through effects. Each replaces one slice of the store with its payload.
- The redux-saga effect objects and generator stepping are framework plumbing. The HTTP service calls and the error notification channel of `./func` are I/O and foreign code. They are replaced by the envelope values the effects receive.
- The request parameters are not modelled. This includes the comma-joined id string that `batchDatasets` forwards unchanged, and the `limit` of the stats call.
- `Reconcile.Round`: the tests fix only `0.45` to `45`. Rounding halves up is the model's reading of "nearest"; how halves round is not pinned.
- JavaScript floating point is not modelled: in JavaScript, `0.45 * 100` is `45.00000000000001`. `percent` is an exact real here.
- Concurrent reconciliations, where the last write wins, are not modelled. The model reconciles one snapshot at a time.
- `ymir/backend/src/ymir-monitor/monitor/schemas/task.py` is not part of this model. It holds declarative schemas whose only logic checks the filesystem.
