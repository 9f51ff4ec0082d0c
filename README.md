# Kinesis stream controller: tag sync and stream updates

This project models, in Dafny, the decision logic of the Kubernetes
controller for Kinesis streams: given the latest and the desired spec of a
stream resource, which Kinesis API calls the controller issues, with which
arguments, and which error it returns.

Three source files form the model:

- `pkg/resource/tags/sync.go` (module `Tags`, `tags.dfy`). The delta between two tag maps
  (`computeTagsDelta`), the nil-tolerant value comparison (`equalStrings`),
  the Remove-then-Add tag sync (`SyncResourceTags`), and the fold of a
  ListTagsForStream response into a map (`GetResourceTags`).
- `pkg/resource/stream/update.go` (module `StreamUpdate`, `update.dfy`). The retention period
  update (validate, then Increase, Decrease or nothing), the two encryption
  predicates, and the encryption update (validate the type/KeyID pairing,
  then Stop, Start or nothing).
- `pkg/resource/stream/hooks.go` (module `StreamHooks`, `hooks.dfy`). The ACTIVE status
  test and the two tag hooks.

The Kinesis SDK client is an abstract sink (module `Kinesis`, `kinesis.dfy`).
Every request is a `Call` value carrying its arguments. A `Client` value
supplies the answer: `respond` gives the error a call fails with, if any, and
`listing` gives the tags ListTagsForStream reports. Each modelled operation
returns the calls it issued, in order, and the error it returns. The resource
spec is `Resource.StreamSpec` (`resource.dfy`). Go pointers that may be nil
are `Wrappers.Option` values.

Go's map iteration order is unspecified. The loops of `computeTagsDelta`
therefore pick their next key arbitrarily among the keys not yet visited,
and the contracts hold for every order.

Two behaviours of `updateRetentionPeriodHours` are modelled as the code has
them, not as its error message suggests:

- the upper bound is tested on the latest value, not the desired one;
- a decrease asks for the latest value, not the desired one.

The error message at update.go:28 names the desired value as the one that
must lie in [24, 8760]. The model follows the code, and "## Findings"
records both behaviours.

## Model

| member | source | states |
|---|---|---|
| `Tags.EqualStrings` | pkg/resource/tags/sync.go:136-141 | nil and "" count as the same value; the result is true iff both sides read the same with nil as "", so (nil, nil), (nil, "") and ("", nil) are equal and two set values are equal iff their strings are; a set non-empty value against nil is excluded because the code dereferences nil there |
| `Tags.ComputeTagsDelta` | pkg/resource/tags/sync.go:110-134 | for every iteration order, the added-or-updated map is exactly the desired keys that are new or whose value differs by `EqualStrings`, each with its desired value, and the removed list holds exactly the latest keys missing from desired, each once |
| `Tags.DeltaPerKey` | pkg/resource/tags/sync.go:116-131 | a desired key absent from latest is added with the desired value; a key in both is written iff its values differ, with the desired value; written keys are desired keys; removed keys are exactly latest-only keys; no key is both written and removed |
| `Tags.IdenticalTagsHaveNoDelta` | pkg/resource/tags/sync.go:110-134 | comparing a tag map with itself is always defined and gives an empty map and no removals |
| `Tags.AddedOrUpdatedKeys` | pkg/resource/tags/sync.go:119-131 | the delta's keys are exactly the changed keys, so the delta is empty iff no key changed |
| `Tags.ComputeTagsDeltaAsWritten` | pkg/resource/tags/sync.go:113-133 | with the result map left nil, the function panics iff some key changed, and otherwise returns the nil map and every removed key once; so it returns normally exactly when the delta computed from an empty map is empty |
| `Tags.AddingATagAsWritten` | pkg/resource/tags/sync.go:128-131 | adding one tag to a stream without tags panics as written |
| `Tags.SyncResourceTags` | pkg/resource/tags/sync.go:60-105 | no call when there is nothing to remove or add; otherwise RemoveTagsFromStream first with each removed key once, then AddTagsToStream with the whole delta only if the removal succeeded or was not needed; the first failing call's error is returned and nothing follows it; at most two calls |
| `Tags.GetResourceTags` | pkg/resource/tags/sync.go:35-56 | exactly one ListTagsForStream call for the given name; on failure no map and the same error; on success a map holding exactly the listed keys, each with the value of its last occurrence in the list |
| `Tags.FoldTagsKeys` | pkg/resource/tags/sync.go:51-54 | the keys of the folded map are exactly the keys that occur in the list |
| `Tags.FoldTagsValues` | pkg/resource/tags/sync.go:51-54 | a key's value in the folded map is the value at its last occurrence in the list |
| `Tags.FoldTagsMapsLastOccurrences` | pkg/resource/tags/sync.go:51-55 | the fold satisfies the last-occurrence description of the result |
| `Tags.LastOccurrencesDetermineMap` | pkg/resource/tags/sync.go:51-55 | only one map satisfies that description, so the listed tags fix the result |
| `StreamUpdate.UpdateRetentionPeriodHours` | pkg/resource/stream/update.go:12-50 | nil desired or latest gives no call and no error; desired < 24 or latest > 8760 gives the exact range message and no call; otherwise desired > latest gives one Increase call with the desired hours, desired < latest one Decrease call with the latest hours, equal values no call; a call's error is returned unchanged |
| `StreamUpdate.RetentionAboveMaximumAsWritten` | pkg/resource/stream/update.go:27-39 | desired 9000 hours against latest 100 passes the guard and is sent in an Increase call |
| `StreamUpdate.DecreaseRequestsLatestAsWritten` | pkg/resource/stream/update.go:40-47 | lowering 72 hours to 48 sends a Decrease call asking for 72 |
| `StreamUpdate.UpdateRetentionPeriodHoursIntended` | pkg/resource/stream/update.go:27-47 | with the guard on the desired value and the Decrease call carrying the desired value: nil desired or latest gives no call and no error; the range message is returned iff the desired hours are outside [24, 8760]; in range, desired > latest gives one Increase call and desired < latest one Decrease call, both with the latest name and the desired hours; equal values give no call |
| `StreamUpdate.IsEncryptionDisabled` | pkg/resource/stream/update.go:52-54 | true iff the type is unset, "" or NONE, and then the type is not KMS |
| `StreamUpdate.IsEncryptionEnabled` | pkg/resource/stream/update.go:56-58 | true iff the type is set to KMS, and then the type is not disabled |
| `StreamUpdate.EncryptionStatesExclusive` | pkg/resource/stream/update.go:52-58 | enabled and disabled never hold together; a type other than nil, "", NONE or KMS is neither |
| `StreamUpdate.UpdateStreamEncryption` | pkg/resource/stream/update.go:60-107 | desired KMS without a non-empty KeyID gives "KMS encryption type requires a KeyID", desired disabled with a non-empty KeyID gives "cannot specify KeyID with NONE encryption type", both before any call; latest KMS to desired disabled issues one Stop call with the latest name and KeyID; latest disabled to desired KMS issues one Start call with the desired KeyID; any other valid pairing (KMS to KMS with another key included) issues nothing; at most one call; a call's error is returned unchanged |
| `StreamHooks.IsStreamActive` | pkg/resource/stream/hooks.go:23-29 | true iff the status is set and is exactly ACTIVE, so nil gives false |
| `StreamHooks.GetTags` | pkg/resource/stream/hooks.go:31-33 | lists and folds the tags of the given name just as `Tags.GetResourceTags` does |
| `StreamHooks.GetTagsMatchesGetResourceTags` | pkg/resource/stream/hooks.go:31-33 | any two results that meet the listing contract for the same client and name are equal, so GetTags returns exactly what GetResourceTags returns |
| `StreamHooks.SyncTags` | pkg/resource/stream/hooks.go:35-41 | syncs the tags of the stream named by the latest resource, with the desired tags in the latest-tags slot and the latest tags in the desired-tags slot; so a removal call lists exactly the keys only the desired resource has, each once, and an add call writes only latest keys with their latest values |
| `StreamHooks.SyncTagsDeltaIsReversed` | pkg/resource/stream/hooks.go:40 | with that argument order, the keys removed are those only the desired resource has, and the values written are the latest resource's |

## Findings

| source | as written | input that shows it | evidently intended | confidence | as-written member | corrected member |
|---|---|---|---|---|---|---|
| pkg/resource/tags/sync.go:113 | the named result `addedOrUpdated` is never made, so writing to it at lines 121 and 130 panics | latest tags {}, desired tags {"team": "data"} (`Tags.AddingATagAsWritten`) | the map starts empty and collects the delta | high; not executed | `Tags.ComputeTagsDeltaAsWritten` | `Tags.ComputeTagsDelta` |
| pkg/resource/stream/update.go:27 | the upper bound 8760 is tested on the latest retention | latest 100, desired 9000: an Increase call asking for 9000 (`StreamUpdate.RetentionAboveMaximumAsWritten`) | reject a desired retention above 8760 | high; not executed | `StreamUpdate.UpdateRetentionPeriodHours` | `StreamUpdate.UpdateRetentionPeriodHoursIntended` |
| pkg/resource/stream/update.go:43 | the Decrease call asks for the latest retention | latest 72, desired 48: a Decrease call asking for 72 (`StreamUpdate.DecreaseRequestsLatestAsWritten`) | ask for the desired retention | high; not executed | `StreamUpdate.UpdateRetentionPeriodHours` | `StreamUpdate.UpdateRetentionPeriodHoursIntended` |

`Tags.SyncResourceTags`, and through it `StreamHooks.SyncTags`, use the
corrected delta. The controller code that calls the retention update is not
part of this model, so nothing in the model calls either retention method.

## Left out

- Metrics and tracing (`RecordAPICall`, `rlog.Trace` and the deferred exit call) are observability side effects and are not modelled.
- `context.Context` and the call options are not modelled; the client is the abstract `Kinesis.Client`.
- The responses of the update calls are ignored by the source and are not modelled; only their errors are.
- ListTagsForStream pagination is not modelled; the source reads only the first response page.
- `ackutil.InStrings` is not part of this model; it is taken to be membership in the list of visited keys.
- `Tags.EqualStrings`: a set, non-empty value compared with nil dereferences nil in the source; this case is a precondition, not modelled as a panic.
- `Tags.ComputeTagsDelta`: a desired tag whose value is nil and whose key is new is dereferenced at sync.go:130; the model requires such values to be set.
- `Tags.GetResourceTags`: a listed tag without a key is dereferenced at sync.go:53; the model requires every listed key to be set.
- `StreamHooks.SyncTags`: a latest resource without a name is dereferenced at hooks.go:40; the model requires the name to be set.
- `StreamUpdate.UpdateRetentionPeriodHours`: the narrowing of the retention values to int32 is not modelled; both values are required to fit in int32, where the narrowing changes nothing.
- The Python end-to-end tests (resource loading, polling with sleeps, boto3 calls) are I/O and timing and are not modelled.
- The reconciliation engine, condition reporting, protection of system-reserved tags and the ordering of updates are not implemented in the modelled files and are not modelled.
