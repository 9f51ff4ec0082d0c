/**
 * Tag handling of the stream controller (pkg/resource/tags/sync.go):
 * the delta between the latest and the desired tag maps, the calls that
 * bring the stream's tags in line, and the fold of a ListTagsForStream
 * response into a tag map.
 */
module Tags {
  import opened Wrappers
  import opened Kinesis
  import opened Resource

  // ---------------------------------------------------------------------
  // Comparing tag values
  // ---------------------------------------------------------------------

  /** The string a tag pointer stands for, where nil reads as "". */
  function ValueOrEmpty(p: Option<string>): string {
    if p.Some? then p.value else ""
  }

  /** equalStrings dereferences `b` when `a` is set and non-empty, so `b` must then be set. */
  predicate EqualStringsDefined(a: Option<string>, b: Option<string>) {
    !(a.Some? && a.value != "" && b.None?)
  }

  /** Tag value equality where nil and "" are the same value. */
  function EqualStrings(a: Option<string>, b: Option<string>): (r: bool)
    requires EqualStringsDefined(a, b)
    ensures r <==> ValueOrEmpty(a) == ValueOrEmpty(b)
    ensures a.Some? && b.Some? ==> (r <==> a.value == b.value)
  {
    if a.None? then
      b.None? || b.value == ""
    else
      (a.value == "" && b.None?) || a.value == b.value
  }

  // ---------------------------------------------------------------------
  // The delta, as a specification
  // ---------------------------------------------------------------------

  /** No value common to both maps makes equalStrings dereference nil. */
  predicate ComparableTags(latest: TagMap, desired: TagMap) {
    forall k :: k in latest && k in desired ==> EqualStringsDefined(latest[k], desired[k])
  }

  /** Besides, every desired value the delta copies out can be dereferenced. */
  predicate DeltaDefined(latest: TagMap, desired: TagMap) {
    && ComparableTags(latest, desired)
    && forall k :: k in desired && k !in latest ==> desired[k].Some?
  }

  /** The keys whose desired value has to be written: new keys, and common keys whose values differ. */
  function ChangedKeys(latest: TagMap, desired: TagMap): set<string>
    requires ComparableTags(latest, desired)
  {
    set k | k in desired && (k !in latest || !EqualStrings(latest[k], desired[k]))
  }

  /** The added-or-updated tags: each changed key with its desired value. */
  function AddedOrUpdated(latest: TagMap, desired: TagMap): map<string, string>
    requires DeltaDefined(latest, desired)
  {
    map k | k in ChangedKeys(latest, desired) :: desired[k].value
  }

  /** The keys to remove: those only the latest map has. */
  function RemovedKeys(latest: TagMap, desired: TagMap): set<string> {
    latest.Keys - desired.Keys
  }

  /** No key occurs twice in `s`. */
  predicate Distinct(s: seq<string>) {
    forall i, j :: 0 <= i < j < |s| ==> s[i] != s[j]
  }

  /** `keys` enumerates the set `s`, each element once. */
  ghost predicate Enumerates(keys: seq<string>, s: set<string>) {
    && (forall k :: k in keys <==> k in s)
    && Distinct(keys)
  }

  lemma {:induction false} EnumeratesEmpty(keys: seq<string>, s: set<string>)
    requires Enumerates(keys, s)
    ensures keys == [] <==> s == {}
  {
    if s != {} {
      var k :| k in s;
      assert k in keys;
    }
    if keys != [] {
      assert keys[0] in s;
    }
  }

  /** Which keys end up in which output, stated key by key. */
  lemma DeltaPerKey(latest: TagMap, desired: TagMap, k: string)
    requires DeltaDefined(latest, desired)
    ensures k in desired && k !in latest ==>
              k in AddedOrUpdated(latest, desired) && AddedOrUpdated(latest, desired)[k] == desired[k].value
    ensures k in desired && k in latest ==>
              (k in AddedOrUpdated(latest, desired) <==> !EqualStrings(latest[k], desired[k]))
    ensures k in AddedOrUpdated(latest, desired) ==> k in desired && AddedOrUpdated(latest, desired)[k] == desired[k].value
    ensures k in RemovedKeys(latest, desired) <==> k in latest && k !in desired
    ensures !(k in AddedOrUpdated(latest, desired) && k in RemovedKeys(latest, desired))
  {
  }

  /** Comparing a tag map with itself proposes nothing. */
  lemma IdenticalTagsHaveNoDelta(tags: TagMap)
    ensures DeltaDefined(tags, tags)
    ensures AddedOrUpdated(tags, tags) == map[]
    ensures RemovedKeys(tags, tags) == {}
  {
  }

  /** A key is written into the delta exactly when it is a changed key. */
  lemma AddedOrUpdatedKeys(latest: TagMap, desired: TagMap)
    requires DeltaDefined(latest, desired)
    ensures AddedOrUpdated(latest, desired).Keys == ChangedKeys(latest, desired)
    ensures AddedOrUpdated(latest, desired) == map[] <==> ChangedKeys(latest, desired) == {}
  {
  }

  // ---------------------------------------------------------------------
  // computeTagsDelta
  // ---------------------------------------------------------------------

  /**
   * computeTagsDelta with its result map starting empty. Map iteration
   * order is unspecified, so each loop picks its next key arbitrarily
   * among those not yet visited.
   */
  method ComputeTagsDelta(latest: TagMap, desired: TagMap)
    returns (addedOrUpdated: map<string, string>, removed: seq<string>)
    requires DeltaDefined(latest, desired)
    ensures addedOrUpdated == AddedOrUpdated(latest, desired)
    ensures Enumerates(removed, RemovedKeys(latest, desired))
  {
    addedOrUpdated := map[];
    removed := [];
    var visitedKeys: seq<string> := [];
    var rest := latest.Keys;
    label mainLoop:
    while rest != {}
      invariant rest <= latest.Keys
      invariant forall k :: k in visitedKeys <==> k in latest && k !in rest
      invariant forall k :: k in removed <==> k in latest && k !in rest && k !in desired
      invariant Distinct(removed)
      invariant forall k :: k in addedOrUpdated <==>
                  k in latest && k !in rest && k in desired && !EqualStrings(latest[k], desired[k])
      invariant forall k :: k in addedOrUpdated ==> k in desired && addedOrUpdated[k] == desired[k].value
      decreases rest
    {
      var latestKey :| latestKey in rest;
      rest := rest - {latestKey};
      visitedKeys := visitedKeys + [latestKey];
      ghost var addedBefore := addedOrUpdated;
      var unvisited := desired.Keys;
      while unvisited != {}
        invariant unvisited <= desired.Keys
        invariant latestKey !in desired.Keys - unvisited
        invariant addedOrUpdated == addedBefore
        decreases unvisited
      {
        var desiredKey :| desiredKey in unvisited;
        unvisited := unvisited - {desiredKey};
        if latestKey == desiredKey {
          if !EqualStrings(latest[latestKey], desired[desiredKey]) {
            addedOrUpdated := addedOrUpdated[desiredKey := desired[desiredKey].value];
          }
          continue mainLoop;
        }
      }
      removed := removed + [latestKey];
    }
    var pending := desired.Keys;
    while pending != {}
      invariant pending <= desired.Keys
      invariant forall k :: k in addedOrUpdated <==>
                  k in ChangedKeys(latest, desired) && (k in latest || k !in pending)
      invariant forall k :: k in addedOrUpdated ==> k in desired && addedOrUpdated[k] == desired[k].value
      decreases pending
    {
      var desiredKey :| desiredKey in pending;
      pending := pending - {desiredKey};
      if desiredKey !in visitedKeys {
        addedOrUpdated := addedOrUpdated[desiredKey := desired[desiredKey].value];
      }
    }
    assert addedOrUpdated.Keys == AddedOrUpdated(latest, desired).Keys;
  }

  /** How the Go function ends: it returns a nil map and the removed keys, or it panics. */
  datatype GoDeltaOutcome = ReturnedNilMap(removedKeys: seq<string>) | Panicked

  /**
   * computeTagsDelta exactly as written: the named result map is never
   * made, so its first write (an assignment to an entry of a nil map)
   * panics. It returns normally only when no key changed.
   */
  method ComputeTagsDeltaAsWritten(latest: TagMap, desired: TagMap) returns (outcome: GoDeltaOutcome)
    requires ComparableTags(latest, desired)
    ensures outcome.Panicked? <==> ChangedKeys(latest, desired) != {}
    ensures outcome.ReturnedNilMap? ==> Enumerates(outcome.removedKeys, RemovedKeys(latest, desired))
    ensures DeltaDefined(latest, desired) ==>
              (outcome.ReturnedNilMap? <==> AddedOrUpdated(latest, desired) == map[])
  {
    if DeltaDefined(latest, desired) {
      AddedOrUpdatedKeys(latest, desired);
    }
    var removed: seq<string> := [];
    var visitedKeys: seq<string> := [];
    var rest := latest.Keys;
    label mainLoop:
    while rest != {}
      invariant rest <= latest.Keys
      invariant forall k :: k in visitedKeys <==> k in latest && k !in rest
      invariant forall k :: k in removed <==> k in latest && k !in rest && k !in desired
      invariant Distinct(removed)
      invariant forall k :: k in latest && k !in rest && k in desired ==> EqualStrings(latest[k], desired[k])
      decreases rest
    {
      var latestKey :| latestKey in rest;
      rest := rest - {latestKey};
      visitedKeys := visitedKeys + [latestKey];
      var unvisited := desired.Keys;
      while unvisited != {}
        invariant unvisited <= desired.Keys
        invariant latestKey !in desired.Keys - unvisited
        decreases unvisited
      {
        var desiredKey :| desiredKey in unvisited;
        unvisited := unvisited - {desiredKey};
        if latestKey == desiredKey {
          if !EqualStrings(latest[latestKey], desired[desiredKey]) {
            // assignment to an entry of the nil map addedOrUpdated
            assert desiredKey in ChangedKeys(latest, desired);
            return Panicked;
          }
          continue mainLoop;
        }
      }
      removed := removed + [latestKey];
    }
    var pending := desired.Keys;
    while pending != {}
      invariant pending <= desired.Keys
      invariant forall k :: k in desired && k !in pending ==> k in latest
      decreases pending
    {
      var desiredKey :| desiredKey in pending;
      pending := pending - {desiredKey};
      if desiredKey !in visitedKeys {
        // assignment to an entry of the nil map addedOrUpdated
        assert desiredKey in ChangedKeys(latest, desired);
        return Panicked;
      }
    }
    assert ChangedKeys(latest, desired) == {};
    return ReturnedNilMap(removed);
  }

  /** A concrete input that panics as written: adding one tag to an untagged stream. */
  method AddingATagAsWritten() returns (outcome: GoDeltaOutcome)
    ensures outcome.Panicked?
  {
    var desired: TagMap := map["team" := Some("data")];
    assert "team" in ChangedKeys(map[], desired);
    outcome := ComputeTagsDeltaAsWritten(map[], desired);
  }

  // ---------------------------------------------------------------------
  // SyncResourceTags
  // ---------------------------------------------------------------------

  /** The AddTagsToStream step: issued only for a non-empty delta, with the delta as argument. */
  predicate AddStep(client: Client, streamName: string, added: map<string, string>, calls: seq<Call>, err: Option<Error>) {
    if added == map[] then
      calls == [] && err.None?
    else
      calls == [AddTagsToStream(Some(streamName), added)] && err == client.respond(calls[0])
  }

  /**
   * What SyncResourceTags does for the given inputs: a RemoveTagsFromStream
   * call listing the removed keys when there are any, then, only if that
   * call succeeded, the AddTagsToStream step.
   */
  ghost predicate SyncOutcome(client: Client, streamName: string, latestTags: TagMap, desiredTags: TagMap,
                        calls: seq<Call>, err: Option<Error>)
    requires DeltaDefined(latestTags, desiredTags)
  {
    var removed := RemovedKeys(latestTags, desiredTags);
    var added := AddedOrUpdated(latestTags, desiredTags);
    if removed == {} then
      AddStep(client, streamName, added, calls, err)
    else
      && |calls| >= 1
      && calls[0].RemoveTagsFromStream?
      && calls[0].removeStream == Some(streamName)
      && Enumerates(calls[0].tagKeys, removed)
      && if client.respond(calls[0]).Some? then
           calls == [calls[0]] && err == client.respond(calls[0])
         else
           AddStep(client, streamName, added, calls[1..], err)
  }

  /** Removes the tags only `latestTags` has, then adds or updates the ones `desiredTags` changes. */
  method SyncResourceTags(client: Client, streamName: string, latestTags: TagMap, desiredTags: TagMap)
    returns (calls: seq<Call>, err: Option<Error>)
    requires DeltaDefined(latestTags, desiredTags)
    ensures SyncOutcome(client, streamName, latestTags, desiredTags, calls, err)
    ensures StopsAtFirstError(client, calls, err)
    ensures |calls| <= 2
  {
    var addedOrUpdated, removed := ComputeTagsDelta(latestTags, desiredTags);
    EnumeratesEmpty(removed, RemovedKeys(latestTags, desiredTags));
    calls := [];
    if |removed| > 0 {
      var call := RemoveTagsFromStream(Some(streamName), removed);
      calls := calls + [call];
      err := client.respond(call);
      if err.Some? {
        return;
      }
    }
    if |addedOrUpdated| > 0 {
      var call := AddTagsToStream(Some(streamName), addedOrUpdated);
      calls := calls + [call];
      err := client.respond(call);
      if err.Some? {
        return;
      }
    }
    return calls, None;
  }

  // ---------------------------------------------------------------------
  // GetResourceTags
  // ---------------------------------------------------------------------

  /** Every listed tag has a key (the fold dereferences it). */
  predicate KeysPresent(list: seq<Tag>) {
    forall i :: 0 <= i < |list| ==> list[i].key.Some?
  }

  /** The listed tags folded into a map, left to right. */
  function FoldTags(list: seq<Tag>): TagMap
    requires KeysPresent(list)
  {
    if list == [] then map[]
    else
      var last := list[|list| - 1];
      FoldTags(list[..|list| - 1])[last.key.value := last.value]
  }

  /** Position `i` holds the last occurrence of its key. */
  predicate IsLastOccurrence(list: seq<Tag>, i: int)
    requires 0 <= i < |list|
  {
    forall j :: i < j < |list| ==> list[j].key != list[i].key
  }

  /** `m` holds exactly the listed keys, each with the value of its last occurrence. */
  ghost predicate MapsLastOccurrences(list: seq<Tag>, m: TagMap)
    requires KeysPresent(list)
  {
    && (forall k :: k in m <==> exists i :: 0 <= i < |list| && list[i].key == Some(k))
    && (forall i :: 0 <= i < |list| && IsLastOccurrence(list, i) ==>
          list[i].key.value in m && m[list[i].key.value] == list[i].value)
  }

  /** The fold's keys are exactly the listed keys. */
  lemma {:induction false} FoldTagsKeys(list: seq<Tag>)
    requires KeysPresent(list)
    ensures forall k :: k in FoldTags(list) <==> exists i :: 0 <= i < |list| && list[i].key == Some(k)
  {
    if list != [] {
      var n := |list| - 1;
      var prefix := list[..n];
      FoldTagsKeys(prefix);
      forall k
        ensures k in FoldTags(list) <==> exists i :: 0 <= i < |list| && list[i].key == Some(k)
      {
        if k in FoldTags(list) {
          if k == list[n].key.value {
            assert list[n].key == Some(k);
          } else {
            assert k in FoldTags(prefix);
            var i :| 0 <= i < |prefix| && prefix[i].key == Some(k);
            assert list[i].key == Some(k);
          }
        }
        if exists i :: 0 <= i < |list| && list[i].key == Some(k) {
          var i :| 0 <= i < |list| && list[i].key == Some(k);
          if i < n {
            assert prefix[i].key == Some(k);
          }
        }
      }
    }
  }

  /** Each key's value in the fold is that of its last occurrence. */
  lemma {:induction false} FoldTagsValues(list: seq<Tag>)
    requires KeysPresent(list)
    ensures forall i :: 0 <= i < |list| && IsLastOccurrence(list, i) ==>
              list[i].key.value in FoldTags(list) && FoldTags(list)[list[i].key.value] == list[i].value
  {
    if list != [] {
      var n := |list| - 1;
      var prefix := list[..n];
      FoldTagsValues(prefix);
      forall i | 0 <= i < |list| && IsLastOccurrence(list, i)
        ensures list[i].key.value in FoldTags(list) && FoldTags(list)[list[i].key.value] == list[i].value
      {
        if i < n {
          assert list[n].key != list[i].key;
          assert prefix[i] == list[i];
          assert IsLastOccurrence(prefix, i);
        }
      }
    }
  }

  /** The fold keeps, for each listed key, the value of its last occurrence. */
  lemma FoldTagsMapsLastOccurrences(list: seq<Tag>)
    requires KeysPresent(list)
    ensures MapsLastOccurrences(list, FoldTags(list))
  {
    FoldTagsKeys(list);
    FoldTagsValues(list);
  }

  /** Some occurrence of a listed key is its last one. */
  lemma {:induction false} LastOccurrenceExists(list: seq<Tag>, i: int) returns (last: int)
    requires 0 <= i < |list|
    ensures i <= last < |list| && list[last].key == list[i].key && IsLastOccurrence(list, last)
    decreases |list| - i
  {
    if IsLastOccurrence(list, i) {
      last := i;
    } else {
      var j :| i < j < |list| && list[j].key == list[i].key;
      last := LastOccurrenceExists(list, j);
    }
  }

  /** The last-occurrence description leaves no freedom: it fixes the map. */
  lemma {:induction false} LastOccurrencesDetermineMap(list: seq<Tag>, m1: TagMap, m2: TagMap)
    requires KeysPresent(list)
    requires MapsLastOccurrences(list, m1) && MapsLastOccurrences(list, m2)
    ensures m1 == m2
  {
    forall k | k in m1
      ensures k in m2 && m1[k] == m2[k]
    {
      var i :| 0 <= i < |list| && list[i].key == Some(k);
      var last := LastOccurrenceExists(list, i);
    }
    assert m1.Keys == m2.Keys;
  }

  /** The calls and results of listing the tags of `streamName`. */
  ghost predicate ListTagsOutcome(client: Client, streamName: Option<string>,
                            calls: seq<Call>, tags: Option<TagMap>, err: Option<Error>)
    requires KeysPresent(client.listing(streamName))
  {
    && calls == [ListTagsForStream(streamName)]
    && err == client.respond(calls[0])
    && (err.Some? ==> tags.None?)
    && (err.None? ==> tags.Some? && MapsLastOccurrences(client.listing(streamName), tags.value))
  }

  /** Lists the stream's tags and folds them into a map; a failed listing gives no map and the error. */
  method GetResourceTags(client: Client, streamName: Option<string>)
    returns (calls: seq<Call>, tags: Option<TagMap>, err: Option<Error>)
    requires KeysPresent(client.listing(streamName))
    ensures ListTagsOutcome(client, streamName, calls, tags, err)
  {
    var call := ListTagsForStream(streamName);
    calls := [call];
    err := client.respond(call);
    if err.Some? {
      return calls, None, err;
    }
    var response := client.listing(streamName);
    var result: TagMap := map[];
    for i := 0 to |response|
      invariant KeysPresent(response[..i])
      invariant result == FoldTags(response[..i])
    {
      assert response[..i + 1][..i] == response[..i];
      result := result[response[i].key.value := response[i].value];
    }
    assert response[..|response|] == response;
    FoldTagsMapsLastOccurrences(response);
    tags := Some(result);
  }
}
