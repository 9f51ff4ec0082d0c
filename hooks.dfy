/**
 * Resource-manager hooks of the stream controller
 * (pkg/resource/stream/hooks.go): the ACTIVE status test and the two tag
 * hooks, which forward to the tag helpers.
 */
module StreamHooks {
  import opened Wrappers
  import opened Kinesis
  import opened Resource
  import opened Tags

  /** A stream is active only when its status is reported and equals ACTIVE. */
  function IsStreamActive(status: Option<string>): (r: bool)
    ensures r <==> status == Some(StreamStatusActive)
  {
    if status.None? then false else status.value == StreamStatusActive
  }

  /** Reads the stream's tags through GetResourceTags, unchanged. */
  method GetTags(client: Client, streamName: Option<string>)
    returns (calls: seq<Call>, tags: Option<TagMap>, err: Option<Error>)
    requires KeysPresent(client.listing(streamName))
    ensures ListTagsOutcome(client, streamName, calls, tags, err)
  {
    calls, tags, err := GetResourceTags(client, streamName);
  }

  /**
   * Syncs the tags of the stream named by the latest resource. The desired
   * tags go in SyncResourceTags' latest-tags slot and the latest tags in its
   * desired-tags slot, so the delta applied is the one from desired to latest.
   */
  method SyncTags(client: Client, desired: StreamSpec, latest: StreamSpec)
    returns (calls: seq<Call>, err: Option<Error>)
    requires latest.name.Some?
    requires DeltaDefined(desired.tags, latest.tags)
    ensures SyncOutcome(client, latest.name.value, desired.tags, latest.tags, calls, err)
    ensures StopsAtFirstError(client, calls, err)
    ensures calls != [] && calls[0].RemoveTagsFromStream? ==>
              Enumerates(calls[0].tagKeys, desired.tags.Keys - latest.tags.Keys)
    ensures forall c :: c in calls && c.AddTagsToStream? ==>
              forall k :: k in c.tags ==> k in latest.tags && latest.tags[k] == Some(c.tags[k])
  {
    SyncTagsDeltaIsReversed(desired, latest);
    calls, err := SyncResourceTags(client, latest.name.value, desired.tags, latest.tags);
  }

  /**
   * What the argument order of SyncTags means: the keys proposed for
   * removal are those the desired resource has and the latest lacks, and
   * the tags written carry the latest resource's values.
   */
  lemma SyncTagsDeltaIsReversed(desired: StreamSpec, latest: StreamSpec)
    requires DeltaDefined(desired.tags, latest.tags)
    ensures RemovedKeys(desired.tags, latest.tags) == desired.tags.Keys - latest.tags.Keys
    ensures forall k :: k in AddedOrUpdated(desired.tags, latest.tags) ==>
              k in latest.tags && latest.tags[k] == Some(AddedOrUpdated(desired.tags, latest.tags)[k])
  {
  }

  /** GetTags and GetResourceTags, given the same client and stream name, return the same values. */
  lemma GetTagsMatchesGetResourceTags(client: Client, streamName: Option<string>,
                                      calls1: seq<Call>, tags1: Option<TagMap>, err1: Option<Error>,
                                      calls2: seq<Call>, tags2: Option<TagMap>, err2: Option<Error>)
    requires KeysPresent(client.listing(streamName))
    requires ListTagsOutcome(client, streamName, calls1, tags1, err1)
    requires ListTagsOutcome(client, streamName, calls2, tags2, err2)
    ensures calls1 == calls2 && tags1 == tags2 && err1 == err2
  {
    if err1.None? {
      LastOccurrencesDetermineMap(client.listing(streamName), tags1.value, tags2.value);
    }
  }
}
