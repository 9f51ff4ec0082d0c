/**
 * The part of the Kinesis SDK client that the controller calls, as an
 * abstract sink: every request becomes a `Call` event carrying its
 * arguments, and the client's answer is injected through `Client`.
 */
module Kinesis {
  import opened Wrappers

  /** An error value returned by the client or built with errors.New. */
  datatype Error = Err(message: string)

  /** The encryption types and stream status the controller compares against. */
  const EncryptionTypeNone: string := "NONE"
  const EncryptionTypeKms: string := "KMS"
  const StreamStatusActive: string := "ACTIVE"

  /** One entry of a ListTagsForStream response; both fields are pointers in the SDK. */
  datatype Tag = Tag(key: Option<string>, value: Option<string>)

  /** One request issued to the client, with the arguments the controller fills in. */
  datatype Call =
    | ListTagsForStream(listStream: Option<string>)
    | RemoveTagsFromStream(removeStream: Option<string>, tagKeys: seq<string>)
    | AddTagsToStream(addStream: Option<string>, tags: map<string, string>)
    | IncreaseStreamRetentionPeriod(increaseStream: Option<string>, increaseHours: int)
    | DecreaseStreamRetentionPeriod(decreaseStream: Option<string>, decreaseHours: int)
    | StopStreamEncryption(stopStream: Option<string>, stopType: string, stopKeyId: Option<string>)
    | StartStreamEncryption(startStream: Option<string>, startType: string, startKeyId: Option<string>)

  /**
   * The client's behaviour: `respond` says whether a call fails and with
   * which error; `listing` is the tag list ListTagsForStream reports for a
   * stream when it succeeds.
   */
  datatype Client = Client(respond: Call -> Option<Error>, listing: Option<string> -> seq<Tag>)

  /**
   * Calls are issued until one fails: every call but the last succeeded,
   * and once a call was issued the error returned is the last call's
   * (none when it succeeded).
   */
  predicate StopsAtFirstError(client: Client, calls: seq<Call>, err: Option<Error>) {
    && (forall i :: 0 <= i < |calls| - 1 ==> client.respond(calls[i]).None?)
    && (calls != [] ==> err == client.respond(calls[|calls| - 1]))
  }
}
