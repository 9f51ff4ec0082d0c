/** The fields of the stream custom resource's spec that the core reads. */
module Resource {
  import opened Wrappers

  /** Tags as the resource holds them: a Go map[string]*string. */
  type TagMap = map<string, Option<string>>

  /** `ko.Spec` of a stream resource; every pointer field may be nil. */
  datatype StreamSpec = StreamSpec(
    name: Option<string>,
    retentionPeriodHours: Option<int>,
    encryptionType: Option<string>,
    keyID: Option<string>,
    tags: TagMap)
}
