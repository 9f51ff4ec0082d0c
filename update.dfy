/**
 * In-place updates of a stream's retention period and server-side
 * encryption (pkg/resource/stream/update.go): each validates the desired
 * spec against the latest one, then issues at most one Kinesis call.
 */
module StreamUpdate {
  import opened Wrappers
  import opened Kinesis
  import opened Resource

  const RetentionRangeMessage: string := "the desired retention period must be between 24 and 8760 hours"
  const KmsRequiresKeyIdMessage: string := "KMS encryption type requires a KeyID"
  const KeyIdWithNoneMessage: string := "cannot specify KeyID with NONE encryption type"

  const MinRetentionHours: int := 24
  const MaxRetentionHours: int := 8760

  // ---------------------------------------------------------------------
  // Retention period
  // ---------------------------------------------------------------------

  /** `x` is a value of Go's int32. */
  predicate FitsInt32(x: int) {
    -0x8000_0000 <= x < 0x8000_0000
  }

  /** The retention period, when set, survives the narrowing to int32 unchanged. */
  predicate RetentionFitsInt32(spec: StreamSpec) {
    spec.retentionPeriodHours.Some? ==> FitsInt32(spec.retentionPeriodHours.value)
  }

  /**
   * updateRetentionPeriodHours as written: the range guard tests the
   * desired value against the lower bound but the latest value against the
   * upper bound, and a decrease asks for the latest value.
   */
  method UpdateRetentionPeriodHours(client: Client, latest: StreamSpec, desired: StreamSpec)
    returns (calls: seq<Call>, err: Option<Error>)
    requires RetentionFitsInt32(latest) && RetentionFitsInt32(desired)
    ensures |calls| <= 1
    ensures StopsAtFirstError(client, calls, err)
    ensures desired.retentionPeriodHours.None? || latest.retentionPeriodHours.None? ==>
              calls == [] && err.None?
    ensures desired.retentionPeriodHours.Some? && latest.retentionPeriodHours.Some? ==>
              var d, l := desired.retentionPeriodHours.value, latest.retentionPeriodHours.value;
              && (d < MinRetentionHours || l > MaxRetentionHours ==>
                    calls == [] && err == Some(Err(RetentionRangeMessage)))
              && (MinRetentionHours <= d && l <= MaxRetentionHours && d > l ==>
                    calls == [IncreaseStreamRetentionPeriod(latest.name, d)])
              && (MinRetentionHours <= d && l <= MaxRetentionHours && d < l ==>
                    calls == [DecreaseStreamRetentionPeriod(latest.name, l)])
              && (MinRetentionHours <= d && l <= MaxRetentionHours && d == l ==>
                    calls == [] && err.None?)
  {
    var desiredRetentionPeriod := desired.retentionPeriodHours;
    var latestRetentionPeriod := latest.retentionPeriodHours;
    var streamName := latest.name;

    if desiredRetentionPeriod.None? || latestRetentionPeriod.None? {
      return [], None;
    }
    var desiredHours := desiredRetentionPeriod.value;
    var latestHours := latestRetentionPeriod.value;

    if desiredHours < MinRetentionHours || latestHours > MaxRetentionHours {
      return [], Some(Err(RetentionRangeMessage));
    }

    if desiredHours > latestHours {
      var call := IncreaseStreamRetentionPeriod(streamName, desiredHours);
      return [call], client.respond(call);
    } else if desiredHours < latestHours {
      var call := DecreaseStreamRetentionPeriod(streamName, latestHours);
      return [call], client.respond(call);
    }
    return [], None;
  }

  /** A desired retention above 8760 hours is sent to Kinesis when the latest one is in range. */
  method RetentionAboveMaximumAsWritten(client: Client) returns (calls: seq<Call>, err: Option<Error>)
    ensures calls == [IncreaseStreamRetentionPeriod(Some("orders"), 9000)]
  {
    var latest := StreamSpec(Some("orders"), Some(100), None, None, map[]);
    var desired := latest.(retentionPeriodHours := Some(9000));
    calls, err := UpdateRetentionPeriodHours(client, latest, desired);
  }

  /** Lowering the retention from 72 to 48 hours asks Kinesis for 72 hours. */
  method DecreaseRequestsLatestAsWritten(client: Client) returns (calls: seq<Call>, err: Option<Error>)
    ensures calls == [DecreaseStreamRetentionPeriod(Some("orders"), 72)]
  {
    var latest := StreamSpec(Some("orders"), Some(72), None, None, map[]);
    var desired := latest.(retentionPeriodHours := Some(48));
    calls, err := UpdateRetentionPeriodHours(client, latest, desired);
  }

  /** The hours a retention call asks for. */
  function RequestedHours(call: Call): int
    requires call.IncreaseStreamRetentionPeriod? || call.DecreaseStreamRetentionPeriod?
  {
    if call.IncreaseStreamRetentionPeriod? then call.increaseHours else call.decreaseHours
  }

  /**
   * The retention update as its error message describes it: the desired
   * value must lie in [24, 8760], and whichever call is issued asks for
   * the desired value.
   */
  method UpdateRetentionPeriodHoursIntended(client: Client, latest: StreamSpec, desired: StreamSpec)
    returns (calls: seq<Call>, err: Option<Error>)
    requires RetentionFitsInt32(latest) && RetentionFitsInt32(desired)
    ensures |calls| <= 1
    ensures StopsAtFirstError(client, calls, err)
    ensures desired.retentionPeriodHours.None? || latest.retentionPeriodHours.None? ==>
              calls == [] && err.None?
    ensures calls != [] ==>
              && desired.retentionPeriodHours.Some?
              && (calls[0].IncreaseStreamRetentionPeriod? || calls[0].DecreaseStreamRetentionPeriod?)
              && RequestedHours(calls[0]) == desired.retentionPeriodHours.value
              && MinRetentionHours <= RequestedHours(calls[0]) <= MaxRetentionHours
    ensures desired.retentionPeriodHours.Some? && latest.retentionPeriodHours.Some? ==>
              var d, l := desired.retentionPeriodHours.value, latest.retentionPeriodHours.value;
              && (d < MinRetentionHours || d > MaxRetentionHours <==>
                    calls == [] && err == Some(Err(RetentionRangeMessage)))
              && (MinRetentionHours <= d <= MaxRetentionHours && d > l ==>
                    calls == [IncreaseStreamRetentionPeriod(latest.name, d)])
              && (MinRetentionHours <= d <= MaxRetentionHours && d < l ==>
                    calls == [DecreaseStreamRetentionPeriod(latest.name, d)])
              && (d == l ==> calls == [] && (err.None? <==> MinRetentionHours <= d <= MaxRetentionHours))
  {
    if desired.retentionPeriodHours.None? || latest.retentionPeriodHours.None? {
      return [], None;
    }
    var desiredHours := desired.retentionPeriodHours.value;
    var latestHours := latest.retentionPeriodHours.value;

    if desiredHours < MinRetentionHours || desiredHours > MaxRetentionHours {
      return [], Some(Err(RetentionRangeMessage));
    }

    if desiredHours > latestHours {
      var call := IncreaseStreamRetentionPeriod(latest.name, desiredHours);
      return [call], client.respond(call);
    } else if desiredHours < latestHours {
      var call := DecreaseStreamRetentionPeriod(latest.name, desiredHours);
      return [call], client.respond(call);
    }
    return [], None;
  }

  // ---------------------------------------------------------------------
  // Encryption
  // ---------------------------------------------------------------------

  /** Unset, empty and NONE all mean the stream is not encrypted. */
  function IsEncryptionDisabled(encryptionType: Option<string>): (r: bool)
    ensures r <==> encryptionType in {None, Some(""), Some(EncryptionTypeNone)}
    ensures r ==> encryptionType != Some(EncryptionTypeKms)
  {
    encryptionType.None? || encryptionType.value == "" || encryptionType.value == EncryptionTypeNone
  }

  /** Only KMS means the stream is encrypted. */
  function IsEncryptionEnabled(encryptionType: Option<string>): (r: bool)
    ensures r ==> !IsEncryptionDisabled(encryptionType)
    ensures r <==> encryptionType == Some(EncryptionTypeKms)
  {
    encryptionType.Some? && encryptionType.value == EncryptionTypeKms
  }

  /** The two predicates never hold together, and a type other than unset, "", NONE or KMS satisfies neither. */
  lemma EncryptionStatesExclusive(encryptionType: Option<string>)
    ensures !(IsEncryptionEnabled(encryptionType) && IsEncryptionDisabled(encryptionType))
    ensures encryptionType.Some? && encryptionType.value !in {"", EncryptionTypeNone, EncryptionTypeKms} ==>
              !IsEncryptionEnabled(encryptionType) && !IsEncryptionDisabled(encryptionType)
  {
  }

  /** A KeyID that is set and non-empty. */
  predicate HasKeyId(keyID: Option<string>) {
    keyID.Some? && keyID.value != ""
  }

  /** The desired type and KeyID pass both validation checks. */
  predicate EncryptionPairingValid(desired: StreamSpec) {
    && !(IsEncryptionEnabled(desired.encryptionType) && !HasKeyId(desired.keyID))
    && !(IsEncryptionDisabled(desired.encryptionType) && HasKeyId(desired.keyID))
  }

  /** Latest KMS and desired disabled: encryption has to be stopped. */
  predicate MustStopEncryption(latest: StreamSpec, desired: StreamSpec) {
    IsEncryptionEnabled(latest.encryptionType) && IsEncryptionDisabled(desired.encryptionType)
  }

  /** Latest disabled and desired KMS: encryption has to be started. */
  predicate MustStartEncryption(latest: StreamSpec, desired: StreamSpec) {
    IsEncryptionDisabled(latest.encryptionType) && IsEncryptionEnabled(desired.encryptionType)
  }

  /**
   * Validates the desired type/KeyID pairing, then stops or starts KMS
   * encryption when the latest and desired settings disagree on whether
   * the stream is encrypted. A change of KMS key alone issues nothing.
   */
  method UpdateStreamEncryption(client: Client, latest: StreamSpec, desired: StreamSpec)
    returns (calls: seq<Call>, err: Option<Error>)
    ensures |calls| <= 1
    ensures StopsAtFirstError(client, calls, err)
    ensures IsEncryptionEnabled(desired.encryptionType) && !HasKeyId(desired.keyID) ==>
              calls == [] && err == Some(Err(KmsRequiresKeyIdMessage))
    ensures IsEncryptionDisabled(desired.encryptionType) && HasKeyId(desired.keyID) ==>
              calls == [] && err == Some(Err(KeyIdWithNoneMessage))
    ensures EncryptionPairingValid(desired) && MustStopEncryption(latest, desired) ==>
              calls == [StopStreamEncryption(latest.name, EncryptionTypeKms, latest.keyID)]
    ensures EncryptionPairingValid(desired) && MustStartEncryption(latest, desired) ==>
              calls == [StartStreamEncryption(latest.name, EncryptionTypeKms, desired.keyID)]
    ensures EncryptionPairingValid(desired) && !MustStopEncryption(latest, desired)
              && !MustStartEncryption(latest, desired) ==>
              calls == [] && err.None?
    ensures forall c :: c in calls && c.StartStreamEncryption? ==> HasKeyId(c.startKeyId)
  {
    var desiredEncryptionType := desired.encryptionType;
    var latestEncryptionType := latest.encryptionType;
    calls := [];

    if IsEncryptionEnabled(desiredEncryptionType) && (desired.keyID.None? || desired.keyID.value == "") {
      return calls, Some(Err(KmsRequiresKeyIdMessage));
    }
    if IsEncryptionDisabled(desiredEncryptionType) && desired.keyID.Some? && desired.keyID.value != "" {
      return calls, Some(Err(KeyIdWithNoneMessage));
    }

    if IsEncryptionEnabled(latestEncryptionType) {
      if IsEncryptionDisabled(desiredEncryptionType) {
        var call := StopStreamEncryption(latest.name, EncryptionTypeKms, latest.keyID);
        calls := calls + [call];
        err := client.respond(call);
        if err.Some? {
          return;
        }
      }
    }

    if IsEncryptionDisabled(latestEncryptionType) {
      if IsEncryptionEnabled(desiredEncryptionType) {
        var call := StartStreamEncryption(latest.name, EncryptionTypeKms, desired.keyID);
        calls := calls + [call];
        err := client.respond(call);
        if err.Some? {
          return;
        }
      }
    }
    return calls, None;
  }
}
