/** Classification of driver errors by their structure. */
module ErrorMap {
  import opened Common

  /** The protocol error codes the classification names. */
  datatype ProtocolError =
    | UnknownServerError | LeaderNotAvailable | NotLeaderOrFollower | RequestTimedOut
    | BrokerNotAvailable | ReplicaNotAvailable | NetworkException | KafkaStorageError
    | NotEnoughReplicas | NotEnoughReplicasAfterAppend | StaleControllerEpoch | NotController
    | UnknownTopicOrPartition | UnknownLeaderEpoch | FencedLeaderEpoch | StaleBrokerEpoch
    | PreferredLeaderNotAvailable | EligibleLeadersNotAvailable | UnstableOffsetCommit
    | ThrottlingQuotaExceeded | ConcurrentTransactions | OutOfOrderSequenceNumber
    | DuplicateSequenceNumber | ReassignmentInProgress | InvalidProducerEpoch | UnknownProducerId
    | MessageTooLarge | RecordListTooLarge | OffsetMetadataTooLarge | InvalidTopicException
    | UnknownTopicId | ResourceNotFound | TopicAlreadyExists | InvalidPartitions
    | InvalidReplicationFactor | InvalidReplicaAssignment | InvalidConfig | InvalidRequest
    | InvalidRecord | CorruptMessage | InvalidFetchSize | InvalidTimestamp
    | UnsupportedForMessageFormat | UnsupportedVersion | UnsupportedCompressionType
    | PolicyViolation | TopicAuthorizationFailed | GroupAuthorizationFailed
    | ClusterAuthorizationFailed | TransactionalIdAuthorizationFailed | SaslAuthenticationFailed
    | UnsupportedSaslMechanism | IllegalSaslState | UnacceptableCredential | SecurityDisabled
    | TopicDeletionDisabled | ListenerNotFound | OffsetOutOfRange | PositionOutOfRange
    | InvalidPrincipalType
    | Unlisted(code: int)

  datatype DriverError =
    | ConnectionError
    | RequestError
    | RetryFailed
    | RequestTimeout
    | InvalidResponse
    | ServerError(code: ProtocolError)
    | OtherError

  /** The codes a retry may cure. */
  predicate IsRetryableCode(code: ProtocolError): (r: bool)
    ensures r <==> code in {
      UnknownServerError, LeaderNotAvailable, NotLeaderOrFollower, RequestTimedOut, BrokerNotAvailable,
      ReplicaNotAvailable, NetworkException, KafkaStorageError, NotEnoughReplicas,
      NotEnoughReplicasAfterAppend, StaleControllerEpoch, NotController, UnknownTopicOrPartition,
      UnknownLeaderEpoch, FencedLeaderEpoch, StaleBrokerEpoch, PreferredLeaderNotAvailable,
      EligibleLeadersNotAvailable, UnstableOffsetCommit, ThrottlingQuotaExceeded, ConcurrentTransactions,
      OutOfOrderSequenceNumber, DuplicateSequenceNumber, ReassignmentInProgress, InvalidProducerEpoch,
      UnknownProducerId}
  {
    match code
    case UnknownServerError | LeaderNotAvailable | NotLeaderOrFollower | RequestTimedOut => true
    case BrokerNotAvailable | ReplicaNotAvailable | NetworkException | KafkaStorageError => true
    case NotEnoughReplicas | NotEnoughReplicasAfterAppend | StaleControllerEpoch | NotController => true
    case UnknownTopicOrPartition | UnknownLeaderEpoch | FencedLeaderEpoch | StaleBrokerEpoch => true
    case PreferredLeaderNotAvailable | EligibleLeadersNotAvailable | UnstableOffsetCommit => true
    case ThrottlingQuotaExceeded | ConcurrentTransactions | OutOfOrderSequenceNumber => true
    case DuplicateSequenceNumber | ReassignmentInProgress | InvalidProducerEpoch | UnknownProducerId => true
    case _ => false
  }

  /** A driver error never reads as the pool having been closed. */
  function MapDriverError(error: DriverError): (r: KafkaError)
    ensures r != Closed
    ensures r == Connection <==> error.ConnectionError? || error.RequestError?
    ensures r == Timeout <==> error.RequestTimeout?
    ensures r == Backend <==>
      error.InvalidResponse? || error.OtherError? || (error.ServerError? && !IsRetryableCode(error.code))
    ensures r == Transient <==> error.RetryFailed? || (error.ServerError? && IsRetryableCode(error.code))
  {
    match error
    case ConnectionError => Connection
    case RequestError => Connection
    case RetryFailed => Transient
    case RequestTimeout => Timeout
    case InvalidResponse => Backend
    case ServerError(code) => if IsRetryableCode(code) then Transient else Backend
    case OtherError => Backend
  }
}
