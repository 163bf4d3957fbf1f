/**
 * The protocol's value objects (src/tokenshare/core/models.py and the record classes of
 * contribution.py, verification.py, merge.py). Timestamps are strings read by a `Clock`;
 * digests are the digested values themselves.
 */
module Objects {
  import opened Basics

  /** A `Digest` is the text of a digest, told apart by what is digested. */
  datatype Json =
    | Null
    | Bool(b: bool)
    | Num(n: int)
    | Str(s: string)
    | Arr(items: seq<Json>)
    | Obj(fields: map<string, Json>)
    | Digest(digested: OutputRefs)

  type JsonObject = map<string, Json>

  type Positive = n: int | n > 0 witness 1

  datatype TaskState =
    | Created | Blocked | Ready | Processing | WaitingForChildren | MergeReady | Merging
    | Completed | MergeFailed | Failed | Cancelled

  datatype LeaseState = Active | Released | Expired | Revoked

  datatype AttemptState =
    | Created | Running | Submitted | Verifying | Verified | Canonical | Rejected | Failed | Superseded

  datatype ContributionState = Pending | Eligible | Invalidated | Settled

  /** Reads and prints UTC timestamps; `Lawful` is what printing then reading must satisfy. */
  datatype Clock = Clock(parse: string -> int, format: int -> string) {
    ghost predicate Lawful() {
      forall t :: parse(format(t)) == t
    }

    function AddSeconds(at: string, seconds: int): string {
      format(parse(at) + seconds)
    }
  }

  datatype ProtocolConfig = ProtocolConfig(
    leaseTtlSeconds: int,
    maxRetries: int,
    allowShadowExecution: bool,
    maxDepth: int,
    maxChildrenPerUnit: int,
    maxTotalUnits: int,
    clock: Clock)

  datatype ArtifactRef = ArtifactRef(
    artifactId: string,
    artifactType: string,
    uri: string,
    contentHash: string,
    sizeBytes: int,
    mediaType: string,
    artifactSchemaId: string,
    artifactSchemaVersion: string,
    source: JsonObject,
    metadata: JsonObject,
    createdAt: string,
    schemaVersion: string)

  type OutputRefs = map<string, ArtifactRef>

  /** `requiredCapabilities` keeps the insertion order of the source's dict. */
  datatype TaskUnit = TaskUnit(
    unitId: string,
    taskId: string,
    parentUnitId: Option<string>,
    depth: int,
    unitType: string,
    state: TaskState,
    inputRefs: OutputRefs,
    canonicalOutputRefs: OutputRefs,
    requiredCapabilities: seq<(string, Json)>,
    createdAt: string,
    updatedAt: string,
    lastAttemptOrdinal: int)

  datatype TaskRelation = TaskRelation(
    relationId: string,
    taskId: string,
    relationType: string,
    sourceUnitId: string,
    targetUnitId: string,
    sourceOutputName: Option<string>,
    targetInputName: Option<string>)

  const DEPENDS_ON_OUTPUT := "depends_on_output"

  datatype ClientRecord = ClientRecord(clientId: string, capabilities: map<string, Json>, status: string)

  /** What the scheduler decided, as the lease event records it. */
  datatype SchedulingDecision = SchedulingDecision(
    decisionId: string,
    taskId: string,
    unitId: string,
    clientId: string,
    matchedCapabilities: seq<string>,
    createdAt: string,
    readyQueueSize: nat,
    clientCount: nat)

  datatype Lease = Lease(
    leaseId: string,
    taskId: string,
    unitId: string,
    attemptId: string,
    clientId: string,
    state: LeaseState,
    fencingToken: string,
    issuedAt: string,
    expiresAt: string,
    lastHeartbeatAt: Option<string>,
    heartbeatCount: int,
    leaseKind: string,
    terminatedAt: Option<string>,
    terminatedReason: Option<string>,
    metadata: JsonObject,
    attemptOrdinal: int,
    bindingDigest: Option<string>,
    schemaVersion: string)

  datatype Attempt = Attempt(
    attemptId: string,
    taskId: string,
    unitId: string,
    leaseId: string,
    clientId: string,
    state: AttemptState,
    attemptKind: string,
    createdAt: string,
    startedAt: Option<string>,
    submittedAt: Option<string>,
    finishedAt: Option<string>,
    environmentSummary: Option<JsonObject>,
    inputArtifactRefs: Option<OutputRefs>,
    rawOutputRef: Option<ArtifactRef>,
    parsedOutputRef: Option<ArtifactRef>,
    candidateOutputRefs: Option<OutputRefs>,
    logRef: Option<ArtifactRef>,
    failureKind: Option<string>,
    failureReason: Option<string>,
    supersededByAttemptId: Option<string>,
    metadata: Option<JsonObject>,
    attemptOrdinal: int,
    schemaVersion: string)

  /** Why a submission was rejected, as its event records it. */
  datatype Rejection =
    | AttemptNotRunning | LeaseEnded | TaskIdMismatch | UnitIdMismatch | AttemptIdMismatch | LeaseIdMismatch
    | FencingTokenMismatch | LeaseDeadlineExceeded

  datatype Submission = Submission(
    submissionId: string,
    taskId: string,
    unitId: string,
    attemptId: string,
    leaseId: string,
    fencingToken: string,
    submittedAt: string,
    environmentSummary: JsonObject,
    rawOutputRef: Option<ArtifactRef>,
    parsedOutputRef: Option<ArtifactRef>,
    candidateOutputRefs: OutputRefs,
    logRef: Option<ArtifactRef>)

  datatype RetryTrigger =
    | LeaseExpired | ExecutorError | ParserFailure | VerificationRejected | CheckerRejected | NoReturn

  datatype RetryDecision = RetryDecision(
    trigger: RetryTrigger,
    retryAllowed: bool,
    nextTaskState: TaskState,
    attemptState: AttemptState,
    retryCount: int)

  datatype VerificationLayer =
    | SchemaCheck | ArtifactIntegrityCheck | RequiredOutputCoverageCheck
    | EvidenceReferenceCheck | PluginDomainCheck | AuditCheck

  datatype LayerStatus = LayerPassed | LayerRejected | LayerError | LayerSkipped

  datatype ReportStatus = Passed | Accepted | Rejected | Error

  /** `bundleDigest` is the digested output map. */
  datatype VerificationReport = VerificationReport(
    reportId: string,
    taskId: string,
    unitId: string,
    attemptId: string,
    submissionId: string,
    submissionSeq: int,
    bundleDigest: OutputRefs,
    candidateOutputRefs: OutputRefs,
    requiredOutputNames: seq<string>,
    validatorPolicyId: string,
    status: ReportStatus,
    eligible: bool,
    layers: map<VerificationLayer, LayerStatus>,
    completedAt: string)

  datatype CanonicalSelection = CanonicalSelection(
    selectionId: string,
    taskId: string,
    unitId: string,
    reportId: string,
    verificationSeq: int,
    submissionId: string,
    submissionSeq: int,
    attemptId: string,
    bundleDigest: OutputRefs,
    outputRefs: OutputRefs,
    consideredReportIds: seq<string>,
    boundAt: string)

  datatype OutputMapping = OutputMapping(parentOutputName: string, resolutionKind: string, mergeSlotKeys: seq<string>)

  const MERGE_PLAN_OUTPUT := "merge_plan_output"

  /** The bundle artifact is the value its reference and digest stand for. */
  datatype MergeInputBundle = MergeInputBundle(
    mergePlanId: string,
    parentUnitId: string,
    bindings: seq<SlotBinding>,
    parentOutputMapping: seq<OutputMapping>)

  const BLOCK_MERGE := "block_merge"

  datatype RequiredSlot = RequiredSlot(
    slotKey: string,
    childKey: string,
    childUnitId: string,
    outputName: string,
    required: bool,
    missingPolicy: string)

  datatype SlotBinding = SlotBinding(
    slotKey: string,
    childUnitId: string,
    outputName: string,
    selectionId: string,
    canonicalSeq: int,
    outputRef: ArtifactRef,
    bundleDigest: OutputRefs,
    reportId: string,
    attemptId: string)

  datatype MergePlan = MergePlan(
    mergePlanId: string,
    taskId: string,
    parentUnitId: string,
    decisionId: string,
    requiredSlots: seq<RequiredSlot>,
    parentOutputMapping: seq<OutputMapping>)

  datatype MergeTaskLink = MergeTaskLink(
    linkId: string,
    taskId: string,
    parentUnitId: string,
    mergePlanId: string,
    mergeUnitId: string,
    bundle: MergeInputBundle,
    bindings: seq<SlotBinding>)

  datatype MergeRecord = MergeRecord(
    recordId: string,
    taskId: string,
    parentUnitId: string,
    mergePlanId: string,
    mergeUnitId: string,
    linkId: string,
    bundle: MergeInputBundle,
    bindings: seq<SlotBinding>,
    selectionId: string,
    canonicalSeq: int,
    reportId: string,
    verificationSeq: int,
    submissionId: string,
    submissionSeq: int,
    attemptId: string,
    outputBundleDigest: OutputRefs,
    outputRefs: OutputRefs,
    mappingDigest: seq<OutputMapping>)

  datatype OutputResolution = OutputResolution(
    taskId: string,
    ownerUnitId: string,
    expectedOutputId: string,
    expectedOutputName: string,
    recordId: string,
    mergePlanId: string,
    mergeUnitId: string,
    selectionId: string,
    outputRef: ArtifactRef,
    outputDigest: string)

  datatype ExpectedOutputRef = ExpectedOutputRef(
    expectedOutputId: string,
    taskId: string,
    ownerUnitId: string,
    outputName: string,
    decisionId: string)

  /** One entry of the digest a parent completion commits to. */
  datatype ResolvedOutput = ResolvedOutput(expectedOutputId: string, outputName: string, outputDigest: string)

  datatype ContributionKind = CompleteCanonical | ExpandCanonical | MergeCanonical

  datatype ContributionRecord = ContributionRecord(
    contributionId: string,
    taskId: string,
    unitId: string,
    kind: ContributionKind,
    state: ContributionState,
    sourceAttemptId: string,
    sourceClientId: string,
    selectionId: string,
    canonicalSeq: int,
    reportId: string,
    verificationSeq: int,
    sourceDecisionId: Option<string>,
    mergeRecordId: Option<string>,
    sourceTerminalSeq: int,
    rewardWeight: Positive,
    createdAt: string,
    updatedAt: string)

  datatype SettlementEntry = SettlementEntry(
    contributionId: string,
    taskId: string,
    unitId: string,
    kind: ContributionKind,
    sourceClientId: string,
    rewardWeight: Positive,
    rewardUnits: int,
    remainderRank: int)

  datatype RootCompletion = RootCompletion(taskId: string, rootUnitId: string, completionSeq: int)

  /** `entriesDigest` is the digested entry list, sorted by contribution id. */
  datatype SettlementRecord = SettlementRecord(
    root: RootCompletion,
    policyId: string,
    rootBudget: int,
    totalReward: int,
    entryCount: int,
    entriesDigest: seq<SettlementEntry>,
    entries: seq<SettlementEntry>,
    createdAt: string)

  datatype PruningPolicy = PruningPolicy(policyId: string, sourceSeq: int)

  datatype SubtreePruneRecord = SubtreePruneRecord(
    taskId: string,
    parentUnitId: string,
    completionSeq: int,
    policy: PruningPolicy,
    cancelledCount: int,
    cancelledIdsDigest: seq<string>,
    preservedCount: int,
    createdAt: string)
}
