/**
 * Snapshots in event payloads: the printers of src/tokenshare/core/models.py and the readers of
 * src/tokenshare/protocol_engine.py:2180-2346. A wire record holds the JSON value of every key a
 * printer writes; a key that is absent reads like null, except the ordinal, which has a default.
 */
module Snapshots {
  import opened Basics
  import opened Objects

  /** The JSON object of an artifact reference; None is an absent key. */
  datatype ArtifactWire = ArtifactWire(
    schemaVersion: Option<Json>, artifactId: Option<Json>, artifactType: Option<Json>, uri: Option<Json>,
    contentHash: Option<Json>, sizeBytes: Option<Json>, mediaType: Option<Json>, artifactSchemaId: Option<Json>,
    artifactSchemaVersion: Option<Json>, source: Option<Json>, metadata: Option<Json>, createdAt: Option<Json>)

  /** A field that should hold an artifact reference. */
  datatype RefValue = NoRef | Ref(wire: ArtifactWire) | MalformedRef

  datatype RefsValue = NoRefs | Refs(wires: map<string, ArtifactWire>) | MalformedRefs

  datatype AttemptWire = AttemptWire(
    schemaVersion: Json, attemptId: Json, taskId: Json, unitId: Json, leaseId: Json, clientId: Json, state: Json,
    attemptKind: Json, createdAt: Json, startedAt: Json, submittedAt: Json, finishedAt: Json,
    environmentSummary: Json, inputArtifactRefs: RefsValue, rawOutputRef: RefValue, parsedOutputRef: RefValue,
    candidateOutputRefs: RefsValue, logRef: RefValue, failureKind: Json, failureReason: Json,
    supersededByAttemptId: Json, metadata: Json, attemptOrdinal: Option<Json>)

  datatype LeaseWire = LeaseWire(
    schemaVersion: Json, leaseId: Json, taskId: Json, unitId: Json, attemptId: Json, clientId: Json, state: Json,
    fencingToken: Json, issuedAt: Json, expiresAt: Json, lastHeartbeatAt: Json, heartbeatCount: Json, leaseKind: Json,
    terminatedAt: Json, terminatedReason: Json, metadata: Json, attemptOrdinal: Option<Json>, bindingDigest: Json)

  // ---------------------------------------------------------------- printers

  function PrintText(text: Option<string>): Json {
    if text.Some? then Str(text.value) else Null
  }

  function PrintArtifact(a: ArtifactRef): ArtifactWire {
    ArtifactWire(
      Some(Str(a.schemaVersion)), Some(Str(a.artifactId)), Some(Str(a.artifactType)), Some(Str(a.uri)),
      Some(Str(a.contentHash)), Some(Num(a.sizeBytes)), Some(Str(a.mediaType)), Some(Str(a.artifactSchemaId)),
      Some(Str(a.artifactSchemaVersion)), Some(Obj(a.source)), Some(Obj(a.metadata)), Some(Str(a.createdAt)))
  }

  function PrintRef(r: Option<ArtifactRef>): RefValue {
    if r.Some? then Ref(PrintArtifact(r.value)) else NoRef
  }

  function PrintRefs(refs: Option<OutputRefs>): RefsValue {
    Refs(map name | name in refs.GetOr(map[]) :: PrintArtifact(refs.GetOr(map[])[name]))
  }

  function PrintAttemptState(state: AttemptState): string {
    match state
    case Created => "Created"
    case Running => "Running"
    case Submitted => "Submitted"
    case Verifying => "Verifying"
    case Verified => "Verified"
    case Canonical => "Canonical"
    case Rejected => "Rejected"
    case Failed => "Failed"
    case Superseded => "Superseded"
  }

  function PrintLeaseState(state: LeaseState): string {
    match state
    case Active => "Active"
    case Released => "Released"
    case Expired => "Expired"
    case Revoked => "Revoked"
  }

  function PrintAttempt(a: Attempt): AttemptWire {
    AttemptWire(
      Str(a.schemaVersion), Str(a.attemptId), Str(a.taskId), Str(a.unitId), Str(a.leaseId), Str(a.clientId),
      Str(PrintAttemptState(a.state)), Str(a.attemptKind), Str(a.createdAt), PrintText(a.startedAt),
      PrintText(a.submittedAt), PrintText(a.finishedAt), Obj(a.environmentSummary.GetOr(map[])),
      PrintRefs(a.inputArtifactRefs), PrintRef(a.rawOutputRef), PrintRef(a.parsedOutputRef),
      PrintRefs(a.candidateOutputRefs), PrintRef(a.logRef), PrintText(a.failureKind),
      PrintText(a.failureReason), PrintText(a.supersededByAttemptId), Obj(a.metadata.GetOr(map[])),
      Some(Num(a.attemptOrdinal)))
  }

  function PrintLease(l: Lease): LeaseWire {
    LeaseWire(
      Str(l.schemaVersion), Str(l.leaseId), Str(l.taskId), Str(l.unitId), Str(l.attemptId), Str(l.clientId),
      Str(PrintLeaseState(l.state)), Str(l.fencingToken), Str(l.issuedAt), Str(l.expiresAt),
      PrintText(l.lastHeartbeatAt), Num(l.heartbeatCount), Str(l.leaseKind), PrintText(l.terminatedAt),
      PrintText(l.terminatedReason), Obj(l.metadata), Some(Num(l.attemptOrdinal)), PrintText(l.bindingDigest))
  }

  // ---------------------------------------------------------------- readers

  function RequiredText(j: Json): Result<string> {
    if j.Str? && |j.s| > 0 then Ok(j.s) else Err(MalformedSnapshot)
  }

  function OptionalText(j: Json): Result<Option<string>> {
    match j
    case Null => Ok(None)
    case Str(s) => Ok(Some(s))
    case _ => Err(MalformedSnapshot)
  }

  function ObjectField(j: Json): Result<JsonObject> {
    match j
    case Null => Ok(map[])
    case Obj(fields) => Ok(fields)
    case _ => Err(MalformedSnapshot)
  }

  function NonNegative(j: Json): Result<int> {
    if j.Num? && j.n >= 0 then Ok(j.n) else Err(MalformedSnapshot)
  }

  /** A key that `ArtifactRef.from_dict` demands. */
  function DemandedText(j: Option<Json>): Result<string> {
    if j.Some? && j.value.Str? then Ok(j.value.s) else Err(MalformedSnapshot)
  }

  /** A key with a default. */
  function DefaultedObject(j: Option<Json>): Result<JsonObject> {
    match j
    case None => Ok(map[])
    case Some(Obj(fields)) => Ok(fields)
    case _ => Err(MalformedSnapshot)
  }

  function DefaultedText(j: Option<Json>, default: string): Result<string> {
    if j.None? then Ok(default) else DemandedText(j)
  }

  predicate WellShapedArtifact(w: ArtifactWire) {
    && DemandedText(w.artifactId).Ok? && DemandedText(w.artifactType).Ok? && DemandedText(w.uri).Ok?
    && DemandedText(w.contentHash).Ok? && w.sizeBytes.Some? && w.sizeBytes.value.Num? && DemandedText(w.mediaType).Ok?
    && DemandedText(w.artifactSchemaId).Ok? && DemandedText(w.artifactSchemaVersion).Ok?
    && DefaultedObject(w.source).Ok? && DefaultedObject(w.metadata).Ok? && DemandedText(w.createdAt).Ok?
    && DefaultedText(w.schemaVersion, "ArtifactRef.v1").Ok?
  }

  /** `ArtifactRef.from_dict`. */
  function ReadArtifact(w: ArtifactWire): Result<ArtifactRef> {
    if !WellShapedArtifact(w) then Err(MalformedSnapshot)
    else Ok(ArtifactRef(
      DemandedText(w.artifactId).value, DemandedText(w.artifactType).value, DemandedText(w.uri).value,
      DemandedText(w.contentHash).value, w.sizeBytes.value.n, DemandedText(w.mediaType).value,
      DemandedText(w.artifactSchemaId).value, DemandedText(w.artifactSchemaVersion).value,
      DefaultedObject(w.source).value, DefaultedObject(w.metadata).value, DemandedText(w.createdAt).value,
      DefaultedText(w.schemaVersion, "ArtifactRef.v1").value))
  }

  function ReadRef(v: RefValue): Result<Option<ArtifactRef>> {
    match v
    case NoRef => Ok(None)
    case Ref(w) =>
      var r :- ReadArtifact(w);
      Ok(Some(r))
    case MalformedRef => Err(MalformedSnapshot)
  }

  function ReadRefs(v: RefsValue): Result<OutputRefs> {
    match v
    case NoRefs => Ok(map[])
    case Refs(wires) =>
      if forall name :: name in wires ==> WellShapedArtifact(wires[name])
      then Ok(map name | name in wires :: ReadArtifact(wires[name]).value)
      else Err(MalformedSnapshot)
    case MalformedRefs => Err(MalformedSnapshot)
  }

  function ReadAttemptState(text: string): Result<AttemptState> {
    if text == "Created" then Ok(AttemptState.Created)
    else if text == "Running" then Ok(AttemptState.Running)
    else if text == "Submitted" then Ok(AttemptState.Submitted)
    else if text == "Verifying" then Ok(AttemptState.Verifying)
    else if text == "Verified" then Ok(AttemptState.Verified)
    else if text == "Canonical" then Ok(AttemptState.Canonical)
    else if text == "Rejected" then Ok(AttemptState.Rejected)
    else if text == "Failed" then Ok(AttemptState.Failed)
    else if text == "Superseded" then Ok(AttemptState.Superseded)
    else Err(UnknownState)
  }

  function ReadLeaseState(text: string): Result<LeaseState> {
    if text == "Active" then Ok(Active)
    else if text == "Released" then Ok(Released)
    else if text == "Expired" then Ok(Expired)
    else if text == "Revoked" then Ok(Revoked)
    else Err(UnknownState)
  }

  function Ordinal(j: Option<Json>): Result<int> {
    if j.None? then Ok(0) else NonNegative(j.value)
  }

  /** Every field the attempt reader looks at has the right shape. */
  predicate WellShapedAttempt(w: AttemptWire) {
    && RequiredText(w.attemptId).Ok? && RequiredText(w.taskId).Ok? && RequiredText(w.unitId).Ok?
    && RequiredText(w.leaseId).Ok? && RequiredText(w.clientId).Ok?
    && RequiredText(w.state).Ok? && ReadAttemptState(RequiredText(w.state).value).Ok?
    && RequiredText(w.attemptKind).Ok? && RequiredText(w.createdAt).Ok? && RequiredText(w.schemaVersion).Ok?
    && OptionalText(w.startedAt).Ok? && OptionalText(w.submittedAt).Ok? && OptionalText(w.finishedAt).Ok?
    && ObjectField(w.environmentSummary).Ok? && ObjectField(w.metadata).Ok?
    && ReadRefs(w.inputArtifactRefs).Ok? && ReadRefs(w.candidateOutputRefs).Ok?
    && ReadRef(w.rawOutputRef).Ok? && ReadRef(w.parsedOutputRef).Ok? && ReadRef(w.logRef).Ok?
    && OptionalText(w.failureKind).Ok? && OptionalText(w.failureReason).Ok?
    && OptionalText(w.supersededByAttemptId).Ok? && Ordinal(w.attemptOrdinal).Ok?
  }

  function ReadAttempt(w: AttemptWire): Result<Attempt> {
    if !WellShapedAttempt(w) then Err(MalformedSnapshot)
    else Ok(Attempt(
      RequiredText(w.attemptId).value, RequiredText(w.taskId).value, RequiredText(w.unitId).value,
      RequiredText(w.leaseId).value, RequiredText(w.clientId).value,
      ReadAttemptState(RequiredText(w.state).value).value, RequiredText(w.attemptKind).value,
      RequiredText(w.createdAt).value, OptionalText(w.startedAt).value, OptionalText(w.submittedAt).value,
      OptionalText(w.finishedAt).value, Some(ObjectField(w.environmentSummary).value),
      Some(ReadRefs(w.inputArtifactRefs).value), ReadRef(w.rawOutputRef).value, ReadRef(w.parsedOutputRef).value,
      Some(ReadRefs(w.candidateOutputRefs).value), ReadRef(w.logRef).value, OptionalText(w.failureKind).value,
      OptionalText(w.failureReason).value, OptionalText(w.supersededByAttemptId).value,
      Some(ObjectField(w.metadata).value), Ordinal(w.attemptOrdinal).value, RequiredText(w.schemaVersion).value))
  }

  /** Every field the lease reader looks at has the right shape. */
  predicate WellShapedLease(w: LeaseWire) {
    && NonNegative(w.heartbeatCount).Ok? && Ordinal(w.attemptOrdinal).Ok?
    && RequiredText(w.leaseId).Ok? && RequiredText(w.taskId).Ok? && RequiredText(w.unitId).Ok?
    && RequiredText(w.attemptId).Ok? && RequiredText(w.clientId).Ok?
    && RequiredText(w.state).Ok? && ReadLeaseState(RequiredText(w.state).value).Ok?
    && RequiredText(w.fencingToken).Ok? && RequiredText(w.issuedAt).Ok? && RequiredText(w.expiresAt).Ok?
    && RequiredText(w.leaseKind).Ok? && RequiredText(w.schemaVersion).Ok?
    && OptionalText(w.lastHeartbeatAt).Ok? && OptionalText(w.terminatedAt).Ok?
    && OptionalText(w.terminatedReason).Ok? && OptionalText(w.bindingDigest).Ok? && ObjectField(w.metadata).Ok?
  }

  function ReadLease(w: LeaseWire): Result<Lease> {
    if !WellShapedLease(w) then Err(MalformedSnapshot)
    else Ok(Lease(
      RequiredText(w.leaseId).value, RequiredText(w.taskId).value, RequiredText(w.unitId).value,
      RequiredText(w.attemptId).value, RequiredText(w.clientId).value,
      ReadLeaseState(RequiredText(w.state).value).value, RequiredText(w.fencingToken).value,
      RequiredText(w.issuedAt).value, RequiredText(w.expiresAt).value, OptionalText(w.lastHeartbeatAt).value,
      NonNegative(w.heartbeatCount).value, RequiredText(w.leaseKind).value, OptionalText(w.terminatedAt).value,
      OptionalText(w.terminatedReason).value, ObjectField(w.metadata).value, Ordinal(w.attemptOrdinal).value,
      OptionalText(w.bindingDigest).value, RequiredText(w.schemaVersion).value))
  }

  // ---------------------------------------------------------------- round trips

  /** What printing forgets: an absent map prints as an empty one. */
  function Normalized(a: Attempt): Attempt {
    a.(environmentSummary := Some(a.environmentSummary.GetOr(map[])),
       inputArtifactRefs := Some(a.inputArtifactRefs.GetOr(map[])),
       candidateOutputRefs := Some(a.candidateOutputRefs.GetOr(map[])),
       metadata := Some(a.metadata.GetOr(map[])))
  }

  /** The attempts whose snapshot can be read back. */
  predicate AttemptReadable(a: Attempt) {
    && |a.attemptId| > 0 && |a.taskId| > 0 && |a.unitId| > 0 && |a.leaseId| > 0 && |a.clientId| > 0
    && |a.attemptKind| > 0 && |a.createdAt| > 0 && |a.schemaVersion| > 0 && a.attemptOrdinal >= 0
  }

  /** The leases whose snapshot can be read back. */
  predicate LeaseReadable(l: Lease) {
    && |l.leaseId| > 0 && |l.taskId| > 0 && |l.unitId| > 0 && |l.attemptId| > 0 && |l.clientId| > 0
    && |l.fencingToken| > 0 && |l.issuedAt| > 0 && |l.expiresAt| > 0 && |l.leaseKind| > 0 && |l.schemaVersion| > 0
    && l.heartbeatCount >= 0 && l.attemptOrdinal >= 0
  }

  lemma {:induction false} AttemptStateRoundTrip(state: AttemptState)
    ensures ReadAttemptState(PrintAttemptState(state)) == Ok(state) && |PrintAttemptState(state)| > 0
  {
  }

  lemma {:induction false} LeaseStateRoundTrip(state: LeaseState)
    ensures ReadLeaseState(PrintLeaseState(state)) == Ok(state) && |PrintLeaseState(state)| > 0
  {
  }

  /** A printed artifact reference reads back as itself, keys with defaults included. */
  lemma {:induction false} ArtifactRoundTrip(a: ArtifactRef)
    ensures WellShapedArtifact(PrintArtifact(a)) && ReadArtifact(PrintArtifact(a)) == Ok(a)
  {
  }

  lemma {:induction false} RefRoundTrip(r: Option<ArtifactRef>)
    ensures ReadRef(PrintRef(r)) == Ok(r)
  {
    if r.Some? { ArtifactRoundTrip(r.value); }
  }

  lemma {:induction false} RefsRoundTrip(refs: Option<OutputRefs>)
    ensures ReadRefs(PrintRefs(refs)) == Ok(refs.GetOr(map[]))
  {
    var names, wires := refs.GetOr(map[]), PrintRefs(refs).wires;
    forall name | name in names
      ensures WellShapedArtifact(wires[name]) && ReadArtifact(wires[name]) == Ok(names[name]) {
      ArtifactRoundTrip(names[name]);
    }
    assert ReadRefs(PrintRefs(refs)).value == names;
  }

  lemma {:induction false} RefsOfAttempt(a: Attempt)
    ensures ReadRef(PrintAttempt(a).rawOutputRef) == Ok(a.rawOutputRef)
    ensures ReadRef(PrintAttempt(a).parsedOutputRef) == Ok(a.parsedOutputRef)
    ensures ReadRef(PrintAttempt(a).logRef) == Ok(a.logRef)
    ensures ReadRefs(PrintAttempt(a).inputArtifactRefs) == Ok(a.inputArtifactRefs.GetOr(map[]))
    ensures ReadRefs(PrintAttempt(a).candidateOutputRefs) == Ok(a.candidateOutputRefs.GetOr(map[]))
  {
    RefRoundTrip(a.rawOutputRef);
    RefRoundTrip(a.parsedOutputRef);
    RefRoundTrip(a.logRef);
    RefsRoundTrip(a.inputArtifactRefs);
    RefsRoundTrip(a.candidateOutputRefs);
  }

  /** `w` is the snapshot of `a`, with the printed state under another name. */
  ghost predicate IsAttemptWire(w: AttemptWire, a: Attempt, stateText: string) {
    && w == PrintAttempt(a).(state := Str(stateText))
    && |stateText| > 0 && ReadAttemptState(stateText) == Ok(a.state)
  }

  lemma {:induction false} ReadableIsWellShaped(w: AttemptWire, a: Attempt, stateText: string)
    requires IsAttemptWire(w, a, stateText) && AttemptReadable(a)
    ensures WellShapedAttempt(w)
  {
    RefsOfAttempt(a);
  }

  lemma {:induction false} WellShapedIsReadable(w: AttemptWire, a: Attempt, stateText: string)
    requires IsAttemptWire(w, a, stateText) && WellShapedAttempt(w)
    ensures AttemptReadable(a)
  {
  }

  lemma {:induction false} ReadsNormalized(w: AttemptWire, a: Attempt, stateText: string)
    requires IsAttemptWire(w, a, stateText) && WellShapedAttempt(w)
    ensures ReadAttempt(w) == Ok(Normalized(a))
  {
    RefsOfAttempt(a);
  }

  /** Reading a printed attempt succeeds exactly when its required fields are there, and gives it back normalized. */
  lemma {:induction false} AttemptRoundTrip(a: Attempt)
    ensures ReadAttempt(PrintAttempt(a)).Ok? <==> AttemptReadable(a)
    ensures AttemptReadable(a) ==> ReadAttempt(PrintAttempt(a)) == Ok(Normalized(a))
  {
    var w, text := PrintAttempt(a), PrintAttemptState(a.state);
    AttemptStateRoundTrip(a.state);
    assert IsAttemptWire(w, a, text);
    if AttemptReadable(a) { ReadableIsWellShaped(w, a, text); }
    if WellShapedAttempt(w) {
      WellShapedIsReadable(w, a, text);
      ReadsNormalized(w, a, text);
    }
  }

  ghost predicate IsLeaseWire(w: LeaseWire, l: Lease, stateText: string) {
    && w == PrintLease(l).(state := Str(stateText))
    && |stateText| > 0 && ReadLeaseState(stateText) == Ok(l.state)
  }

  lemma {:induction false} ReadableLeaseIsWellShaped(w: LeaseWire, l: Lease, stateText: string)
    requires IsLeaseWire(w, l, stateText) && LeaseReadable(l)
    ensures WellShapedLease(w)
  {
  }

  lemma {:induction false} WellShapedLeaseIsReadable(w: LeaseWire, l: Lease, stateText: string)
    requires IsLeaseWire(w, l, stateText) && WellShapedLease(w)
    ensures LeaseReadable(l)
  {
  }

  lemma {:induction false} ReadsLeaseBack(w: LeaseWire, l: Lease, stateText: string)
    requires IsLeaseWire(w, l, stateText) && WellShapedLease(w)
    ensures ReadLease(w) == Ok(l)
  {
  }

  /** Reading a printed lease succeeds exactly when its required fields are there, and gives the lease back. */
  lemma {:induction false} LeaseRoundTrip(l: Lease)
    ensures ReadLease(PrintLease(l)).Ok? <==> LeaseReadable(l)
    ensures LeaseReadable(l) ==> ReadLease(PrintLease(l)) == Ok(l)
  {
    var w, text := PrintLease(l), PrintLeaseState(l.state);
    LeaseStateRoundTrip(l.state);
    assert IsLeaseWire(w, l, text);
    if LeaseReadable(l) { ReadableLeaseIsWellShaped(w, l, text); }
    if WellShapedLease(w) {
      WellShapedLeaseIsReadable(w, l, text);
      ReadsLeaseBack(w, l, text);
    }
  }

  /** Print, read, print is print: a normalized attempt has the snapshot of the original. */
  lemma {:induction false} PrintNormalized(a: Attempt)
    ensures PrintAttempt(Normalized(a)) == PrintAttempt(a) && Normalized(Normalized(a)) == Normalized(a)
  {
  }

  /** Snapshots tell attempts apart exactly up to normalization, so the ledger may compare objects instead. */
  lemma {:induction false} SnapshotsCompareAsObjects(a: Attempt, b: Attempt)
    ensures PrintAttempt(a) == PrintAttempt(b) <==> Normalized(a) == Normalized(b)
  {
    PrintNormalized(a);
    PrintNormalized(b);
    AttemptStateRoundTrip(a.state);
    AttemptStateRoundTrip(b.state);
    RefsOfAttempt(a);
    RefsOfAttempt(b);
  }

  lemma {:induction false} LeaseSnapshotsCompareAsObjects(a: Lease, b: Lease)
    ensures PrintLease(a) == PrintLease(b) <==> a == b
  {
    LeaseStateRoundTrip(a.state);
    LeaseStateRoundTrip(b.state);
  }
}
