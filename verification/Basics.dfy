/** Result and option types shared by every module. */
module Basics {

  datatype Option<+T> = None | Some(value: T) {
    function GetOr(default: T): T {
      match this
      case Some(v) => v
      case None => default
    }
  }

  /** What a step refuses, one name for each kind of ValueError message of the source. */
  datatype Error =
    // ledger
    | EmptyBatch | DuplicateKeyInBatch | KeyConflict | PartialBatch | BatchIdConflict
    // transitions and clocks
    | IllegalUnitTransition | IllegalLeaseTransition | IllegalAttemptTransition | IllegalContributionTransition
    | AlreadySettled | SettlementBatchRequired | LeaseNotActive | LeaseDeadlinePassed | LeaseDeadlineAhead
    | AttemptNotLive | OtherExecution | NegativeRetryCount | NegativeMaxRetries | InvalidRetryDecision
    | OtherRetryDecision | NotLatestSnapshot | AttemptNotRecorded
    // snapshots
    | MalformedSnapshot | UnknownState
    // task graphs
    | InvalidGraph | WrongUnitKey | OtherTask | UnknownUnit | UnnamedDependency | InputBoundTwice | GraphHasCycle
    | TooManyUnits | TooDeep | TooManyChildren
    // scheduling
    | NothingToSchedule | NotCurrentSnapshot | DependenciesMissing | ChildNotFailed | FailureNotRecorded
    // verification and binding
    | AttemptNotSubmitted | ReportOfOtherAttempt | LayerMissing | EligibilityNotEarned | PassedWithoutLayers
    | BundleDigestMismatch | CoverageContradicted | OutputsOfOtherAttempt | VerificationNotRecorded | NoEligibleReport
    | AlreadyBound | SelectedAttemptMissing | SelectedAttemptNotVerified
    // decisions and expansion
    | UnitNotProcessing | OtherAction | SelectionMissing | SelectionMismatch | DocumentsMismatch | MalformedChildSpec
    | DuplicateChildKey | MalformedEdge | OutputsNotCovered | UnknownBindingKind | ArtifactRefMissing
    | ParentOutputMissing | SlotOfOtherChild | MalformedMergeSlot | MalformedExpectedOutput | PromotionGuardFailed
    // merging and parent completion
    | MergePlanMissing | MalformedMergePlan | RepeatedChildSelected | SlotsNotCanonical | SelectionLeavesSlots
    | MergeRecordConflict | MergeBundleMismatch | MergeLinkMismatch | MergeLinkMissing | OutputsNotResolved
    | ResolutionMismatch | ResolutionConflict | CompletionConflict
    // batches read back
    | TornExpansion | TornCompletion | TornResolution | TornSettlement | TornPruning | PruningMarkerMismatch
    // contributions and settlement
    | MergeRecordIncomplete | ClientMissing | DuplicateContribution | ContributionMissing | ContributionMismatch
    | NegativeBudget | NonPositiveSeq | CompletionMissing | SettlementConflict | SettlementEntriesMismatch
    // pruning
    | CandidateConflict | PolicyMismatch | PruningConflict
    // lock and partition
    | LockHeld | EmptyInterval | CountDoesNotFit

  /** `Err` stands for a raised ValueError. */
  datatype Result<+T> = Ok(value: T) | Err(error: Error) {
    predicate IsFailure() { Err? }

    function PropagateFailure<U>(): Result<U>
      requires Err?
    {
      Err(error)
    }

    function Extract(): T
      requires Ok?
    {
      value
    }
  }

  /** A check that raises when its condition does not hold. */
  datatype Outcome = Pass | Fail(error: Error) {
    predicate IsFailure() { Fail? }

    function PropagateFailure<U>(): Result<U>
      requires Fail?
    {
      Err(error)
    }
  }

  function Check(condition: bool, error: Error): Outcome {
    if condition then Pass else Fail(error)
  }

  predicate Distinct<T(==)>(xs: seq<T>) {
    forall i, j :: 0 <= i < j < |xs| ==> xs[i] != xs[j]
  }

  function Elements<T>(xs: seq<T>): set<T> {
    set x | x in xs
  }

  lemma {:induction false} OneMore<T>(xs: seq<T>, x: T)
    ensures Distinct(xs + [x]) <==> Distinct(xs) && x !in xs
    ensures Elements(xs + [x]) == Elements(xs) + {x}
  {
    var longer := xs + [x];
    if Distinct(longer) {
      forall i, j | 0 <= i < j < |xs| ensures xs[i] != xs[j] { assert longer[i] != longer[j]; }
      forall i | 0 <= i < |xs| ensures xs[i] != x { assert longer[i] != longer[|xs|]; }
    }
    assert forall y :: y in longer <==> y in xs || y == x;
  }

  lemma {:induction false} RepeatInPrefix<T>(keys: seq<T>, n: nat)
    requires n <= |keys| && !Distinct(keys[..n])
    ensures !Distinct(keys)
  {
    var i, j :| 0 <= i < j < n && keys[..n][i] == keys[..n][j];
    assert keys[i] == keys[j];
  }

  lemma {:induction false} HasMember<T>(xs: seq<T>)
    requires xs != []
    ensures exists x :: x in xs
  {
    assert xs[0] in xs;
  }
}
