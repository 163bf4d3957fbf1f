/**
 * Expansion as a ledger step: what an accepted expansion batch says about the child units
 * (src/tokenshare/protocol_engine.py:888-1122, 4770-4795; src/tokenshare/storage/events.py:233-244).
 */
module Growth {
  import opened Basics
  import opened Objects
  import opened Ledger
  import opened TaskGraphs
  import opened Expansion
  import opened Steps
  import opened Runs

  lemma {:induction false} ChildDraftAt(q: ExpandRequest, x: Expanding, children: seq<TaskUnit>, i: nat)
    requires i < |children|
    ensures i + 3 < |ExpandDrafts(q, x, children)| && ExpandDrafts(q, x, children)[i + 3] == ChildDraft(children[i])
  {
  }

  /** The ledger refuses a batch that would create one unit id twice. */
  lemma {:induction false} DistinctDraftsDistinctIds(q: ExpandRequest, x: Expanding, children: seq<TaskUnit>)
    requires DistinctKeys(ExpandDrafts(q, x, children))
    ensures Distinct(UnitIds(children))
  {
    forall i, j | 0 <= i < j < |children| ensures UnitIds(children)[i] != UnitIds(children)[j] {
      ChildDraftAt(q, x, children, i);
      ChildDraftAt(q, x, children, j);
      assert ExpandDrafts(q, x, children)[i + 3].key != ExpandDrafts(q, x, children)[j + 3].key;
    }
  }

  /**
   * An expansion that is appended, with child ids the graph does not know yet, leaves a graph that is
   * accepted exactly when every dependency edge names its source output.
   */
  lemma {:induction false} AppendedExpansionKeepsGraph(log: Events, q: ExpandRequest)
    returns (x: Expanding, children: seq<TaskUnit>)
    requires ExpandWrites(log, q).Ok? && After(log, ExpandWrites(log, q)) != log
    requires forall key :: key in SpecKeys(q.proposal.childSpecs) ==>
      ChildUnitId(q.alnum, q.proposalDigest, q.parent.unitId, key) !in q.graph.units
    ensures Expandable(q.graph, x, children, q.parentOutputs, q.strategyChildren) && x.proposal == q.proposal
    ensures FreshIds(q.graph, children)
    ensures GraphOk(ExpandedGraph(q.graph, x, children)) <==> EdgesNamed(q.proposal)
  {
    var selection;
    selection, x, children := ExpandShape(log, q);
    BatchAdds(log, ExpansionBatch(q.decision.decisionId), ExpandDrafts(q, x, children));
    DistinctDraftsDistinctIds(q, x, children);
    forall id | id in UnitIds(children) ensures id !in q.graph.units {
      var i :| 0 <= i < |children| && UnitIds(children)[i] == id;
      ChildIdAt(x, children, i);
      assert SpecKeys(q.proposal.childSpecs)[i] in SpecKeys(q.proposal.childSpecs);
    }
    ExpansionKeepsGraph(q.graph, x, children, q.parentOutputs, q.strategyChildren);
  }

  lemma {:induction false} RepeatedIdsRepeatKeys(q: ExpandRequest, x: Expanding, children: seq<TaskUnit>)
    requires !Distinct(UnitIds(children))
    ensures !DistinctKeys(ExpandDrafts(q, x, children)) && ExpandDrafts(q, x, children) != []
  {
    if DistinctKeys(ExpandDrafts(q, x, children)) { DistinctDraftsDistinctIds(q, x, children); }
  }

  lemma {:induction false} RepeatedKeysAreRefused(log: Events, id: BatchId, drafts: seq<Draft>)
    requires drafts != [] && !DistinctKeys(drafts)
    ensures Commit(log, [Batch(id, drafts)]) == log && !Commits(log, [Batch(id, drafts)])
  {
  }

  lemma {:induction false} CollidingIds(x: Expanding, children: seq<TaskUnit>, i: nat, j: nat)
    requires ChildUnits(x, x.proposal.childSpecs) == Ok(children) && i < j < |x.proposal.childSpecs|
    requires Sanitize(x.alnum, x.proposal.childSpecs[i].childKey)
      == Sanitize(x.alnum, x.proposal.childSpecs[j].childKey)
    ensures !Distinct(UnitIds(children))
  {
    ChildIdAt(x, children, i);
    ChildIdAt(x, children, j);
    ChildIdsCollide(x.alnum, x.proposalDigest, x.parent.unitId, x.proposal.childSpecs[i].childKey,
                    x.proposal.childSpecs[j].childKey);
    assert UnitIds(children)[i] == UnitIds(children)[j];
  }

  /** Two children whose keys sanitize to one id are never created: such an expansion raises and appends nothing. */
  lemma {:induction false} CollidingChildrenAreRefused(log: Events, q: ExpandRequest, i: nat, j: nat)
    requires ExpandWrites(log, q).Ok? && i < j < |q.proposal.childSpecs|
    requires Sanitize(q.alnum, q.proposal.childSpecs[i].childKey)
      == Sanitize(q.alnum, q.proposal.childSpecs[j].childKey)
    ensures After(log, ExpandWrites(log, q)) == log && !Commits(log, ExpandWrites(log, q).value)
  {
    var _, x, children := ExpandShape(log, q);
    CollidingIds(x, children, i, j);
    RepeatedIdsRepeatKeys(q, x, children);
    RepeatedKeysAreRefused(log, ExpansionBatch(q.decision.decisionId), ExpandDrafts(q, x, children));
  }
}
