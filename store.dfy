/**
 * The store's `issue` slot, the one piece of client state the issue routes
 * change: which issue it holds and whether its data is loaded. Only
 * `loadIssueDetails` touches it, through the 'issue/clear' and
 * 'issue/setIssueId' mutations, and only when the requested issue differs
 * from the one it holds.
 */
module IssueStore {
  import opened Wrappers
  import opened Backend
  import opened Outcomes
  import opened IssueHandlers

  /** The mutations `loadIssueDetails` commits. */
  datatype Mutation = Clear | SetIssueId(issueId: int)

  /** What the slot holds; `issueId` is None after a clear. */
  datatype SlotState = SlotState(issueId: Option<int>, loaded: bool)

  /** The effect of one committed mutation. */
  function Apply(s: SlotState, m: Mutation): SlotState
  {
    match m
    case Clear => SlotState(None, false)
    case SetIssueId(id) => s.(issueId := Some(id))
  }

  /** The effect of committing `ms` in order. */
  function ApplyAll(s: SlotState, ms: seq<Mutation>): SlotState
    decreases |ms|
  {
    if ms == [] then s else ApplyAll(Apply(s, ms[0]), ms[1..])
  }

  /**
   * The mutations `loadIssueDetails(requested)` commits to a slot holding
   * `current`: a clear followed by the new id when they differ (JavaScript's
   * `!=` on ids), nothing otherwise.
   */
  function MutationsFor(current: Option<int>, requested: int): (ms: seq<Mutation>)
    ensures Clear in ms <==> current != Some(requested)
    ensures forall i :: 0 <= i < |ms| && ms[i].SetIssueId? ==> ms[i].issueId == requested && Clear in ms[..i]
    ensures current != Some(requested) ==> |ms| > 0 && ms[|ms| - 1] == SetIssueId(requested)
  {
    if current != Some(requested) then [Clear, SetIssueId(requested)] else []
  }

  /** The slot after `loadIssueDetails(requested)`: the store action marks it loaded when it succeeds. */
  function AfterLoad(s: SlotState, requested: int, server: Server): SlotState
  {
    var t := ApplyAll(s, MutationsFor(s.issueId, requested));
    t.(loaded := t.loaded || server.loadAction(requested).Ok?)
  }

  /**
   * Whatever the slot held, afterwards it holds the requested issue; its
   * cached data survives exactly when it already held that issue.
   */
  lemma AfterLoadHoldsRequested(s: SlotState, requested: int, server: Server)
    ensures AfterLoad(s, requested, server).issueId == Some(requested)
    ensures s.issueId == Some(requested) ==>
      AfterLoad(s, requested, server).loaded == (s.loaded || server.loadAction(requested).Ok?)
    ensures s.issueId != Some(requested) ==>
      AfterLoad(s, requested, server).loaded == server.loadAction(requested).Ok?
  {
    if s.issueId != Some(requested) {
      TwoStepApply(s, requested);
    }
  }

  /** Committing a clear and then an id leaves an unloaded slot holding that id. */
  lemma TwoStepApply(s: SlotState, requested: int)
    ensures ApplyAll(s, [Clear, SetIssueId(requested)]) == SlotState(Some(requested), false)
  {
    var ms := [Clear, SetIssueId(requested)];
    var s1 := Apply(s, Clear);
    assert ms[1..] == [SetIssueId(requested)];
    assert ApplyAll(s, ms) == ApplyAll(s1, [SetIssueId(requested)]);
    assert [SetIssueId(requested)][1..] == [];
    assert ApplyAll(s1, [SetIssueId(requested)]) == ApplyAll(Apply(s1, SetIssueId(requested)), []);
  }

  /** Entering the same issue again commits nothing, so its cached data is never cleared. */
  lemma ReloadCommitsNothing(s: SlotState, requested: int, server: Server)
    ensures MutationsFor(AfterLoad(s, requested, server).issueId, requested) == []
  {
    AfterLoadHoldsRequested(s, requested, server);
  }

  class IssueSlot {
    var issueId: Option<int>
    var loaded: bool
    /** Every mutation committed so far, oldest first. */
    ghost var history: seq<Mutation>

    function State(): SlotState
      reads this
    {
      SlotState(issueId, loaded)
    }

    constructor ()
      ensures State() == SlotState(None, false) && history == []
    {
      issueId, loaded, history := None, false, [];
    }

    /** `store.commit(...)` on the slot. */
    method Commit(m: Mutation)
      modifies this
      ensures State() == Apply(old(State()), m)
      ensures history == old(history) + [m]
    {
      match m {
        case Clear => issueId, loaded := None, false;
        case SetIssueId(id) => issueId := Some(id);
      }
      history := history + [m];
    }

    /**
     * `loadIssueDetails(issueId)`: clear and re-point the slot only when it
     * holds another issue, then dispatch 'issue/load' and show the details.
     */
    method LoadIssueDetails(issueId: int, server: Server) returns (r: Resolution)
      modifies this
      ensures history == old(history) + MutationsFor(old(this.issueId), issueId)
      ensures State() == AfterLoad(old(State()), issueId, server)
      ensures r == IssueDetailsResolution(issueId, server)
    {
      if this.issueId != Some(issueId) {
        Commit(Clear);
        Commit(SetIssueId(issueId));
        TwoStepApply(old(State()), issueId);
      }
      r := IssueDetailsResolution(issueId, server);
      if r.outcome.Shown? {
        loaded := true;
      }
    }
  }
}
