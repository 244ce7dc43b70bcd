/**
 * The sub-agent registry and its control plane: spawning, sending input,
 * status lookup, descendant discovery and the cascading shutdown.
 *
 * The thread manager is modelled as plain state on one object: whether the
 * manager is still alive (the weak handle upgrades), the registry records in
 * listing order, the live threads with their current status, and the set of
 * threads that hold a spawn slot. Operations that reach a live thread take
 * the thread's reply as a parameter.
 */
module AgentControl {
  import opened Wrappers
  import opened Text

  /** Thread ids are compared and printed as their canonical text. */
  type ThreadId = string

  datatype AgentStatus =
    | PendingInit
    | Running
    | Completed(lastMessage: Option<string>)
    | Errored(message: string)
    | Shutdown
    | NotFound

  /** A status from which an agent does not move on by itself. */
  predicate IsFinal(s: AgentStatus) {
    !(s.PendingInit? || s.Running?)
  }

  datatype AgentRecord = AgentRecord(
    agentId: ThreadId,
    creator: Option<ThreadId>,
    name: Option<string>,
    goal: string,
    acceptanceCriteria: seq<string>,
    testCommands: seq<string>,
    allowNestedAgents: bool,
    status: AgentStatus,
    closed: bool)

  datatype SpawnMetadata = SpawnMetadata(
    creator: Option<ThreadId>,
    name: Option<string>,
    goal: string,
    acceptanceCriteria: seq<string>,
    testCommands: seq<string>,
    allowNestedAgents: bool)

  datatype CodexErr =
    | UnsupportedOperation(detail: string)
    | ThreadNotFound(id: ThreadId)
    | InternalAgentDied
    | AgentLimitReached(max: nat)
    | Fatal(message: string)
    | Other(text: string)

  /** The error a dropped thread manager produces. */
  function ManagerDropped(): CodexErr {
    UnsupportedOperation("thread manager dropped")
  }

  /** How an error prints with `{err}`. */
  function Render(e: CodexErr): string {
    match e
    case UnsupportedOperation(detail) => "unsupported operation: " + detail
    case ThreadNotFound(id) => "thread not found: " + id
    case InternalAgentDied => "internal agent died"
    case AgentLimitReached(max) => "agent thread limit reached (max " + NatToString(max) + ")"
    case Fatal(message) => message
    case Other(text) => text
  }

  /** The set of ids the registry holds. */
  function AgentIds(records: seq<AgentRecord>): set<ThreadId> {
    set i | 0 <= i < |records| :: records[i].agentId
  }

  function Elems(ids: seq<ThreadId>): set<ThreadId> {
    set x | x in ids
  }

  /** Some non-closed record for `child` names `parent` as its creator. */
  ghost predicate IsActiveChild(records: seq<AgentRecord>, child: ThreadId, parent: ThreadId) {
    exists i :: 0 <= i < |records| && records[i].agentId == child
      && !records[i].closed && records[i].creator == Some(parent)
  }

  /** The ids grouped under `parent` when the registry is scanned in order. */
  function ChildrenOf(records: seq<AgentRecord>, parent: ThreadId): seq<ThreadId> {
    if records == [] then []
    else
      var n := |records| - 1;
      var rest := ChildrenOf(records[..n], parent);
      if !records[n].closed && records[n].creator == Some(parent) then rest + [records[n].agentId]
      else rest
  }

  /** Only active children are listed under a parent. */
  lemma {:induction false} ChildrenOfSound(records: seq<AgentRecord>, child: ThreadId, parent: ThreadId)
    requires child in ChildrenOf(records, parent)
    ensures IsActiveChild(records, child, parent)
  {
    var n := |records| - 1;
    if child in ChildrenOf(records[..n], parent) {
      ChildrenOfSound(records[..n], child, parent);
      var i :| 0 <= i < n && records[..n][i].agentId == child
        && !records[..n][i].closed && records[..n][i].creator == Some(parent);
      assert records[i] == records[..n][i];
    } else {
      assert records[n].agentId == child;
    }
  }

  /** Every active child is listed under its parent. */
  lemma {:induction false} ChildrenOfComplete(records: seq<AgentRecord>, child: ThreadId, parent: ThreadId)
    requires IsActiveChild(records, child, parent)
    ensures child in ChildrenOf(records, parent)
  {
    var n := |records| - 1;
    var i :| 0 <= i < |records| && records[i].agentId == child
      && !records[i].closed && records[i].creator == Some(parent);
    if i < n {
      assert records[..n][i] == records[i];
      ChildrenOfComplete(records[..n], child, parent);
    }
  }

  /**
   * What the descendant list promises: no id twice; each id is an active
   * child of the target or of an id listed after it (deepest first); and
   * every active child of the target or of a listed id is listed.
   */
  ghost predicate DeepestFirstDescendants(records: seq<AgentRecord>, target: ThreadId, ds: seq<ThreadId>) {
    Distinct(ds) && ListedAfterParent(records, target, ds) && ClosedUnderChildren(records, target, ds)
  }

  ghost predicate Distinct(ids: seq<ThreadId>) {
    forall a, b :: 0 <= a < b < |ids| ==> ids[a] != ids[b]
  }

  /** Each id is an active child of the target or of an id listed after it. */
  ghost predicate ListedAfterParent(records: seq<AgentRecord>, target: ThreadId, ds: seq<ThreadId>) {
    forall k :: 0 <= k < |ds| ==> HasLaterParent(records, target, ds, k)
  }

  ghost predicate HasLaterParent(records: seq<AgentRecord>, target: ThreadId, ds: seq<ThreadId>, k: nat)
    requires k < |ds|
  {
    IsActiveChild(records, ds[k], target) || exists j :: k < j < |ds| && IsActiveChild(records, ds[k], ds[j])
  }

  /** Every active child of the target or of a listed id is listed. */
  ghost predicate ClosedUnderChildren(records: seq<AgentRecord>, target: ThreadId, ds: seq<ThreadId>) {
    forall p, c :: (p == target || p in ds) && IsActiveChild(records, c, p) ==> c in ds
  }

  function Reverse(s: seq<ThreadId>): (r: seq<ThreadId>)
    ensures |r| == |s| && forall i :: 0 <= i < |s| ==> r[i] == s[|s| - 1 - i]
  {
    if s == [] then [] else [s[|s| - 1]] + Reverse(s[..|s| - 1])
  }

  /** Marks the record of `id` closed with `status` (`mark_agent_closed`). */
  function MarkClosed(records: seq<AgentRecord>, id: ThreadId, status: AgentStatus): (r: seq<AgentRecord>)
    ensures |r| == |records|
    ensures forall i :: 0 <= i < |r| ==> r[i].agentId == records[i].agentId
  {
    seq(|records|, i requires 0 <= i < |records| =>
      if records[i].agentId == id then records[i].(closed := true, status := status) else records[i])
  }

  /** `send_op` to a thread: a missing thread is ThreadNotFound, a live one gives its reply. */
  function OpResult(threads: map<ThreadId, AgentStatus>, id: ThreadId, reply: Result<string, CodexErr>): Result<string, CodexErr> {
    if id in threads then reply else Err(ThreadNotFound(id))
  }

  /**
   * The shutdown result for `id` when the ids in `done` were already shut down
   * (and so removed) during the same sweep.
   */
  function StepResult(threads: map<ThreadId, AgentStatus>, done: seq<ThreadId>, id: ThreadId,
                      reply: ThreadId -> Result<string, CodexErr>): Result<string, CodexErr> {
    if id in threads && id !in done then reply(id) else Err(ThreadNotFound(id))
  }

  function DescendantMessage(id: ThreadId, e: CodexErr): string {
    "failed to close descendant " + id + ": " + Render(e)
  }

  function TargetMessage(id: ThreadId, e: CodexErr): string {
    "failed to close agent " + id + ": " + Render(e)
  }

  /** The messages pushed while the descendants are shut down one by one. */
  function DescendantFailures(threads: map<ThreadId, AgentStatus>, desc: seq<ThreadId>,
                              reply: ThreadId -> Result<string, CodexErr>): (msgs: seq<string>)
    ensures |msgs| <= |desc|
  {
    if desc == [] then []
    else
      var n := |desc| - 1;
      var r := StepResult(threads, desc[..n], desc[n], reply);
      DescendantFailures(threads, desc[..n], reply)
        + (if r.Err? then [DescendantMessage(desc[n], r.error)] else [])
  }

  /** The outcome of `shutdown_agent_with_descendants` once the descendant list is known. */
  function CloseReport(threads: map<ThreadId, AgentStatus>, desc: seq<ThreadId>, target: ThreadId,
                       reply: ThreadId -> Result<string, CodexErr>): Result<string, CodexErr> {
    Report(DescendantFailures(threads, desc, reply), target, StepResult(threads, desc, target, reply))
  }

  /** The final result from the descendant messages and the target's own outcome. */
  function Report(descendantErrors: seq<string>, target: ThreadId, last: Result<string, CodexErr>): Result<string, CodexErr> {
    var errs := descendantErrors + (if last.Err? then [TargetMessage(target, last.error)] else []);
    if errs == [] then last else Err(Fatal(Join(errs, "; ")))
  }

  /** The registry after shutting down `ids` in order: each success marks its record closed. */
  function SweepRecords(records: seq<AgentRecord>, threads: map<ThreadId, AgentStatus>, ids: seq<ThreadId>,
                        reply: ThreadId -> Result<string, CodexErr>): (r: seq<AgentRecord>)
    ensures |r| == |records|
    ensures forall i :: 0 <= i < |r| ==> r[i].agentId == records[i].agentId
  {
    if ids == [] then records
    else
      var n := |ids| - 1;
      var prev := SweepRecords(records, threads, ids[..n], reply);
      if StepResult(threads, ids[..n], ids[n], reply).Ok? then MarkClosed(prev, ids[n], Shutdown) else prev
  }


  /** Looks a parent up in the grouping, with no entry meaning no children. */
  function ChildrenIn(groups: map<ThreadId, seq<ThreadId>>, parent: ThreadId): seq<ThreadId> {
    if parent in groups then groups[parent] else []
  }

  /** Groups the ids of non-closed records under their creator, in registry order. */
  method GroupByCreator(recs: seq<AgentRecord>) returns (groups: map<ThreadId, seq<ThreadId>>)
    ensures forall p :: ChildrenIn(groups, p) == ChildrenOf(recs, p)
  {
    groups := map[];
    var i := 0;
    while i < |recs|
      invariant 0 <= i <= |recs|
      invariant forall p :: ChildrenIn(groups, p) == ChildrenOf(recs[..i], p)
    {
      var rec := recs[i];
      assert recs[..i + 1][..i] == recs[..i];
      if !rec.closed && rec.creator.Some? {
        groups := groups[rec.creator.value := ChildrenIn(groups, rec.creator.value) + [rec.agentId]];
      }
      i := i + 1;
    }
    assert recs[..i] == recs;
  }

  /** Every id that some group lists as a child. */
  function Grouped(groups: map<ThreadId, seq<ThreadId>>): set<ThreadId> {
    set p, c | p in groups && c in groups[p] :: c
  }

  /** Every discovered id is a child of the target or of an id discovered before it. */
  ghost predicate DiscoveredInOrder(groups: map<ThreadId, seq<ThreadId>>, target: ThreadId, desc: seq<ThreadId>) {
    forall k :: 0 <= k < |desc| ==> ReachedBefore(groups, target, desc, k)
  }

  ghost predicate ReachedBefore(groups: map<ThreadId, seq<ThreadId>>, target: ThreadId, desc: seq<ThreadId>, k: nat)
    requires k < |desc|
  {
    desc[k] in ChildrenIn(groups, target) || exists m :: 0 <= m < k && desc[k] in ChildrenIn(groups, desc[m])
  }

  /** The bookkeeping of the walk: `seen` is the set of discovered ids and the stack holds only reached ids. */
  ghost predicate WalkState(groups: map<ThreadId, seq<ThreadId>>, target: ThreadId, seen: set<ThreadId>,
                            stack: seq<ThreadId>, desc: seq<ThreadId>) {
    && (forall x :: x in seen <==> x in desc)
    && Distinct(desc)
    && |seen| == |desc|
    && seen <= Grouped(groups)
    && (forall x :: x in stack ==> x == target || x in seen)
    && DiscoveredInOrder(groups, target, desc)
  }

  /** A reached id no longer on the stack has had all its children discovered. */
  ghost predicate Expanded(groups: map<ThreadId, seq<ThreadId>>, target: ThreadId, seen: set<ThreadId>,
                           stack: seq<ThreadId>, p: ThreadId) {
    (p == target || p in seen) && p !in stack ==> forall c :: c in ChildrenIn(groups, p) ==> c in seen
  }

  /** Discovering one more child keeps every discovered id reached from an earlier one. */
  lemma DiscoverInOrder(groups: map<ThreadId, seq<ThreadId>>, target: ThreadId, parent: ThreadId,
                        desc: seq<ThreadId>, child: ThreadId)
    requires DiscoveredInOrder(groups, target, desc)
    requires parent == target || parent in desc
    requires child in ChildrenIn(groups, parent)
    ensures DiscoveredInOrder(groups, target, desc + [child])
  {
    var desc' := desc + [child];
    var k := |desc|;
    forall i | 0 <= i < |desc'|
      ensures ReachedBefore(groups, target, desc', i)
    {
      if i < k {
        assert desc'[i] == desc[i];
        assert ReachedBefore(groups, target, desc, i);
        if desc[i] !in ChildrenIn(groups, target) {
          var m :| 0 <= m < i && desc[i] in ChildrenIn(groups, desc[m]);
          assert desc'[m] == desc[m];
        }
      } else if parent != target {
        var via :| 0 <= via < |desc| && desc[via] == parent;
        assert desc'[via] == parent;
      }
    }
  }

  /** Discovering one unseen child of a reached id keeps the walk's bookkeeping. */
  lemma DiscoverStep(groups: map<ThreadId, seq<ThreadId>>, target: ThreadId, parent: ThreadId,
                     seen: set<ThreadId>, stack: seq<ThreadId>, desc: seq<ThreadId>, child: ThreadId)
    requires WalkState(groups, target, seen, stack, desc)
    requires parent == target || parent in seen
    requires child in ChildrenIn(groups, parent) && child !in seen
    ensures WalkState(groups, target, seen + {child}, stack + [child], desc + [child])
    ensures forall p :: Expanded(groups, target, seen, stack, p) ==> Expanded(groups, target, seen + {child}, stack + [child], p)
  {
    assert parent in groups && child in groups[parent];
    assert child in Grouped(groups);
    DiscoverInOrder(groups, target, parent, desc, child);
  }

  /** What holds once the first `j` children of `parent` have been visited. */
  ghost predicate VisitInvariant(groups: map<ThreadId, seq<ThreadId>>, target: ThreadId, parent: ThreadId, j: nat,
                                 seen0: set<ThreadId>, stack0: seq<ThreadId>, desc0: seq<ThreadId>,
                                 seen: set<ThreadId>, stack: seq<ThreadId>, desc: seq<ThreadId>) {
    && j <= |ChildrenIn(groups, parent)|
    && (parent == target || parent in seen)
    && WalkState(groups, target, seen, stack, desc)
    && seen0 <= seen && |desc| - |desc0| == |seen| - |seen0|
    && |stack| == |stack0| + (|desc| - |desc0|)
    && (forall p :: p != parent ==> Expanded(groups, target, seen, stack, p))
    && (forall c :: c in ChildrenIn(groups, parent)[..j] ==> c in seen)
  }

  /** Visiting the next child keeps the invariant, whether or not the child was seen before. */
  lemma VisitStep(groups: map<ThreadId, seq<ThreadId>>, target: ThreadId, parent: ThreadId, j: nat,
                  seen0: set<ThreadId>, stack0: seq<ThreadId>, desc0: seq<ThreadId>,
                  seen: set<ThreadId>, stack: seq<ThreadId>, desc: seq<ThreadId>)
    requires VisitInvariant(groups, target, parent, j, seen0, stack0, desc0, seen, stack, desc)
    requires j < |ChildrenIn(groups, parent)|
    ensures var child := ChildrenIn(groups, parent)[j];
      if child in seen then VisitInvariant(groups, target, parent, j + 1, seen0, stack0, desc0, seen, stack, desc)
      else VisitInvariant(groups, target, parent, j + 1, seen0, stack0, desc0, seen + {child}, stack + [child], desc + [child])
  {
    var children := ChildrenIn(groups, parent);
    var child := children[j];
    assert children[..j + 1] == children[..j] + [child];
    if child !in seen {
      DiscoverStep(groups, target, parent, seen, stack, desc, child);
    }
  }

  /** Pushes every not-yet-seen child of `parent`, marking it seen and discovered. */
  method VisitChildren(groups: map<ThreadId, seq<ThreadId>>, ghost target: ThreadId, parent: ThreadId,
                       seen0: set<ThreadId>, stack0: seq<ThreadId>, desc0: seq<ThreadId>)
    returns (seen: set<ThreadId>, stack: seq<ThreadId>, desc: seq<ThreadId>)
    requires parent == target || parent in seen0
    requires WalkState(groups, target, seen0, stack0, desc0)
    requires forall p :: p != parent ==> Expanded(groups, target, seen0, stack0, p)
    ensures WalkState(groups, target, seen, stack, desc)
    ensures forall p :: Expanded(groups, target, seen, stack, p)
    ensures seen0 <= seen && |desc| - |desc0| == |seen| - |seen0|
    ensures |stack| == |stack0| + (|desc| - |desc0|)
  {
    var children := ChildrenIn(groups, parent);
    seen, stack, desc := seen0, stack0, desc0;
    var j := 0;
    while j < |children|
      invariant VisitInvariant(groups, target, parent, j, seen0, stack0, desc0, seen, stack, desc)
    {
      VisitStep(groups, target, parent, j, seen0, stack0, desc0, seen, stack, desc);
      var child := children[j];
      if child !in seen {
        seen, stack, desc := seen + {child}, stack + [child], desc + [child];
      }
      j := j + 1;
    }
    VisitDone(groups, target, parent, seen0, stack0, desc0, seen, stack, desc);
  }

  /** After the last child the parent is expanded too. */
  lemma VisitDone(groups: map<ThreadId, seq<ThreadId>>, target: ThreadId, parent: ThreadId,
                  seen0: set<ThreadId>, stack0: seq<ThreadId>, desc0: seq<ThreadId>,
                  seen: set<ThreadId>, stack: seq<ThreadId>, desc: seq<ThreadId>)
    requires VisitInvariant(groups, target, parent, |ChildrenIn(groups, parent)|, seen0, stack0, desc0, seen, stack, desc)
    ensures forall p :: Expanded(groups, target, seen, stack, p)
  {
    var children := ChildrenIn(groups, parent);
    assert children[..|children|] == children;
  }

  lemma SubsetCard(a: set<ThreadId>, b: set<ThreadId>)
    requires a <= b
    ensures |a| <= |b|
  {
    assert b == a + (b - a);
  }

  /** Taking the top of the stack leaves every other reached id as expanded as before. */
  lemma PopStep(groups: map<ThreadId, seq<ThreadId>>, target: ThreadId, seen: set<ThreadId>,
                stack: seq<ThreadId>, desc: seq<ThreadId>, parent: ThreadId)
    requires WalkState(groups, target, seen, stack + [parent], desc)
    requires forall p :: Expanded(groups, target, seen, stack + [parent], p)
    ensures parent == target || parent in seen
    ensures WalkState(groups, target, seen, stack, desc)
    ensures forall p :: p != parent ==> Expanded(groups, target, seen, stack, p)
  {
    assert parent in stack + [parent];
    forall p | p != parent ensures Expanded(groups, target, seen, stack, p) {
      assert Expanded(groups, target, seen, stack + [parent], p);
      assert p in stack ==> p in stack + [parent];
    }
  }

  /** With the stack empty, every reached id has been expanded. */
  lemma WalkDone(groups: map<ThreadId, seq<ThreadId>>, target: ThreadId, seen: set<ThreadId>, desc: seq<ThreadId>)
    requires WalkState(groups, target, seen, [], desc)
    requires forall p :: Expanded(groups, target, seen, [], p)
    ensures Distinct(desc) && DiscoveredInOrder(groups, target, desc)
    ensures forall p, c :: (p == target || p in desc) && c in ChildrenIn(groups, p) ==> c in desc
  {
    forall p, c | (p == target || p in desc) && c in ChildrenIn(groups, p) ensures c in desc {
      assert Expanded(groups, target, seen, [], p);
    }
  }

  /** The stack walk from `target` over the creator grouping, returning ids in discovery order. */
  method Walk(groups: map<ThreadId, seq<ThreadId>>, target: ThreadId) returns (desc: seq<ThreadId>)
    ensures Distinct(desc) && DiscoveredInOrder(groups, target, desc)
    ensures forall p, c :: (p == target || p in desc) && c in ChildrenIn(groups, p) ==> c in desc
  {
    var seen: set<ThreadId> := {};
    var stack := [target];
    desc := [];
    ghost var all := Grouped(groups);
    while stack != []
      invariant WalkState(groups, target, seen, stack, desc)
      invariant forall p :: Expanded(groups, target, seen, stack, p)
      invariant seen <= all
      decreases |all| - |seen|, |stack|
    {
      ghost var before := stack;
      var parent := stack[|stack| - 1];
      stack := stack[..|stack| - 1];
      assert before == stack + [parent];
      PopStep(groups, target, seen, stack, desc, parent);
      ghost var seenBefore := seen;
      seen, stack, desc := VisitChildren(groups, target, parent, seen, stack, desc);
      SubsetCard(seen, all);
      SubsetCard(seenBefore, seen);
    }
    WalkDone(groups, target, seen, desc);
  }

  /** The active descendants of `target`, deepest first. */
  method ActiveDescendants(recs: seq<AgentRecord>, target: ThreadId) returns (ds: seq<ThreadId>)
    ensures DeepestFirstDescendants(recs, target, ds)
  {
    var groups := GroupByCreator(recs);
    var desc := Walk(groups, target);
    ds := Reverse(desc);
    ReverseDistinct(desc);
    ReverseParents(recs, groups, target, desc);
    ReverseComplete(recs, groups, target, desc);
  }

  lemma ReverseDistinct(desc: seq<ThreadId>)
    requires Distinct(desc)
    ensures Distinct(Reverse(desc))
  {
    var ds := Reverse(desc);
    var n := |desc|;
    forall a, b | 0 <= a < b < |ds| ensures ds[a] != ds[b] {
      assert ds[a] == desc[n - 1 - a] && ds[b] == desc[n - 1 - b];
    }
  }

  /** Reversing the discovery order puts every id before the id it was discovered from. */
  lemma ReverseParents(recs: seq<AgentRecord>, groups: map<ThreadId, seq<ThreadId>>, target: ThreadId, desc: seq<ThreadId>)
    requires forall p :: ChildrenIn(groups, p) == ChildrenOf(recs, p)
    requires DiscoveredInOrder(groups, target, desc)
    ensures ListedAfterParent(recs, target, Reverse(desc))
  {
    var ds := Reverse(desc);
    forall k | 0 <= k < |ds|
      ensures HasLaterParent(recs, target, ds, k)
    {
      var j := ReverseParentAt(groups, target, desc, k);
      if j == |ds| {
        ChildrenOfSound(recs, ds[k], target);
      } else {
        ChildrenOfSound(recs, ds[k], ds[j]);
        assert k < j < |ds| && IsActiveChild(recs, ds[k], ds[j]);
      }
    }
  }

  /**
   * The id at position `k` of the reversed order was discovered from the
   * id at position `j` after it, or from the target when `j` is the length.
   */
  lemma ReverseParentAt(groups: map<ThreadId, seq<ThreadId>>, target: ThreadId, desc: seq<ThreadId>, k: nat)
    returns (j: nat)
    requires DiscoveredInOrder(groups, target, desc)
    requires k < |desc|
    ensures var ds := Reverse(desc);
      && k < j <= |ds|
      && (j == |ds| ==> ds[k] in ChildrenIn(groups, target))
      && (j < |ds| ==> ds[k] in ChildrenIn(groups, ds[j]))
  {
    var ds := Reverse(desc);
    var n := |desc|;
    var kd := n - 1 - k;
    assert ds[k] == desc[kd];
    assert ReachedBefore(groups, target, desc, kd);
    if desc[kd] in ChildrenIn(groups, target) {
      j := n;
    } else {
      var m :| 0 <= m < kd && desc[kd] in ChildrenIn(groups, desc[m]);
      j := n - 1 - m;
      assert ds[j] == desc[m];
    }
  }

  /** Reversing a complete discovery order leaves it complete. */
  lemma ReverseComplete(recs: seq<AgentRecord>, groups: map<ThreadId, seq<ThreadId>>, target: ThreadId, desc: seq<ThreadId>)
    requires forall p :: ChildrenIn(groups, p) == ChildrenOf(recs, p)
    requires forall p, c :: (p == target || p in desc) && c in ChildrenIn(groups, p) ==> c in desc
    ensures ClosedUnderChildren(recs, target, Reverse(desc))
  {
    var ds := Reverse(desc);
    var n := |desc|;
    forall p, c | (p == target || p in ds) && IsActiveChild(recs, c, p)
      ensures c in ds
    {
      ChildrenOfComplete(recs, c, p);
      if p in ds {
        var i :| 0 <= i < n && ds[i] == p;
        assert desc[n - 1 - i] == p;
      }
      assert c in desc;
      var m :| 0 <= m < n && desc[m] == c;
      assert ds[n - 1 - m] == c;
    }
  }

  lemma ElemsSnoc(ids: seq<ThreadId>, id: ThreadId)
    ensures Elems(ids + [id]) == Elems(ids) + {id}
  {
  }

  lemma TakeSnoc(ids: seq<ThreadId>, i: nat)
    requires i < |ids|
    ensures ids[..i + 1] == ids[..i] + [ids[i]]
  {
  }

  /** Removing one more id after the ids in `done`. */
  lemma RemoveSnoc(threads: map<ThreadId, AgentStatus>, spawned: set<ThreadId>, done: seq<ThreadId>, id: ThreadId)
    ensures threads - Elems(done + [id]) == (threads - Elems(done)) - {id}
    ensures spawned - Elems(done + [id]) == (spawned - Elems(done)) - {id}
  {
    ElemsSnoc(done, id);
  }

  /** Shutting down `id` after the ids in `done` were removed gives the sweep's step result. */
  lemma StepResultNow(threads: map<ThreadId, AgentStatus>, done: seq<ThreadId>, id: ThreadId,
                      reply: ThreadId -> Result<string, CodexErr>)
    ensures OpResult(threads - Elems(done), id, reply(id)) == StepResult(threads, done, id, reply)
  {
  }

  lemma DescendantFailuresSnoc(threads: map<ThreadId, AgentStatus>, ids: seq<ThreadId>, id: ThreadId,
                               reply: ThreadId -> Result<string, CodexErr>)
    ensures var r := StepResult(threads, ids, id, reply);
      DescendantFailures(threads, ids + [id], reply)
        == DescendantFailures(threads, ids, reply) + (if r.Err? then [DescendantMessage(id, r.error)] else [])
  {
    assert (ids + [id])[..|ids|] == ids;
  }

  lemma SweepSnoc(records: seq<AgentRecord>, threads: map<ThreadId, AgentStatus>, ids: seq<ThreadId>,
                  id: ThreadId, reply: ThreadId -> Result<string, CodexErr>)
    ensures SweepRecords(records, threads, ids + [id], reply)
         == if StepResult(threads, ids, id, reply).Ok?
            then MarkClosed(SweepRecords(records, threads, ids, reply), id, Shutdown)
            else SweepRecords(records, threads, ids, reply)
  {
    assert (ids + [id])[..|ids|] == ids;
  }

  /** The shutdown of `ids[k]` inside a sweep over `ids` succeeded. */
  predicate StepOk(threads: map<ThreadId, AgentStatus>, ids: seq<ThreadId>, k: nat,
                   reply: ThreadId -> Result<string, CodexErr>)
    requires k < |ids|
  {
    StepResult(threads, ids[..k], ids[k], reply).Ok?
  }

  /** No descendant message is produced exactly when every descendant shutdown succeeds. */
  lemma {:induction false} DescendantFailuresEmpty(threads: map<ThreadId, AgentStatus>, desc: seq<ThreadId>,
                                                   reply: ThreadId -> Result<string, CodexErr>)
    ensures DescendantFailures(threads, desc, reply) == [] <==> forall k :: 0 <= k < |desc| ==> StepOk(threads, desc, k, reply)
  {
    if desc != [] {
      var n := |desc| - 1;
      DescendantFailuresEmpty(threads, desc[..n], reply);
      forall k | 0 <= k < n ensures StepOk(threads, desc, k, reply) == StepOk(threads, desc[..n], k, reply) {
        assert desc[..n][..k] == desc[..k];
      }
      assert (forall k :: 0 <= k < |desc| ==> StepOk(threads, desc, k, reply))
        <==> (forall k :: 0 <= k < n ==> StepOk(threads, desc[..n], k, reply)) && StepOk(threads, desc, n, reply);
    }
  }

  /** Each failed descendant shutdown contributes its own message. */
  lemma {:induction false} DescendantFailuresMention(threads: map<ThreadId, AgentStatus>, desc: seq<ThreadId>,
                                                     reply: ThreadId -> Result<string, CodexErr>, k: nat)
    requires k < |desc| && !StepOk(threads, desc, k, reply)
    ensures DescendantMessage(desc[k], StepResult(threads, desc[..k], desc[k], reply).error)
            in DescendantFailures(threads, desc, reply)
  {
    var n := |desc| - 1;
    var front := DescendantFailures(threads, desc[..n], reply);
    var step := StepResult(threads, desc[..n], desc[n], reply);
    var tail := if step.Err? then [DescendantMessage(desc[n], step.error)] else [];
    assert DescendantFailures(threads, desc, reply) == front + tail;
    if k < n {
      assert desc[..n][..k] == desc[..k] && desc[..n][k] == desc[k];
      DescendantFailuresMention(threads, desc[..n], reply, k);
    } else {
      assert tail == [DescendantMessage(desc[k], StepResult(threads, desc[..k], desc[k], reply).error)];
    }
  }

  /**
   * The cascade reports success exactly when every descendant and the target
   * were shut down, and then it passes on the target's own result.
   */
  lemma CloseReportOk(threads: map<ThreadId, AgentStatus>, desc: seq<ThreadId>, target: ThreadId,
                      reply: ThreadId -> Result<string, CodexErr>)
    ensures CloseReport(threads, desc, target, reply).Ok?
        <==> (forall k :: 0 <= k < |desc| ==> StepOk(threads, desc, k, reply))
             && StepResult(threads, desc, target, reply).Ok?
    ensures CloseReport(threads, desc, target, reply).Ok? ==>
            CloseReport(threads, desc, target, reply) == reply(target)
  {
    DescendantFailuresEmpty(threads, desc, reply);
  }

  /** A failure to shut down the target is reported as one Fatal error naming the target. */
  lemma CloseReportNamesTarget(threads: map<ThreadId, AgentStatus>, desc: seq<ThreadId>, target: ThreadId,
                               reply: ThreadId -> Result<string, CodexErr>)
    requires StepResult(threads, desc, target, reply).Err?
    ensures CloseReport(threads, desc, target, reply).Err?
    ensures CloseReport(threads, desc, target, reply).error.Fatal?
    ensures Contains(CloseReport(threads, desc, target, reply).error.message,
                     TargetMessage(target, StepResult(threads, desc, target, reply).error))
  {
    var errs := DescendantFailures(threads, desc, reply)
      + [TargetMessage(target, StepResult(threads, desc, target, reply).error)];
    JoinContainsPart(errs, "; ", |errs| - 1);
  }

  /** A failure to shut down a descendant is reported, naming that descendant, even if the target closed. */
  lemma CloseReportNamesDescendant(threads: map<ThreadId, AgentStatus>, desc: seq<ThreadId>, target: ThreadId,
                                   reply: ThreadId -> Result<string, CodexErr>, k: nat)
    requires k < |desc| && !StepOk(threads, desc, k, reply)
    ensures CloseReport(threads, desc, target, reply).Err?
    ensures CloseReport(threads, desc, target, reply).error.Fatal?
    ensures Contains(CloseReport(threads, desc, target, reply).error.message,
                     DescendantMessage(desc[k], StepResult(threads, desc[..k], desc[k], reply).error))
  {
    DescendantFailuresMention(threads, desc, reply, k);
    var last := StepResult(threads, desc, target, reply);
    var errs := DescendantFailures(threads, desc, reply)
      + (if last.Err? then [TargetMessage(target, last.error)] else []);
    var msg := DescendantMessage(desc[k], StepResult(threads, desc[..k], desc[k], reply).error);
    var i :| 0 <= i < |DescendantFailures(threads, desc, reply)| && DescendantFailures(threads, desc, reply)[i] == msg;
    assert errs[i] == msg;
    JoinContainsPart(errs, "; ", i);
  }

  /** Records of ids outside the sweep are left exactly as they were. */
  lemma {:induction false} SweepLeavesOthers(records: seq<AgentRecord>, threads: map<ThreadId, AgentStatus>,
                                             ids: seq<ThreadId>, reply: ThreadId -> Result<string, CodexErr>, i: nat)
    requires i < |records| && records[i].agentId !in ids
    ensures SweepRecords(records, threads, ids, reply)[i] == records[i]
  {
    if ids != [] {
      SweepLeavesOthers(records, threads, ids[..|ids| - 1], reply, i);
    }
  }

  /** Once a shutdown in the sweep succeeds, every record of that id ends closed with status Shutdown. */
  lemma {:induction false} SweepClosesSuccesses(records: seq<AgentRecord>, threads: map<ThreadId, AgentStatus>,
                                                ids: seq<ThreadId>, reply: ThreadId -> Result<string, CodexErr>,
                                                k: nat, i: nat)
    requires k < |ids| && i < |records| && StepOk(threads, ids, k, reply) && records[i].agentId == ids[k]
    ensures SweepRecords(records, threads, ids, reply)[i].closed
    ensures SweepRecords(records, threads, ids, reply)[i].status == Shutdown
  {
    var n := |ids| - 1;
    var prev := SweepRecords(records, threads, ids[..n], reply);
    if k < n {
      assert ids[..n][..k] == ids[..k] && ids[..n][k] == ids[k];
      SweepClosesSuccesses(records, threads, ids[..n], reply, k, i);
      if StepOk(threads, ids, n, reply) {
        assert MarkClosed(prev, ids[n], Shutdown)[i] ==
          if prev[i].agentId == ids[n] then prev[i].(closed := true, status := Shutdown) else prev[i];
      }
    } else {
      assert MarkClosed(prev, ids[n], Shutdown)[i] == prev[i].(closed := true, status := Shutdown);
    }
  }

  class Control {
    /** The weak handle to the thread manager still upgrades. */
    var managerAlive: bool
    /** The registry records, in the order `list_agent_records` yields them. */
    var records: seq<AgentRecord>
    /** Live threads and their current status. */
    var threads: map<ThreadId, AgentStatus>
    /** Threads holding a spawn slot. */
    var spawned: set<ThreadId>

    constructor (alive: bool, initialRecords: seq<AgentRecord>, live: map<ThreadId, AgentStatus>)
      ensures managerAlive == alive && records == initialRecords && threads == live && spawned == {}
    {
      managerAlive := alive;
      records := initialRecords;
      threads := live;
      spawned := {};
    }

    /** `get_status`: the live status, or NotFound when the manager is gone or the thread unknown. */
    function GetStatus(id: ThreadId): (s: AgentStatus)
      reads this
      ensures !managerAlive || id !in threads ==> s == NotFound
      ensures managerAlive && id in threads ==> s == threads[id]
    {
      if managerAlive && id in threads then threads[id] else NotFound
    }

    /** `subscribe_status`: the current status of a live thread, or the lookup error. */
    function SubscribeStatus(id: ThreadId): (r: Result<AgentStatus, CodexErr>)
      reads this
      ensures r.Ok? <==> managerAlive && id in threads
      ensures r.Ok? ==> r.value == GetStatus(id)
      ensures !managerAlive ==> r == Err(ManagerDropped())
      ensures managerAlive && id !in threads ==> r == Err(ThreadNotFound(id))
    {
      if !managerAlive then Err(ManagerDropped())
      else if id in threads then Ok(threads[id])
      else Err(ThreadNotFound(id))
    }

    /** `list_agents`. */
    function ListAgents(): (r: Result<seq<AgentRecord>, CodexErr>)
      reads this
      ensures r.Ok? <==> managerAlive
      ensures r.Ok? ==> r.value == records
    {
      if managerAlive then Ok(records) else Err(ManagerDropped())
    }

    /** `get_agent_record`: the record for `id`, if the registry holds one. */
    function GetAgentRecord(id: ThreadId): (r: Result<Option<AgentRecord>, CodexErr>)
      reads this
      ensures r.Ok? <==> managerAlive
      ensures r.Ok? && r.value.Some? ==> r.value.value in records && r.value.value.agentId == id
      ensures r.Ok? && r.value.None? ==> id !in AgentIds(records)
    {
      if !managerAlive then Err(ManagerDropped()) else Ok(FindRecord(records, id))
    }

    /** `interrupt_agent`: sends an Interrupt op; nothing in the registry changes. */
    function InterruptAgent(id: ThreadId, reply: Result<string, CodexErr>): (r: Result<string, CodexErr>)
      reads this
      ensures !managerAlive ==> r == Err(ManagerDropped())
      ensures managerAlive && id !in threads ==> r == Err(ThreadNotFound(id))
      ensures managerAlive && id in threads ==> r == reply
    {
      if !managerAlive then Err(ManagerDropped()) else OpResult(threads, id, reply)
    }

    /**
     * `send_input`: delivers user input. When the thread turns out to have died,
     * it is removed and its spawn slot released; any other outcome leaves the
     * state alone. The outcome is returned either way.
     */
    method SendInput(id: ThreadId, reply: Result<string, CodexErr>) returns (r: Result<string, CodexErr>)
      modifies this
      ensures r == (if old(managerAlive) then OpResult(old(threads), id, reply) else Err(ManagerDropped()))
      ensures managerAlive == old(managerAlive) && records == old(records)
      ensures r == Err(InternalAgentDied) ==> threads == old(threads) - {id} && spawned == old(spawned) - {id}
      ensures r != Err(InternalAgentDied) ==> threads == old(threads) && spawned == old(spawned)
    {
      if !managerAlive {
        return Err(ManagerDropped());
      }
      r := OpResult(threads, id, reply);
      if r == Err(InternalAgentDied) {
        threads := threads - {id};
        spawned := spawned - {id};
      }
    }

    /**
     * `spawn_agent_with_metadata_and_source`, in its order: reach the manager,
     * reserve a slot, create the thread, commit the slot, register the record,
     * then send the initial input. A failure at a step returns that step's
     * error and keeps what the earlier steps did; an initial input that finds
     * the thread dead also drops the thread and its slot again.
     */
    method SpawnAgent(metadata: SpawnMetadata, maxThreads: Option<nat>, newId: ThreadId,
                      spawnError: Option<CodexErr>, reply: Result<string, CodexErr>)
      returns (r: Result<ThreadId, CodexErr>)
      requires newId !in threads && newId !in spawned && newId !in AgentIds(records)
      modifies this
      ensures managerAlive == old(managerAlive)
      ensures !old(managerAlive) ==> r == Err(ManagerDropped()) && unchanged(this)
      ensures old(managerAlive) && maxThreads.Some? && |old(spawned)| >= maxThreads.value ==>
                r == Err(AgentLimitReached(maxThreads.value)) && unchanged(this)
      ensures old(managerAlive) && !(maxThreads.Some? && |old(spawned)| >= maxThreads.value) && spawnError.Some? ==>
                r == Err(spawnError.value) && unchanged(this)
      ensures old(managerAlive) && !(maxThreads.Some? && |old(spawned)| >= maxThreads.value) && spawnError.None? ==>
                && records == old(records) + [AgentRecord(newId, metadata.creator, metadata.name, metadata.goal,
                                                          metadata.acceptanceCriteria, metadata.testCommands,
                                                          metadata.allowNestedAgents, PendingInit, false)]
                && r == (if reply.Ok? then Ok(newId) else Err(reply.error))
                && (reply != Err(InternalAgentDied) ==>
                      threads == old(threads)[newId := PendingInit] && spawned == old(spawned) + {newId})
                && (reply == Err(InternalAgentDied) ==>
                      threads == old(threads) && spawned == old(spawned))
    {
      if !managerAlive {
        return Err(ManagerDropped());
      }
      if maxThreads.Some? && |spawned| >= maxThreads.value {
        return Err(AgentLimitReached(maxThreads.value));
      }
      if spawnError.Some? {
        return Err(spawnError.value);
      }
      ghost var threads0, spawned0 := threads, spawned;
      threads := threads[newId := PendingInit];
      spawned := spawned + {newId};
      records := records + [AgentRecord(newId, metadata.creator, metadata.name, metadata.goal,
                                        metadata.acceptanceCriteria, metadata.testCommands,
                                        metadata.allowNestedAgents, PendingInit, false)];
      var sent := SendInput(newId, reply);
      if sent == Err(InternalAgentDied) {
        assert threads == threads0[newId := PendingInit] - {newId};
        assert threads == threads0;
        assert spawned == spawned0;
      }
      if sent.Err? {
        return Err(sent.error);
      }
      r := Ok(newId);
    }

    /**
     * `shutdown_agent_only`: sends Shutdown, then always drops the thread and
     * releases its slot; the record is marked closed only if the op succeeded.
     */
    method ShutdownAgentOnly(id: ThreadId, reply: ThreadId -> Result<string, CodexErr>)
      returns (r: Result<string, CodexErr>)
      modifies this
      ensures managerAlive == old(managerAlive)
      ensures !old(managerAlive) ==> r == Err(ManagerDropped()) && unchanged(this)
      ensures old(managerAlive) ==>
        && r == OpResult(old(threads), id, reply(id))
        && threads == old(threads) - {id}
        && spawned == old(spawned) - {id}
        && records == (if r.Ok? then MarkClosed(old(records), id, Shutdown) else old(records))
    {
      if !managerAlive {
        return Err(ManagerDropped());
      }
      r := OpResult(threads, id, reply(id));
      threads := threads - {id};
      spawned := spawned - {id};
      if r.Ok? {
        records := MarkClosed(records, id, Shutdown);
      }
    }

    /** `collect_active_descendant_ids`. */
    method CollectActiveDescendantIds(target: ThreadId) returns (r: Result<seq<ThreadId>, CodexErr>)
      ensures r.Err? <==> !managerAlive
      ensures r.Err? ==> r.error == ManagerDropped()
      ensures r.Ok? ==> DeepestFirstDescendants(records, target, r.value)
    {
      if !managerAlive {
        return Err(ManagerDropped());
      }
      var ds := ActiveDescendants(records, target);
      r := Ok(ds);
    }

    /** Shuts down `ids` one by one, collecting a message for each failure. */
    method CloseEach(ids: seq<ThreadId>, reply: ThreadId -> Result<string, CodexErr>)
      returns (closeErrors: seq<string>)
      requires managerAlive
      modifies this
      ensures managerAlive
      ensures closeErrors == DescendantFailures(old(threads), ids, reply)
      ensures threads == old(threads) - Elems(ids)
      ensures spawned == old(spawned) - Elems(ids)
      ensures records == SweepRecords(old(records), old(threads), ids, reply)
    {
      closeErrors := [];
      var i := 0;
      while i < |ids|
        invariant 0 <= i <= |ids|
        invariant managerAlive
        invariant threads == old(threads) - Elems(ids[..i])
        invariant spawned == old(spawned) - Elems(ids[..i])
        invariant records == SweepRecords(old(records), old(threads), ids[..i], reply)
        invariant closeErrors == DescendantFailures(old(threads), ids[..i], reply)
      {
        var id := ids[i];
        ghost var done := ids[..i];
        TakeSnoc(ids, i);
        RemoveSnoc(old(threads), old(spawned), done, id);
        StepResultNow(old(threads), done, id, reply);
        SweepSnoc(old(records), old(threads), done, id, reply);
        DescendantFailuresSnoc(old(threads), done, id, reply);
        var res := ShutdownAgentOnly(id, reply);
        if res.Err? {
          closeErrors := closeErrors + [DescendantMessage(id, res.error)];
        }
        i := i + 1;
      }
      assert ids[..i] == ids;
    }

    /** The part of the cascade that runs once the manager is reachable. */
    method CloseTree(target: ThreadId, autoClose: bool, reply: ThreadId -> Result<string, CodexErr>)
      returns (r: Result<string, CodexErr>, ghost desc: seq<ThreadId>)
      requires managerAlive
      modifies this
      ensures managerAlive
      ensures !autoClose ==> desc == []
      ensures autoClose ==> DeepestFirstDescendants(old(records), target, desc)
      ensures r == CloseReport(old(threads), desc, target, reply)
      ensures threads == old(threads) - Elems(desc + [target])
      ensures spawned == old(spawned) - Elems(desc + [target])
      ensures records == SweepRecords(old(records), old(threads), desc + [target], reply)
    {
      desc := [];
      var closeErrors: seq<string> := [];
      if autoClose {
        var found := CollectActiveDescendantIds(target);
        desc := found.value;
        closeErrors := CloseEach(found.value, reply);
      }
      StepResultNow(old(threads), desc, target, reply);
      SweepSnoc(old(records), old(threads), desc, target, reply);
      RemoveSnoc(old(threads), old(spawned), desc, target);
      var closeResult := ShutdownAgentOnly(target, reply);
      r := Report(closeErrors, target, closeResult);
    }

    /**
     * `shutdown_agent_with_descendants`: with auto-close, first shuts down
     * every active descendant, deepest first, collecting one message per
     * failure; then shuts down the target. Any failure turns the result into
     * one Fatal error joining all messages with "; ".
     */
    method ShutdownAgentWithDescendants(target: ThreadId, autoClose: bool, reply: ThreadId -> Result<string, CodexErr>)
      returns (r: Result<string, CodexErr>, ghost desc: seq<ThreadId>)
      modifies this
      ensures managerAlive == old(managerAlive)
      ensures !old(managerAlive) ==> unchanged(this) && desc == []
      ensures !old(managerAlive) && autoClose ==> r == Err(ManagerDropped())
      ensures !old(managerAlive) && !autoClose ==> r == Err(Fatal(TargetMessage(target, ManagerDropped())))
      ensures !autoClose ==> desc == []
      ensures old(managerAlive) && autoClose ==> DeepestFirstDescendants(old(records), target, desc)
      ensures old(managerAlive) ==>
        && r == CloseReport(old(threads), desc, target, reply)
        && threads == old(threads) - Elems(desc + [target])
        && spawned == old(spawned) - Elems(desc + [target])
        && records == SweepRecords(old(records), old(threads), desc + [target], reply)
    {
      desc := [];
      if !managerAlive {
        if autoClose {
          return Err(ManagerDropped()), desc;
        }
        var lost := ShutdownAgentOnly(target, reply);
        return Err(Fatal(Join([TargetMessage(target, lost.error)], "; "))), desc;
      }
      r, desc := CloseTree(target, autoClose, reply);
    }

    /** `shutdown_agent`: the cascading form, closing descendants first. */
    method ShutdownAgent(target: ThreadId, reply: ThreadId -> Result<string, CodexErr>)
      returns (r: Result<string, CodexErr>, ghost desc: seq<ThreadId>)
      modifies this
      ensures managerAlive == old(managerAlive)
      ensures !old(managerAlive) ==> unchanged(this) && r == Err(ManagerDropped())
      ensures old(managerAlive) ==>
        && DeepestFirstDescendants(old(records), target, desc)
        && r == CloseReport(old(threads), desc, target, reply)
        && threads == old(threads) - Elems(desc + [target])
        && spawned == old(spawned) - Elems(desc + [target])
        && records == SweepRecords(old(records), old(threads), desc + [target], reply)
    {
      r, desc := ShutdownAgentWithDescendants(target, true, reply);
    }
  }

  /** The first record for `id`, if any. */
  function FindRecord(records: seq<AgentRecord>, id: ThreadId): (r: Option<AgentRecord>)
    ensures r.Some? ==> r.value in records && r.value.agentId == id
    ensures r.None? ==> id !in AgentIds(records)
  {
    if records == [] then None
    else if records[0].agentId == id then Some(records[0])
    else
      var rest := FindRecord(records[1..], id);
      assert AgentIds(records) == {records[0].agentId} + AgentIds(records[1..]) by {
        forall x | x in AgentIds(records) ensures x in {records[0].agentId} + AgentIds(records[1..]) {
          var i :| 0 <= i < |records| && records[i].agentId == x;
          if i > 0 { assert records[1..][i - 1] == records[i]; }
        }
        forall x | x in AgentIds(records[1..]) ensures x in AgentIds(records) {
          var i :| 0 <= i < |records[1..]| && records[1..][i].agentId == x;
          assert records[i + 1] == records[1..][i];
        }
      }
      rest
  }
}
