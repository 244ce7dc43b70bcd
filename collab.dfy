/**
 * The collaboration tools a model calls to drive sub-agents: spawn, send
 * input, wait for one or many agents, list, and close one or many agents.
 *
 * Each handler is modelled over the registry of `AgentControl`. Waiting is a
 * predicate over status snapshots: a snapshot per poll, taken on an abstract
 * clock that advances in 50 ms steps up to the deadline. A handler's error is
 * the message it returns to the model.
 */
module Collab {
  import opened Wrappers
  import opened Text
  import opened AgentControl

  const MinWaitTimeoutMs: int := 100
  const MaxWaitTimeoutMs: int := 300000
  /** The wait_agents poll interval. */
  const PollIntervalMs: nat := 50

  const ManagerUnavailable: string := "collab manager unavailable"

  // ---------------------------------------------------------------------------
  // Timeouts

  /**
   * `resolve_wait_timeout_ms`: the requested timeout, else the configured
   * default; negative is refused, zero means "do not wait", anything else is
   * clamped into [MinWaitTimeoutMs, MaxWaitTimeoutMs].
   */
  function ResolveWaitTimeoutMs(timeoutMs: Option<int>, defaultTimeoutMs: int): (r: Result<int, string>)
    ensures var ms := timeoutMs.UnwrapOr(defaultTimeoutMs);
      && (r.Err? <==> ms < 0)
      && (r.Err? ==> r.error == "timeout_ms must be greater than or equal to zero")
      && (ms == 0 ==> r == Ok(0))
      && (ms > 0 ==> r.Ok? && MinWaitTimeoutMs <= r.value <= MaxWaitTimeoutMs)
      && (MinWaitTimeoutMs <= ms <= MaxWaitTimeoutMs ==> r == Ok(ms))
      && (0 < ms < MinWaitTimeoutMs ==> r == Ok(MinWaitTimeoutMs))
      && (ms > MaxWaitTimeoutMs ==> r == Ok(MaxWaitTimeoutMs))
  {
    var ms := timeoutMs.UnwrapOr(defaultTimeoutMs);
    if ms < 0 then Err("timeout_ms must be greater than or equal to zero")
    else if ms == 0 then Ok(0)
    else if ms < MinWaitTimeoutMs then Ok(MinWaitTimeoutMs)
    else if ms > MaxWaitTimeoutMs then Ok(MaxWaitTimeoutMs)
    else Ok(ms)
  }

  /** A resolved timeout resolves to itself. */
  lemma ResolveWaitTimeoutStable(timeoutMs: Option<int>, defaultTimeoutMs: int, otherDefault: int)
    requires ResolveWaitTimeoutMs(timeoutMs, defaultTimeoutMs).Ok?
    ensures ResolveWaitTimeoutMs(Some(ResolveWaitTimeoutMs(timeoutMs, defaultTimeoutMs).value), otherDefault)
         == ResolveWaitTimeoutMs(timeoutMs, defaultTimeoutMs)
  {
  }

  // ---------------------------------------------------------------------------
  // Errors

  /** `collab_agent_error`. */
  function CollabAgentError(agentId: ThreadId, err: CodexErr): (msg: string)
    ensures err.ThreadNotFound? ==> msg == "agent with id " + err.id + " not found"
    ensures err.InternalAgentDied? ==> msg == "agent with id " + agentId + " is closed"
    ensures err.UnsupportedOperation? ==> msg == ManagerUnavailable
  {
    match err
    case ThreadNotFound(id) => "agent with id " + id + " not found"
    case InternalAgentDied => "agent with id " + agentId + " is closed"
    case UnsupportedOperation(_) => ManagerUnavailable
    case _ => "collab tool failed: " + Render(err)
  }

  /** `collab_spawn_error`. */
  function CollabSpawnError(err: CodexErr): (msg: string)
    ensures err.UnsupportedOperation? ==> msg == ManagerUnavailable
    ensures !err.UnsupportedOperation? ==> msg == "collab spawn failed: " + Render(err)
  {
    match err
    case UnsupportedOperation(_) => ManagerUnavailable
    case _ => "collab spawn failed: " + Render(err)
  }

  // ---------------------------------------------------------------------------
  // Status lookups over a snapshot of the live threads

  /** What `get_status` reports for `id` while the manager is reachable. */
  function StatusIn(threads: map<ThreadId, AgentStatus>, id: ThreadId): AgentStatus {
    if id in threads then threads[id] else NotFound
  }

  datatype StatusEntry = StatusEntry(agentId: ThreadId, status: AgentStatus)

  datatype WaitWakeupReason = AnyCompleted | AllCompleted | Timeout | NoTargets

  // ---------------------------------------------------------------------------
  // wait

  /** The statuses keyed by agent id; a later entry for the same id wins. */
  datatype WaitResult = WaitResult(statuses: map<ThreadId, AgentStatus>, timedOut: bool, wakeupReason: WaitWakeupReason)

  /**
   * The parser of thread ids (`ThreadId::from_string`): the canonical id, or
   * why the text is not one.
   */
  type IdParser = string -> Result<ThreadId, string>

  /** `agent_id`: a parsed id, or the message naming the refused text. */
  function ParseAgentId(id: string, parse: IdParser): (r: Result<ThreadId, string>)
    ensures r.Ok? <==> parse(id).Ok?
    ensures r.Ok? ==> r.value == parse(id).value
    ensures r.Err? ==> r.error == "invalid agent id " + id + ": " + parse(id).error
  {
    match parse(id)
    case Ok(x) => Ok(x)
    case Err(e) => Err("invalid agent id " + id + ": " + e)
  }

  /** The position of the first id the parser refuses, or the length when it refuses none. */
  function FirstRefused(ids: seq<string>, parse: IdParser): (k: nat)
    ensures k <= |ids|
    ensures forall i :: 0 <= i < k ==> parse(ids[i]).Ok?
    ensures k < |ids| ==> parse(ids[k]).Err?
  {
    if ids == [] then 0
    else
      var n := |ids| - 1;
      var k := FirstRefused(ids[..n], parse);
      assert forall i :: 0 <= i < n ==> ids[..n][i] == ids[i];
      if k < n then k else if parse(ids[n]).Err? then n else n + 1
  }

  /** Parsing a list of ids stops at the first refusal (`collect::<Result<Vec<_>, _>>()`). */
  function ParseAgentIds(ids: seq<string>, parse: IdParser): (r: Result<seq<ThreadId>, string>)
    ensures var k := FirstRefused(ids, parse);
      && (r.Ok? <==> k == |ids|)
      && (k < |ids| ==> r == Err(ParseAgentId(ids[k], parse).error))
    ensures r.Ok? ==> |r.value| == |ids| && forall i :: 0 <= i < |ids| ==> r.value[i] == parse(ids[i]).value
  {
    if ids == [] then Ok([])
    else
      var n := |ids| - 1;
      var prev := ParseAgentIds(ids[..n], parse);
      assert forall i :: 0 <= i < n ==> ids[..n][i] == ids[i];
      if prev.Err? then prev
      else match ParseAgentId(ids[n], parse)
        case Err(e) => Err(e)
        case Ok(x) => Ok(prev.value + [x])
  }

  /** The map a list of entries collects into: every entry's id, with the status of its last entry. */
  function EntriesMap(entries: seq<StatusEntry>): (m: map<ThreadId, AgentStatus>)
    ensures forall id :: id in m <==> exists e :: e in entries && e.agentId == id
    ensures forall id :: id in m ==> StatusEntry(id, m[id]) in entries
    ensures m == map[] <==> entries == []
  {
    if entries == [] then map[]
    else
      var n := |entries| - 1;
      assert forall e :: e in entries <==> e in entries[..n] || e == entries[n];
      var m := EntriesMap(entries[..n])[entries[n].agentId := entries[n].status];
      assert entries[n].agentId in m;
      m
  }

  /** `agent_ids` when non-empty, else the single `agent_id`, else nothing. */
  function SelectWaitIds(agentId: Option<string>, agentIds: Option<seq<string>>): (ids: seq<string>)
    ensures agentIds.Some? && agentIds.value != [] ==> ids == agentIds.value
    ensures (agentIds.None? || agentIds.value == []) && agentId.Some? ==> ids == [agentId.value]
    ensures ids == [] <==> (agentIds.None? || agentIds.value == []) && agentId.None?
  {
    var ids := agentIds.UnwrapOr([]);
    if ids == [] && agentId.Some? then [agentId.value] else ids
  }

  /**
   * The targets that are already final when subscribed, in target order: an
   * unknown thread counts as final with status NotFound.
   */
  function InitialFinalStatuses(threads: map<ThreadId, AgentStatus>, ids: seq<ThreadId>): (r: seq<StatusEntry>)
    ensures forall e :: e in r ==> e.agentId in ids && IsFinal(e.status) && e.status == StatusIn(threads, e.agentId)
    ensures forall id :: id in ids && IsFinal(StatusIn(threads, id)) ==> StatusEntry(id, StatusIn(threads, id)) in r
    ensures r == [] <==> forall id :: id in ids ==> !IsFinal(StatusIn(threads, id))
  {
    if ids == [] then []
    else
      var n := |ids| - 1;
      var prev := InitialFinalStatuses(threads, ids[..n]);
      assert forall id :: id in ids <==> id in ids[..n] || id == ids[n];
      var id := ids[n];
      if id !in threads then prev + [StatusEntry(id, NotFound)]
      else if IsFinal(threads[id]) then prev + [StatusEntry(id, threads[id])]
      else prev
  }

  /** The final entries of a snapshot, in order. */
  function FinalEntries(statuses: seq<StatusEntry>): (r: seq<StatusEntry>)
    ensures forall e :: e in r <==> e in statuses && IsFinal(e.status)
    ensures r == [] <==> FinalIds(statuses) == []
  {
    if statuses == [] then []
    else
      var n := |statuses| - 1;
      assert forall e :: e in statuses <==> e in statuses[..n] || e == statuses[n];
      FinalEntries(statuses[..n]) + (if IsFinal(statuses[n].status) then [statuses[n]] else [])
  }

  /**
   * What `wait` returns once the initial statuses and the timeout are known:
   * the initial final statuses if any, nothing for a zero timeout, else the
   * statuses `raced` that became final before the deadline.
   */
  function WaitOutcome(initial: seq<StatusEntry>, timeoutMs: int, raced: seq<StatusEntry>): (r: WaitResult)
    ensures r.timedOut <==> r.statuses == map[]
    ensures r.wakeupReason == (if r.timedOut then Timeout else AnyCompleted)
    ensures initial != [] ==> r.statuses == EntriesMap(initial)
    ensures initial == [] && timeoutMs == 0 ==> r.timedOut
    ensures initial == [] && timeoutMs != 0 ==> r.statuses == EntriesMap(raced)
  {
    var statuses := if initial != [] then initial else if timeoutMs == 0 then [] else raced;
    WaitResult(EntriesMap(statuses), statuses == [], if statuses == [] then Timeout else AnyCompleted)
  }

  /**
   * The race of `wait`: polls the targets until one of them is final or the
   * deadline is reached, and returns every target that is final at that poll.
   */
  method RaceToFinal(ids: seq<ThreadId>, timeoutMs: nat, observe: nat -> (ThreadId -> AgentStatus))
    returns (raced: seq<StatusEntry>, ghost tick: nat)
    requires ids != []
    ensures raced == FinalEntries(Snapshot(ids, observe(tick)))
    ensures forall t :: 0 <= t < tick ==> FinalEntries(Snapshot(ids, observe(t))) == []
    ensures raced == [] ==> PollTime(tick, timeoutMs) == timeoutMs
    ensures forall e :: e in raced ==> e.agentId in ids && IsFinal(e.status)
  {
    var polled;
    polled, tick := WaitForAgents(ids, Any, timeoutMs, observe);
    raced := FinalEntries(polled.statuses);
  }

  /**
   * `wait`: picks the target ids and parses them, resolves the timeout,
   * subscribes to every target and returns at once with the targets that are
   * already final. Otherwise a zero timeout returns nothing, and a positive
   * one races the targets to a final status on the poll clock `observe`.
   */
  method Wait(ctl: Control, agentId: Option<string>, agentIds: Option<seq<string>>, parse: IdParser,
              timeoutMs: Option<int>, defaultTimeoutMs: int, observe: nat -> (ThreadId -> AgentStatus))
    returns (r: Result<WaitResult, string>, ghost tick: nat)
    ensures var raw := SelectWaitIds(agentId, agentIds);
      var parsed := ParseAgentIds(raw, parse);
      var timeout := ResolveWaitTimeoutMs(timeoutMs, defaultTimeoutMs);
      && (raw == [] ==> r == Err("agent_ids must be non-empty"))
      && (raw != [] && parsed.Err? ==> r == Err(parsed.error))
      && (raw != [] && parsed.Ok? && timeout.Err? ==> r == Err(timeout.error))
      && (raw != [] && parsed.Ok? && timeout.Ok? && !ctl.managerAlive ==> r == Err(ManagerUnavailable))
    ensures var raw := SelectWaitIds(agentId, agentIds);
      var parsed := ParseAgentIds(raw, parse);
      var timeout := ResolveWaitTimeoutMs(timeoutMs, defaultTimeoutMs);
      raw != [] && parsed.Ok? && timeout.Ok? && ctl.managerAlive ==>
        var initial := InitialFinalStatuses(ctl.threads, parsed.value);
        && r.Ok?
        && (forall id :: id in r.value.statuses ==> id in parsed.value && IsFinal(r.value.statuses[id]))
        && (initial != [] ==> r.value.statuses == EntriesMap(initial))
        && (initial == [] && timeout.value == 0 ==> r.value.timedOut)
    ensures var raw := SelectWaitIds(agentId, agentIds);
      var parsed := ParseAgentIds(raw, parse);
      var timeout := ResolveWaitTimeoutMs(timeoutMs, defaultTimeoutMs);
      (raw != [] && parsed.Ok? && timeout.Ok? && ctl.managerAlive ==>
            var initial := InitialFinalStatuses(ctl.threads, parsed.value);
            var raced := FinalEntries(Snapshot(parsed.value, observe(tick)));
            && r == Ok(WaitOutcome(initial, timeout.value, raced))
            && (initial == [] && timeout.value != 0 ==>
                  && (forall t :: 0 <= t < tick ==> FinalEntries(Snapshot(parsed.value, observe(t))) == [])
                  && (raced == [] ==> PollTime(tick, timeout.value) == timeout.value)))
  {
    tick := 0;
    var raw := SelectWaitIds(agentId, agentIds);
    if raw == [] {
      return Err("agent_ids must be non-empty"), tick;
    }
    var parsed := ParseAgentIds(raw, parse);
    if parsed.Err? {
      return Err(parsed.error), tick;
    }
    var ids := parsed.value;
    var timeout := ResolveWaitTimeoutMs(timeoutMs, defaultTimeoutMs);
    if timeout.Err? {
      return Err(timeout.error), tick;
    }
    if !ctl.managerAlive {
      return Err(CollabAgentError(ids[0], ManagerDropped())), tick;
    }
    var initial: seq<StatusEntry> := [];
    var i := 0;
    while i < |ids|
      invariant 0 <= i <= |ids|
      invariant initial == InitialFinalStatuses(ctl.threads, ids[..i])
    {
      var id := ids[i];
      assert ids[..i + 1][..i] == ids[..i];
      var status := ctl.SubscribeStatus(id);
      if status.Ok? {
        if IsFinal(status.value) {
          initial := initial + [StatusEntry(id, status.value)];
        }
      } else {
        initial := initial + [StatusEntry(id, NotFound)];
      }
      i := i + 1;
    }
    assert ids[..i] == ids;
    var raced: seq<StatusEntry> := [];
    if initial == [] && timeout.value != 0 {
      raced, tick := RaceToFinal(ids, timeout.value, observe);
    }
    r := Ok(WaitOutcome(initial, timeout.value, raced));
  }

  // ---------------------------------------------------------------------------
  // wait_agents

  datatype WaitAgentsMode = Any | All

  datatype WaitAgentsResult = WaitAgentsResult(
    statuses: seq<StatusEntry>,
    completedAgentIds: seq<ThreadId>,
    timedOut: bool,
    wakeupReason: WaitWakeupReason)

  /** Ids of the final entries, in order. */
  function FinalIds(statuses: seq<StatusEntry>): (r: seq<ThreadId>)
    ensures |r| <= |statuses|
    ensures forall id :: id in r <==> exists e :: e in statuses && e.agentId == id && IsFinal(e.status)
  {
    if statuses == [] then []
    else
      var n := |statuses| - 1;
      var prev := FinalIds(statuses[..n]);
      assert forall e :: e in statuses <==> e in statuses[..n] || e == statuses[n];
      if IsFinal(statuses[n].status) then prev + [statuses[n].agentId] else prev
  }

  lemma {:induction false} FinalIdsAll(statuses: seq<StatusEntry>)
    ensures |FinalIds(statuses)| == |statuses| <==> forall i :: 0 <= i < |statuses| ==> IsFinal(statuses[i].status)
  {
    if statuses != [] {
      var n := |statuses| - 1;
      FinalIdsAll(statuses[..n]);
      assert forall i :: 0 <= i < n ==> statuses[..n][i] == statuses[i];
    }
  }

  /** The wake-up condition of a mode over one snapshot. */
  predicate Released(mode: WaitAgentsMode, statuses: seq<StatusEntry>) {
    match mode
    case Any => FinalIds(statuses) != []
    case All => |FinalIds(statuses)| == |statuses|
  }

  /** One poll: the status of each target, in target order. */
  function Snapshot(ids: seq<ThreadId>, view: ThreadId -> AgentStatus): (r: seq<StatusEntry>)
    ensures |r| == |ids| && forall i :: 0 <= i < |ids| ==> r[i] == StatusEntry(ids[i], view(ids[i]))
  {
    seq(|ids|, i requires 0 <= i < |ids| => StatusEntry(ids[i], view(ids[i])))
  }

  /** The abstract clock: poll `tick` happens at this many ms after the start. */
  function PollTime(tick: nat, timeoutMs: nat): nat {
    if PollIntervalMs * tick < timeoutMs then PollIntervalMs * tick else timeoutMs
  }

  /** `collect_statuses`. */
  method CollectStatuses(ids: seq<ThreadId>, view: ThreadId -> AgentStatus) returns (statuses: seq<StatusEntry>)
    ensures statuses == Snapshot(ids, view)
  {
    statuses := [];
    var i := 0;
    while i < |ids|
      invariant 0 <= i <= |ids|
      invariant statuses == Snapshot(ids[..i], view)
    {
      statuses := statuses + [StatusEntry(ids[i], view(ids[i]))];
      i := i + 1;
    }
    assert ids[..i] == ids;
  }

  /**
   * `wait_for_agents`: with no targets, returns `no_targets` at once.
   * Otherwise polls until the mode is released or the deadline is reached;
   * `observe(t)` is what `get_status` reports at poll `t`.
   */
  method WaitForAgents(ids: seq<ThreadId>, mode: WaitAgentsMode, timeoutMs: nat,
                       observe: nat -> (ThreadId -> AgentStatus))
    returns (r: WaitAgentsResult, ghost tick: nat)
    ensures ids == [] ==> r == WaitAgentsResult([], [], false, NoTargets)
    ensures ids != [] ==>
      && r.statuses == Snapshot(ids, observe(tick))
      && r.completedAgentIds == FinalIds(r.statuses)
      && (forall t :: 0 <= t < tick ==> !Released(mode, Snapshot(ids, observe(t))))
      && (r.timedOut <==> !Released(mode, r.statuses))
      && (r.timedOut ==> PollTime(tick, timeoutMs) == timeoutMs)
      && r.wakeupReason == (if r.timedOut then Timeout else if mode.Any? then AnyCompleted else AllCompleted)
  {
    tick := 0;
    if ids == [] {
      return WaitAgentsResult([], [], false, NoTargets), tick;
    }
    var t: nat := 0;
    while true
      invariant forall u :: 0 <= u < t ==> !Released(mode, Snapshot(ids, observe(u)))
      invariant PollIntervalMs * t < timeoutMs + PollIntervalMs
      decreases timeoutMs + PollIntervalMs - PollIntervalMs * t
    {
      var statuses := CollectStatuses(ids, observe(t));
      var completed := FinalIds(statuses);
      var allDone := |completed| == |statuses|;
      var anyDone := completed != [];
      if (mode.Any? && anyDone) || (mode.All? && allDone) {
        return WaitAgentsResult(statuses, completed, false, if mode.Any? then AnyCompleted else AllCompleted), t;
      }
      if PollTime(t, timeoutMs) >= timeoutMs {
        return WaitAgentsResult(statuses, completed, true, Timeout), t;
      }
      t := t + 1;
    }
  }

  /**
   * Removes the ids in `skip` and every repeat, keeping first occurrences in
   * order (the `seen`/`unique_ids` loops).
   */
  function DedupSkipping(ids: seq<ThreadId>, skip: set<ThreadId>): (r: seq<ThreadId>)
  {
    if ids == [] then []
    else
      var n := |ids| - 1;
      var prev := DedupSkipping(ids[..n], skip);
      if ids[n] in skip || ids[n] in prev then prev else prev + [ids[n]]
  }

  /** The de-duplicated list holds each kept id exactly once and nothing else. */
  lemma {:induction false} DedupSkippingSpec(ids: seq<ThreadId>, skip: set<ThreadId>)
    ensures forall x :: x in DedupSkipping(ids, skip) <==> x in ids && x !in skip
    ensures forall i, j :: 0 <= i < j < |DedupSkipping(ids, skip)| ==> DedupSkipping(ids, skip)[i] != DedupSkipping(ids, skip)[j]
    ensures |DedupSkipping(ids, skip)| <= |ids|
  {
    if ids != [] {
      var n := |ids| - 1;
      DedupSkippingSpec(ids[..n], skip);
      assert forall x :: x in ids <==> x in ids[..n] || x == ids[n];
    }
  }

  /** Ids of the records created by `creator`, in registry order, closed or not. */
  function CreatedBy(records: seq<AgentRecord>, creator: ThreadId): (r: seq<ThreadId>)
    ensures |r| <= |records|
  {
    if records == [] then []
    else
      var n := |records| - 1;
      CreatedBy(records[..n], creator) + (if records[n].creator == Some(creator) then [records[n].agentId] else [])
  }

  /** The ids whose current status is not final, in order. */
  function NotFinal(threads: map<ThreadId, AgentStatus>, ids: seq<ThreadId>): (r: seq<ThreadId>)
    ensures forall x :: x in r <==> x in ids && !IsFinal(StatusIn(threads, x))
  {
    if ids == [] then []
    else
      var n := |ids| - 1;
      assert forall x :: x in ids <==> x in ids[..n] || x == ids[n];
      NotFinal(threads, ids[..n]) + (if !IsFinal(StatusIn(threads, ids[n])) then [ids[n]] else [])
  }

  /**
   * `resolve_target_ids`: explicit ids are parsed (the first refusal is the
   * error), de-duplicated and the caller's own id dropped; without explicit ids, the caller's children that are not
   * final yet.
   */
  method ResolveTargetIds(ctl: Control, agentIds: Option<seq<string>>, parse: IdParser, current: ThreadId)
    returns (r: Result<seq<ThreadId>, string>)
    ensures agentIds.Some? && agentIds.value != [] ==>
      var parsed := ParseAgentIds(agentIds.value, parse);
      && (parsed.Err? ==> r == Err(parsed.error))
      && (parsed.Ok? ==> r == Ok(DedupSkipping(parsed.value, {current})))
    ensures (agentIds.None? || agentIds.value == []) && !ctl.managerAlive ==> r == Err(ManagerUnavailable)
    ensures (agentIds.None? || agentIds.value == []) && ctl.managerAlive ==>
      r == Ok(NotFinal(ctl.threads, DedupSkipping(CreatedBy(ctl.records, current), {current})))
  {
    var useExplicitIds := agentIds.Some? && agentIds.value != [];
    var parsedIds: seq<ThreadId>;
    if useExplicitIds {
      var parsed := ParseAgentIds(agentIds.value, parse);
      if parsed.Err? {
        return Err(parsed.error);
      }
      parsedIds := parsed.value;
    } else {
      var agents := ctl.ListAgents();
      if agents.Err? {
        return Err(CollabSpawnError(agents.error));
      }
      parsedIds := CreatedBy(agents.value, current);
    }
    var seen: set<ThreadId> := {};
    var uniqueIds: seq<ThreadId> := [];
    var i := 0;
    while i < |parsedIds|
      invariant 0 <= i <= |parsedIds|
      invariant uniqueIds == DedupSkipping(parsedIds[..i], {current})
      invariant forall x :: x in seen <==> x in uniqueIds
    {
      var id := parsedIds[i];
      assert parsedIds[..i + 1][..i] == parsedIds[..i];
      if id != current && id !in seen {
        seen := seen + {id};
        uniqueIds := uniqueIds + [id];
      }
      i := i + 1;
    }
    assert parsedIds[..i] == parsedIds;
    if useExplicitIds {
      return Ok(uniqueIds);
    }
    var activeIds: seq<ThreadId> := [];
    var j := 0;
    while j < |uniqueIds|
      invariant 0 <= j <= |uniqueIds|
      invariant activeIds == NotFinal(ctl.threads, uniqueIds[..j])
    {
      assert uniqueIds[..j + 1][..j] == uniqueIds[..j];
      var status := ctl.GetStatus(uniqueIds[j]);
      if !IsFinal(status) {
        activeIds := activeIds + [uniqueIds[j]];
      }
      j := j + 1;
    }
    assert uniqueIds[..j] == uniqueIds;
    r := Ok(activeIds);
  }

  /** No status is Errored. */
  predicate NoneErrored(statuses: seq<StatusEntry>) {
    forall i :: 0 <= i < |statuses| ==> !statuses[i].status.Errored?
  }

  /**
   * `wait_agents`: resolves the timeout, the mode (default Any) and the
   * targets, then waits. Success means no timeout and no Errored target.
   */
  method WaitAgents(ctl: Control, current: ThreadId, agentIds: Option<seq<string>>, parse: IdParser,
                    mode: Option<WaitAgentsMode>, timeoutMs: Option<int>, defaultTimeoutMs: int,
                    observe: nat -> (ThreadId -> AgentStatus))
    returns (r: Result<WaitAgentsResult, string>, success: bool, ghost targets: seq<ThreadId>)
    ensures ResolveWaitTimeoutMs(timeoutMs, defaultTimeoutMs).Err? ==>
      r == Err(ResolveWaitTimeoutMs(timeoutMs, defaultTimeoutMs).error) && !success
    ensures r.Ok? ==> ResolveWaitTimeoutMs(timeoutMs, defaultTimeoutMs).Ok?
    ensures ResolveWaitTimeoutMs(timeoutMs, defaultTimeoutMs).Ok? && agentIds.Some? && agentIds.value != []
            && ParseAgentIds(agentIds.value, parse).Err? ==>
      r == Err(ParseAgentIds(agentIds.value, parse).error) && !success
    ensures r.Ok? && agentIds.Some? && agentIds.value != [] ==>
      ParseAgentIds(agentIds.value, parse).Ok? && targets == DedupSkipping(ParseAgentIds(agentIds.value, parse).value, {current})
    ensures r.Ok? ==> (|r.value.statuses| == |targets|
      && forall i :: 0 <= i < |targets| ==> r.value.statuses[i].agentId == targets[i])
    ensures r.Ok? && targets == [] ==> r.value.wakeupReason == NoTargets && !r.value.timedOut
    ensures r.Ok? && targets != [] && mode != Some(All) && !r.value.timedOut ==> r.value.wakeupReason == AnyCompleted
    ensures r.Ok? && mode == Some(All) && !r.value.timedOut && targets != [] ==>
      r.value.wakeupReason == AllCompleted && |r.value.completedAgentIds| == |targets|
    ensures success <==> r.Ok? && !r.value.timedOut && NoneErrored(r.value.statuses)
  {
    targets := [];
    var timeout := ResolveWaitTimeoutMs(timeoutMs, defaultTimeoutMs);
    if timeout.Err? {
      return Err(timeout.error), false, targets;
    }
    var m := mode.UnwrapOr(Any);
    var resolved := ResolveTargetIds(ctl, agentIds, parse, current);
    if resolved.Err? {
      return Err(resolved.error), false, targets;
    }
    var ids := resolved.value;
    targets := ids;
    var result, tick := WaitForAgents(ids, m, timeout.value, observe);
    if ids != [] && m.All? && !result.timedOut {
      FinalIdsAll(result.statuses);
    }
    r := Ok(result);
    success := !result.timedOut && NoneErrored(result.statuses);
  }

  // ---------------------------------------------------------------------------
  // list_agents

  datatype AgentStatusKind = KindPendingInit | KindRunning | KindCompleted | KindErrored | KindShutdown | KindNotFound

  /** `status_kind`. */
  function StatusKind(s: AgentStatus): (k: AgentStatusKind)
    ensures s.Completed? <==> k == KindCompleted
    ensures s.Errored? <==> k == KindErrored
  {
    match s
    case PendingInit => KindPendingInit
    case Running => KindRunning
    case Completed(_) => KindCompleted
    case Errored(_) => KindErrored
    case Shutdown => KindShutdown
    case NotFound => KindNotFound
  }

  /** Different statuses of different shapes map to different kinds. */
  lemma StatusKindSeparates(a: AgentStatus, b: AgentStatus)
    requires StatusKind(a) == StatusKind(b)
    ensures a.PendingInit? == b.PendingInit? && a.Running? == b.Running? && a.Shutdown? == b.Shutdown?
      && a.NotFound? == b.NotFound? && a.Completed? == b.Completed? && a.Errored? == b.Errored?
  {
  }

  /** Whether `list_agents` shows a record under the given filters. */
  predicate Listed(rec: AgentRecord, creatorFilter: Option<ThreadId>, statusFilters: set<AgentStatusKind>, includeClosed: bool) {
    && (includeClosed || !rec.closed)
    && (creatorFilter.None? || rec.creator == creatorFilter)
    && (statusFilters == {} || StatusKind(rec.status) in statusFilters)
  }

  function ListedRecords(records: seq<AgentRecord>, creatorFilter: Option<ThreadId>,
                         statusFilters: set<AgentStatusKind>, includeClosed: bool): (r: seq<AgentRecord>)
    ensures forall x :: x in r <==> x in records && Listed(x, creatorFilter, statusFilters, includeClosed)
    ensures |r| <= |records|
  {
    if records == [] then []
    else
      var n := |records| - 1;
      assert forall x :: x in records <==> x in records[..n] || x == records[n];
      ListedRecords(records[..n], creatorFilter, statusFilters, includeClosed)
        + (if Listed(records[n], creatorFilter, statusFilters, includeClosed) then [records[n]] else [])
  }

  lemma ListedRecordsStep(recs: seq<AgentRecord>, i: nat, creatorFilter: Option<ThreadId>,
                           statusFilters: set<AgentStatusKind>, includeClosed: bool)
    requires i < |recs|
    ensures ListedRecords(recs[..i + 1], creatorFilter, statusFilters, includeClosed)
      == ListedRecords(recs[..i], creatorFilter, statusFilters, includeClosed)
         + (if Listed(recs[i], creatorFilter, statusFilters, includeClosed) then [recs[i]] else [])
  {
    assert recs[..i + 1][..i] == recs[..i];
  }

  function KindSet(kinds: seq<AgentStatusKind>): set<AgentStatusKind> {
    set k | k in kinds
  }

  /**
   * `list_agents`: the registry in order, minus closed records unless
   * `include_closed`, restricted to one creator when `agent_id` is given (and
   * parses), and
   * to the listed status kinds when that list is non-empty.
   */
  method ListAgents(ctl: Control, agentId: Option<string>, parse: IdParser, statuses: Option<seq<AgentStatusKind>>,
                    includeClosed: Option<bool>)
    returns (r: Result<seq<AgentRecord>, string>)
    ensures agentId.Some? && parse(agentId.value).Err? ==> r == Err(ParseAgentId(agentId.value, parse).error)
    ensures (agentId.None? || parse(agentId.value).Ok?) && !ctl.managerAlive ==> r == Err(ManagerUnavailable)
    ensures (agentId.None? || parse(agentId.value).Ok?) && ctl.managerAlive ==>
      var creatorFilter := if agentId.Some? then Some(parse(agentId.value).value) else None;
      r == Ok(ListedRecords(ctl.records, creatorFilter, KindSet(statuses.UnwrapOr([])), includeClosed.UnwrapOr(false)))
  {
    var creatorFilter: Option<ThreadId> := None;
    if agentId.Some? {
      var parsed := ParseAgentId(agentId.value, parse);
      if parsed.Err? {
        return Err(parsed.error);
      }
      creatorFilter := Some(parsed.value);
    }
    var statusFilters := KindSet(statuses.UnwrapOr([]));
    var withClosed := includeClosed.UnwrapOr(false);
    var agents := ctl.ListAgents();
    if agents.Err? {
      return Err(CollabSpawnError(agents.error));
    }
    var recs := agents.value;
    var items: seq<AgentRecord> := [];
    var i := 0;
    while i < |recs|
      invariant 0 <= i <= |recs|
      invariant items == ListedRecords(recs[..i], creatorFilter, statusFilters, withClosed)
    {
      var agent := recs[i];
      ListedRecordsStep(recs, i, creatorFilter, statusFilters, withClosed);
      if !withClosed && agent.closed {
      } else if creatorFilter.Some? && agent.creator != creatorFilter {
      } else if statusFilters != {} && StatusKind(agent.status) !in statusFilters {
      } else {
        items := items + [agent];
      }
      i := i + 1;
    }
    assert recs[..i] == recs;
    r := Ok(items);
  }

  // ---------------------------------------------------------------------------
  // close_agent

  /**
   * What the close handler reports: the status of its end event, if it
   * emits one, and the handler's result.
   */
  datatype CloseOutcome = CloseOutcome(eventStatus: Option<AgentStatus>, result: Result<AgentStatus, string>)

  /** `resolve_closed_agent_status`: a closed record's status, else the live status. */
  function ClosedOrLiveStatus(records: seq<AgentRecord>, threads: map<ThreadId, AgentStatus>, id: ThreadId): AgentStatus {
    var rec := FindRecord(records, id);
    if rec.Some? && rec.value.closed then rec.value.status else StatusIn(threads, id)
  }

  /**
   * `close_agent`: parses the id, looks the agent up, shuts it down (with its
   * descendants when auto-close is configured) unless it already reports
   * Shutdown, and reports Shutdown on success. A failed close reports the
   * closed record's status, else the live one, and returns the error.
   */
  method CloseAgent(ctl: Control, agentId: string, parse: IdParser, autoClose: bool,
                    reply: ThreadId -> Result<string, CodexErr>)
    returns (out: CloseOutcome, ghost desc: seq<ThreadId>)
    modifies ctl
    ensures parse(agentId).Err? ==> out == CloseOutcome(None, Err(ParseAgentId(agentId, parse).error)) && unchanged(ctl)
    ensures parse(agentId).Ok? && !old(ctl.managerAlive) ==>
      out == CloseOutcome(Some(NotFound), Err(ManagerUnavailable)) && unchanged(ctl)
    ensures parse(agentId).Ok? && old(ctl.managerAlive) && parse(agentId).value !in old(ctl.threads) ==>
      out == CloseOutcome(Some(NotFound), Err("agent with id " + parse(agentId).value + " not found")) && unchanged(ctl)
    ensures parse(agentId).Ok? && old(ctl.managerAlive) && parse(agentId).value in old(ctl.threads)
            && old(ctl.threads)[parse(agentId).value] == Shutdown ==>
      out == CloseOutcome(Some(Shutdown), Ok(Shutdown)) && unchanged(ctl)
    ensures parse(agentId).Ok? && old(ctl.managerAlive) && parse(agentId).value in old(ctl.threads)
            && old(ctl.threads)[parse(agentId).value] != Shutdown ==>
      var id := parse(agentId).value;
      var report := CloseReport(old(ctl.threads), desc, id, reply);
      && ctl.managerAlive
      && id !in ctl.threads
      && (autoClose ==> DeepestFirstDescendants(old(ctl.records), id, desc))
      && (!autoClose ==> desc == [])
      && (report.Ok? ==> out == CloseOutcome(Some(Shutdown), Ok(Shutdown)))
      && (report.Err? ==> out == CloseOutcome(Some(ClosedOrLiveStatus(ctl.records, ctl.threads, id)),
                                               Err(CollabAgentError(id, report.error))))
  {
    desc := [];
    var parsed := ParseAgentId(agentId, parse);
    if parsed.Err? {
      return CloseOutcome(None, Err(parsed.error)), desc;
    }
    var id := parsed.value;
    var subscribed := ctl.SubscribeStatus(id);
    if subscribed.Err? {
      var status := ctl.GetStatus(id);
      return CloseOutcome(Some(status), Err(CollabAgentError(id, subscribed.error))), desc;
    }
    var status := subscribed.value;
    if status == Shutdown {
      return CloseOutcome(Some(Shutdown), Ok(Shutdown)), desc;
    }
    var closeResult;
    closeResult, desc := ctl.ShutdownAgentWithDescendants(id, autoClose, reply);
    assert id in Elems(desc + [id]);
    if closeResult.Ok? {
      out := CloseOutcome(Some(Shutdown), Ok(Shutdown));
    } else {
      var rec := ctl.GetAgentRecord(id);
      var endStatus := if rec.Ok? && rec.value.Some? && rec.value.value.closed then rec.value.value.status
                       else ctl.GetStatus(id);
      out := CloseOutcome(Some(endStatus), Err(CollabAgentError(id, closeResult.error)));
    }
  }

  // ---------------------------------------------------------------------------
  // close_agents

  datatype CloseItem = CloseItem(agentId: ThreadId, status: AgentStatus, closed: bool, error: Option<string>)

  /** The entry for an id that is not found: never an error when missing ids are ignored. */
  function MissingItem(id: ThreadId, ignoreMissing: bool): CloseItem {
    CloseItem(id, NotFound, false, if ignoreMissing then None else Some("agent with id " + id + " not found"))
  }

  /** The shape every entry has: closed exactly when it reports Shutdown, and then without error. */
  predicate WellFormedItem(item: CloseItem, ignoreMissing: bool) {
    && (item.closed <==> item.status == Shutdown)
    && (item.closed ==> item.error.None?)
    && (!item.closed ==> item.status == NotFound)
    && (!item.closed && item.error.None? ==> ignoreMissing)
  }

  /**
   * How one id of `close_agents` was handled against the registry as it
   * stood when its turn came: an id that is not found gets the missing
   * entry; any other was shut down (with its descendants when auto-close is
   * configured), and the entry is closed exactly when the close reported no
   * error, else it carries that error.
   */
  ghost predicate ClosedAsReported(alive: bool, threads: map<ThreadId, AgentStatus>, records: seq<AgentRecord>,
                                   id: ThreadId, ignoreMissing: bool, autoClose: bool,
                                   reply: ThreadId -> Result<string, CodexErr>, desc: seq<ThreadId>, item: CloseItem)
  {
    && item.agentId == id
    && WellFormedItem(item, ignoreMissing)
    && (!alive || StatusIn(threads, id) == NotFound ==> item == MissingItem(id, ignoreMissing))
    && (alive && StatusIn(threads, id) != NotFound ==>
          var report := CloseReport(threads, desc, id, reply);
          && (autoClose ==> DeepestFirstDescendants(records, id, desc))
          && (!autoClose ==> desc == [])
          && (item.closed <==> report.Ok?)
          && (report.Err? ==> item.error == Some("collab close failed: " + Render(report.error))))
  }

  /** Every entry so far was handled as `ClosedAsReported` against the state at its turn. */
  ghost predicate BatchClosedAsReported(alive: bool, before: seq<map<ThreadId, AgentStatus>>,
                                        recordsBefore: seq<seq<AgentRecord>>, ids: seq<ThreadId>, ignoreMissing: bool,
                                        autoClose: bool, reply: ThreadId -> Result<string, CodexErr>,
                                        descs: seq<seq<ThreadId>>, items: seq<CloseItem>)
    requires |before| == |recordsBefore| == |descs| == |items| <= |ids|
  {
    forall k :: 0 <= k < |items| ==>
      ClosedAsReported(alive, before[k], recordsBefore[k], ids[k], ignoreMissing, autoClose, reply, descs[k], items[k])
  }

  lemma BatchClosedAsReportedSnoc(alive: bool, before: seq<map<ThreadId, AgentStatus>>,
                                  recordsBefore: seq<seq<AgentRecord>>, ids: seq<ThreadId>, ignoreMissing: bool,
                                  autoClose: bool, reply: ThreadId -> Result<string, CodexErr>,
                                  descs: seq<seq<ThreadId>>, items: seq<CloseItem>,
                                  threads: map<ThreadId, AgentStatus>, records: seq<AgentRecord>,
                                  desc: seq<ThreadId>, item: CloseItem)
    requires |before| == |recordsBefore| == |descs| == |items| < |ids|
    requires BatchClosedAsReported(alive, before, recordsBefore, ids, ignoreMissing, autoClose, reply, descs, items)
    requires ClosedAsReported(alive, threads, records, ids[|items|], ignoreMissing, autoClose, reply, desc, item)
    ensures BatchClosedAsReported(alive, before + [threads], recordsBefore + [records], ids, ignoreMissing, autoClose,
                                  reply, descs + [desc], items + [item])
  {
  }

  /**
   * `close_agents`: refuses an empty list, parses the ids (the first refusal
   * is the error), de-duplicates them and closes each one in order. An id
   * not found still gets an entry, with an error unless `ignore_missing`.
   * The batch succeeds exactly when no entry has an error. `before[k]`,
   * `recordsBefore[k]` and `descs[k]` are the live threads, the registry and
   * the descendants closed at the k-th id's turn.
   */
  method CloseAgents(ctl: Control, agentIds: seq<string>, parse: IdParser, ignoreMissing: Option<bool>,
                     autoClose: bool, reply: ThreadId -> Result<string, CodexErr>)
    returns (r: Result<seq<CloseItem>, string>, success: bool,
             ghost before: seq<map<ThreadId, AgentStatus>>, ghost recordsBefore: seq<seq<AgentRecord>>,
             ghost descs: seq<seq<ThreadId>>)
    modifies ctl
    ensures agentIds == [] ==> r == Err("agent_ids must not be empty") && !success && unchanged(ctl)
    ensures agentIds != [] && ParseAgentIds(agentIds, parse).Err? ==>
      r == Err(ParseAgentIds(agentIds, parse).error) && !success && unchanged(ctl)
    ensures agentIds != [] && ParseAgentIds(agentIds, parse).Ok? ==> r.Ok?
    ensures r.Ok? ==>
      var ids := DedupSkipping(ParseAgentIds(agentIds, parse).value, {});
      && |r.value| == |ids| == |before| == |recordsBefore| == |descs|
      && BatchClosedAsReported(old(ctl.managerAlive), before, recordsBefore, ids, ignoreMissing.UnwrapOr(false),
                               autoClose, reply, descs, r.value)
      && (|ids| > 0 ==> before[0] == old(ctl.threads) && recordsBefore[0] == old(ctl.records))
      && (forall k :: 0 <= k < |ids| - 1 ==> before[k + 1].Keys <= before[k].Keys)
      && (forall k :: 0 <= k < |ids| && old(ctl.managerAlive) && StatusIn(before[k], ids[k]) != NotFound ==>
            ids[k] !in ctl.threads)
      && (forall k :: 0 <= k < |ids| && (!old(ctl.managerAlive) || ids[k] !in old(ctl.threads)) ==>
            r.value[k] == MissingItem(ids[k], ignoreMissing.UnwrapOr(false)))
      && (success <==> forall k :: 0 <= k < |ids| ==> r.value[k].error.None?)
  {
    before, recordsBefore, descs := [], [], [];
    if agentIds == [] {
      return Err("agent_ids must not be empty"), false, before, recordsBefore, descs;
    }
    var parsed := ParseAgentIds(agentIds, parse);
    if parsed.Err? {
      return Err(parsed.error), false, before, recordsBefore, descs;
    }
    var ignore := ignoreMissing.UnwrapOr(false);
    var ids := Dedup(parsed.value);
    var results: seq<CloseItem> := [];
    var k := 0;
    while k < |ids|
      invariant 0 <= k <= |ids|
      invariant |results| == |before| == |recordsBefore| == |descs| == k
      invariant ctl.managerAlive == old(ctl.managerAlive)
      invariant k > 0 ==> before[0] == old(ctl.threads) && recordsBefore[0] == old(ctl.records)
      invariant k == 0 ==> ctl.threads == old(ctl.threads) && ctl.records == old(ctl.records)
      invariant forall j :: 0 <= j < k - 1 ==> before[j + 1].Keys <= before[j].Keys
      invariant k > 0 ==> ctl.threads.Keys <= before[k - 1].Keys
      invariant BatchClosedAsReported(old(ctl.managerAlive), before, recordsBefore, ids, ignore, autoClose, reply,
                                      descs, results)
      invariant forall j :: 0 <= j < k && ctl.managerAlive && StatusIn(before[j], ids[j]) != NotFound ==>
        ids[j] !in ctl.threads
      invariant ctl.threads.Keys <= old(ctl.threads).Keys
      invariant forall j :: 0 <= j < k && (!old(ctl.managerAlive) || ids[j] !in old(ctl.threads)) ==>
        results[j] == MissingItem(ids[j], ignore)
    {
      ghost var threads0, records0 := ctl.threads, ctl.records;
      var item, desc := CloseOne(ctl, ids[k], ignore, autoClose, reply);
      BatchClosedAsReportedSnoc(old(ctl.managerAlive), before, recordsBefore, ids, ignore, autoClose, reply,
                                descs, results, threads0, records0, desc, item);
      before, recordsBefore := before + [threads0], recordsBefore + [records0];
      descs := descs + [desc];
      results := results + [item];
      k := k + 1;
    }
    r := Ok(results);
    success := forall j :: 0 <= j < |results| ==> results[j].error.None?;
  }

  /** The `seen` loop of `close_agents`: first occurrences, in order. */
  method Dedup(agentIds: seq<ThreadId>) returns (ids: seq<ThreadId>)
    ensures ids == DedupSkipping(agentIds, {})
  {
    var seen: set<ThreadId> := {};
    ids := [];
    var i := 0;
    while i < |agentIds|
      invariant 0 <= i <= |agentIds|
      invariant ids == DedupSkipping(agentIds[..i], {})
      invariant forall x :: x in seen <==> x in ids
    {
      assert agentIds[..i + 1][..i] == agentIds[..i];
      if agentIds[i] !in seen {
        seen := seen + {agentIds[i]};
        ids := ids + [agentIds[i]];
      }
      i := i + 1;
    }
    assert agentIds[..i] == agentIds;
  }

  /**
   * One step of `close_agents`: an id whose status is NotFound gets the
   * missing entry; any other is shut down (with its descendants when
   * auto-close is configured) and reports Shutdown, or its status after the
   * failure together with the error.
   */
  method CloseOne(ctl: Control, id: ThreadId, ignoreMissing: bool, autoClose: bool,
                  reply: ThreadId -> Result<string, CodexErr>)
    returns (item: CloseItem, ghost desc: seq<ThreadId>)
    modifies ctl
    ensures ClosedAsReported(old(ctl.managerAlive), old(ctl.threads), old(ctl.records), id, ignoreMissing, autoClose,
                             reply, desc, item)
    ensures ctl.managerAlive == old(ctl.managerAlive)
    ensures ctl.threads.Keys <= old(ctl.threads).Keys
    ensures !old(ctl.managerAlive) || StatusIn(old(ctl.threads), id) == NotFound ==> unchanged(ctl)
    ensures old(ctl.managerAlive) && StatusIn(old(ctl.threads), id) != NotFound ==> id !in ctl.threads
  {
    desc := [];
    var statusBefore := ctl.GetStatus(id);
    if statusBefore == NotFound {
      return MissingItem(id, ignoreMissing), desc;
    }
    var closeResult;
    closeResult, desc := ctl.ShutdownAgentWithDescendants(id, autoClose, reply);
    assert id in Elems(desc + [id]);
    var status := if closeResult.Ok? then Shutdown else ctl.GetStatus(id);
    var error := if closeResult.Ok? then None else Some("collab close failed: " + Render(closeResult.error));
    item := CloseItem(id, status, closeResult.Ok?, error);
  }

  // ---------------------------------------------------------------------------
  // Spawn limits

  /**
   * `spawn_depth`: the number of creator links from `id` upwards, or None when
   * `fuel` lookups are not enough to reach an agent without a creator.
   */
  function ChainDepth(records: seq<AgentRecord>, id: ThreadId, fuel: nat): Option<nat>
    decreases fuel
  {
    if fuel == 0 then None
    else match FindRecord(records, id)
      case None => Some(0)
      case Some(rec) =>
        if rec.creator.None? then Some(0)
        else match ChainDepth(records, rec.creator.value, fuel - 1)
          case None => None
          case Some(d) => Some(d + 1)
  }

  /** More fuel never changes a depth already found. */
  lemma {:induction false} ChainDepthFuel(records: seq<AgentRecord>, id: ThreadId, fuel: nat, more: nat)
    requires ChainDepth(records, id, fuel).Some? && fuel <= more
    ensures ChainDepth(records, id, more) == ChainDepth(records, id, fuel)
    decreases fuel
  {
    var rec := FindRecord(records, id);
    if rec.Some? && rec.value.creator.Some? {
      ChainDepthFuel(records, rec.value.creator.value, fuel - 1, more - 1);
    }
  }

  /** The depth of an agent with a creator is one more than its creator's. */
  lemma ChainDepthStep(records: seq<AgentRecord>, id: ThreadId, fuel: nat)
    requires ChainDepth(records, id, fuel).Some?
    requires FindRecord(records, id).Some? && FindRecord(records, id).value.creator.Some?
    ensures ChainDepth(records, FindRecord(records, id).value.creator.value, fuel - 1).Some?
    ensures ChainDepth(records, id, fuel).value
         == ChainDepth(records, FindRecord(records, id).value.creator.value, fuel - 1).value + 1
  {
  }

  /** The creator chain from `id` ends within as many lookups as there are records, plus one. */
  predicate ChainEnds(records: seq<AgentRecord>, id: ThreadId) {
    ChainDepth(records, id, |records| + 1).Some?
  }

  /** The walk of `spawn_depth`, following creator links one record at a time. */
  method SpawnDepth(ctl: Control, id: ThreadId) returns (r: Result<nat, string>)
    requires ctl.managerAlive ==> ChainEnds(ctl.records, id)
    ensures !ctl.managerAlive ==> r == Err(ManagerUnavailable)
    ensures ctl.managerAlive ==> r == Ok(ChainDepth(ctl.records, id, |ctl.records| + 1).value)
  {
    if !ctl.managerAlive {
      return Err(ManagerUnavailable);
    }
    var depth: nat := 0;
    var threadId := id;
    ghost var fuel: nat := |ctl.records| + 1;
    while true
      invariant ChainDepth(ctl.records, threadId, fuel).Some?
      invariant depth + ChainDepth(ctl.records, threadId, fuel).value == ChainDepth(ctl.records, id, |ctl.records| + 1).value
      decreases fuel
    {
      var rec := ctl.GetAgentRecord(threadId);
      if rec.value.None? {
        break;
      }
      if rec.value.value.creator.None? {
        break;
      }
      ChainDepthStep(ctl.records, threadId, fuel);
      depth := depth + 1;
      threadId := rec.value.value.creator.value;
      fuel := fuel - 1;
    }
    r := Ok(depth);
  }

  /** The creator's non-closed children that are still starting or running. */
  function ActiveChildCount(records: seq<AgentRecord>, creator: ThreadId): (n: nat)
    ensures n <= |records|
  {
    if records == [] then 0
    else
      var last := records[|records| - 1];
      ActiveChildCount(records[..|records| - 1], creator)
        + (if last.creator == Some(creator) && !last.closed && (last.status.PendingInit? || last.status.Running?) then 1 else 0)
  }

  /** The creator's own record forbids nested agents. */
  predicate NestingDisabled(records: seq<AgentRecord>, creator: ThreadId) {
    var rec := FindRecord(records, creator);
    rec.Some? && !rec.value.allowNestedAgents
  }

  /**
   * The verdict of `validate_spawn_limits` over a reachable registry: refused
   * when the creator's record forbids nesting, when its creator chain is
   * already `maxSpawnDepth` deep, or when it already has `maxActiveSubagents`
   * active children, checked in that order.
   */
  function SpawnLimitVerdict(records: seq<AgentRecord>, creator: ThreadId, maxSpawnDepth: nat, maxActiveSubagents: nat)
    : (r: Result<(), string>)
    requires ChainEnds(records, creator)
    ensures var depth := ChainDepth(records, creator, |records| + 1).value;
      var active := ActiveChildCount(records, creator);
      && (r.Ok? <==> !NestingDisabled(records, creator) && depth < maxSpawnDepth && active < maxActiveSubagents)
      && (NestingDisabled(records, creator) ==> r == Err("nested agent spawning is disabled for this agent"))
      && (!NestingDisabled(records, creator) && depth >= maxSpawnDepth ==>
            r == Err("maximum spawn depth (" + NatToString(maxSpawnDepth) + ") reached"))
      && (!NestingDisabled(records, creator) && depth < maxSpawnDepth && active >= maxActiveSubagents ==>
            r == Err("maximum active sub-agents per thread (" + NatToString(maxActiveSubagents) + ") reached"))
  {
    if NestingDisabled(records, creator) then Err("nested agent spawning is disabled for this agent")
    else if ChainDepth(records, creator, |records| + 1).value >= maxSpawnDepth then
      Err("maximum spawn depth (" + NatToString(maxSpawnDepth) + ") reached")
    else if ActiveChildCount(records, creator) >= maxActiveSubagents then
      Err("maximum active sub-agents per thread (" + NatToString(maxActiveSubagents) + ") reached")
    else Ok(())
  }

  /** `validate_spawn_limits`: the verdict, after reaching the manager. */
  method ValidateSpawnLimits(ctl: Control, creator: ThreadId, maxSpawnDepth: nat, maxActiveSubagents: nat)
    returns (r: Result<(), string>)
    requires ctl.managerAlive ==> ChainEnds(ctl.records, creator)
    ensures !ctl.managerAlive ==> r == Err(ManagerUnavailable)
    ensures ctl.managerAlive ==> r == SpawnLimitVerdict(ctl.records, creator, maxSpawnDepth, maxActiveSubagents)
  {
    var parent := ctl.GetAgentRecord(creator);
    if parent.Err? {
      return Err(CollabSpawnError(parent.error));
    }
    if parent.value.Some? && !parent.value.value.allowNestedAgents {
      return Err("nested agent spawning is disabled for this agent");
    }
    var depth := SpawnDepth(ctl, creator);
    if depth.value >= maxSpawnDepth {
      return Err("maximum spawn depth (" + NatToString(maxSpawnDepth) + ") reached");
    }
    var agents := ctl.ListAgents();
    var active := ActiveChildCount(agents.value, creator);
    if active >= maxActiveSubagents {
      return Err("maximum active sub-agents per thread (" + NatToString(maxActiveSubagents) + ") reached");
    }
    r := Ok(());
  }

  // ---------------------------------------------------------------------------
  // Input parsing, previews and presets

  datatype UserInput =
    | Text(text: string)
    | Image
    | LocalImage(path: string)
    | Skill(name: string, path: string)
    | Mention(name: string, path: string)
    | OtherInput

  /** `parse_collab_input`: the items are required and must not be empty. */
  function ParseCollabInput(items: Option<seq<UserInput>>): (r: Result<seq<UserInput>, string>)
    ensures r.Ok? <==> items.Some? && items.value != []
    ensures r.Ok? ==> r.value == items.value
    ensures items.None? ==> r == Err("Provide required field: items")
    ensures items == Some([]) ==> r == Err("Items can't be empty")
  {
    match items
    case None => Err("Provide required field: items")
    case Some(xs) => if xs == [] then Err("Items can't be empty") else Ok(xs)
  }

  /** How one input item shows in a preview. */
  function PreviewPart(item: UserInput): string {
    match item
    case Text(text) => text
    case Image => "[image]"
    case LocalImage(path) => "[local_image:" + path + "]"
    case Skill(name, path) => "[skill:$" + name + "](" + path + ")"
    case Mention(name, path) => "[mention:$" + name + "](" + path + ")"
    case OtherInput => "[input]"
  }

  function PreviewParts(items: seq<UserInput>): (parts: seq<string>)
    ensures |parts| == |items| && forall i :: 0 <= i < |items| ==> parts[i] == PreviewPart(items[i])
  {
    seq(|items|, i requires 0 <= i < |items| => PreviewPart(items[i]))
  }

  /** `input_preview`: the item previews joined by newlines. */
  function InputPreview(items: seq<UserInput>): (r: string)
    ensures |items| == 1 ==> r == PreviewPart(items[0])
    ensures items == [] ==> r == ""
  {
    Join(PreviewParts(items), "\n")
  }

  /** Every item's preview is part of the whole preview. */
  lemma InputPreviewMentionsEach(items: seq<UserInput>, i: nat)
    requires i < |items|
    ensures Contains(InputPreview(items), PreviewPart(items[i]))
  {
    JoinContainsPart(PreviewParts(items), "\n", i);
  }

  datatype SubagentPreset = Edit | Read | Grep | Run | Websearch

  function PresetName(p: SubagentPreset): string {
    match p
    case Edit => "edit"
    case Read => "read"
    case Grep => "grep"
    case Run => "run"
    case Websearch => "websearch"
  }

  /** `parse_spawn_preset`: blank means none; otherwise one of the five names, trimmed. */
  function ParseSpawnPreset(preset: Option<string>): (r: Result<Option<SubagentPreset>, string>)
    ensures preset.None? || Trim(preset.value) == [] ==> r == Ok(None)
    ensures r.Ok? && r.value.Some? ==> preset.Some? && Trim(preset.value) == PresetName(r.value.value)
    ensures r.Err? <==> preset.Some? && Trim(preset.value) != []
                        && forall p: SubagentPreset :: PresetName(p) != Trim(preset.value)
  {
    if preset.None? then Ok(None)
    else
      var name := Trim(preset.value);
      if name == [] then Ok(None)
      else if name == "edit" then Ok(Some(Edit))
      else if name == "read" then Ok(Some(Read))
      else if name == "grep" then Ok(Some(Grep))
      else if name == "run" then Ok(Some(Run))
      else if name == "websearch" then Ok(Some(Websearch))
      else
        var allowed := "edit|read|grep|run|websearch";
        Err("unsupported preset `" + name + "`; expected one of " + allowed
            + " / 不支持的 preset `" + name + "`，可选值：" + allowed)
  }

  /** Every preset name parses back to its preset. */
  lemma PresetRoundTrip(p: SubagentPreset)
    ensures ParseSpawnPreset(Some(PresetName(p))) == Ok(Some(p))
  {
    var name := PresetName(p);
    assert !IsWhitespace(name[0]) && !IsWhitespace(name[|name| - 1]);
    assert TrimStart(name) == name;
    assert TrimEnd(name) == name;
  }

  // ---------------------------------------------------------------------------
  // Permission overrides

  datatype AskForApproval = UnlessTrusted | OnFailure | OnRequest | Never
  datatype SandboxMode = ReadOnlyMode | WorkspaceWriteMode | DangerFullAccessMode
  datatype SandboxPolicy = ReadOnly | WorkspaceWrite | DangerFullAccess | ExternalSandbox

  /** `approval_policy_level`: how permissive a policy is. */
  function ApprovalPolicyLevel(p: AskForApproval): nat {
    match p
    case Never => 0
    case UnlessTrusted => 1
    case OnRequest => 2
    case OnFailure => 3
  }

  /** `sandbox_policy_level`. */
  function SandboxPolicyLevel(p: SandboxPolicy): nat {
    match p
    case ReadOnly => 0
    case WorkspaceWrite => 1
    case DangerFullAccess => 2
    case ExternalSandbox => 2
  }

  function SandboxPolicyFromMode(m: SandboxMode): SandboxPolicy {
    match m
    case ReadOnlyMode => ReadOnly
    case WorkspaceWriteMode => WorkspaceWrite
    case DangerFullAccessMode => DangerFullAccess
  }

  function SandboxModeFromPolicy(p: SandboxPolicy): SandboxMode {
    match p
    case ReadOnly => ReadOnlyMode
    case WorkspaceWrite => WorkspaceWriteMode
    case DangerFullAccess => DangerFullAccessMode
    case ExternalSandbox => DangerFullAccessMode
  }

  /** Turning a mode into a policy and back gives the mode, at the same level. */
  lemma SandboxModeRoundTrip(m: SandboxMode)
    ensures SandboxModeFromPolicy(SandboxPolicyFromMode(m)) == m
    ensures SandboxPolicyLevel(SandboxPolicyFromMode(m)) == SandboxPolicyLevel(SandboxPolicyFromMode(SandboxModeFromPolicy(SandboxPolicyFromMode(m))))
  {
  }

  function ApprovalName(p: AskForApproval): string {
    match p
    case UnlessTrusted => "untrusted"
    case OnFailure => "on-failure"
    case OnRequest => "on-request"
    case Never => "never"
  }

  function SandboxModeName(m: SandboxMode): string {
    match m
    case ReadOnlyMode => "read-only"
    case WorkspaceWriteMode => "workspace-write"
    case DangerFullAccessMode => "danger-full-access"
  }

  datatype Permissions = Permissions(approval: AskForApproval, sandbox: SandboxPolicy)

  /**
   * `apply_spawn_permission_overrides`: an override may not be more
   * permissive than the parent's setting unless escalation is allowed.
   */
  function ApplyPermissionOverrides(parent: Permissions, config: Permissions,
                                    approvalOverride: Option<AskForApproval>, sandboxOverride: Option<SandboxMode>,
                                    allowEscalation: bool): (r: Result<Permissions, string>)
    ensures r.Ok? <==> (allowEscalation
      || ((approvalOverride.None? || ApprovalPolicyLevel(approvalOverride.value) <= ApprovalPolicyLevel(parent.approval))
          && (sandboxOverride.None? || SandboxPolicyLevel(SandboxPolicyFromMode(sandboxOverride.value)) <= SandboxPolicyLevel(parent.sandbox))))
    ensures r.Ok? ==> r.value.approval == (if approvalOverride.Some? then approvalOverride.value else config.approval)
    ensures r.Ok? ==> r.value.sandbox == (if sandboxOverride.Some? then SandboxPolicyFromMode(sandboxOverride.value) else config.sandbox)
  {
    if approvalOverride.Some? && !allowEscalation
       && ApprovalPolicyLevel(approvalOverride.value) > ApprovalPolicyLevel(parent.approval) then
      Err("approval_policy " + ApprovalName(approvalOverride.value)
          + " is not allowed because it is more permissive than parent policy " + ApprovalName(parent.approval))
    else
      var afterApproval := if approvalOverride.Some? then config.(approval := approvalOverride.value) else config;
      if sandboxOverride.Some? && !allowEscalation
         && SandboxPolicyLevel(SandboxPolicyFromMode(sandboxOverride.value)) > SandboxPolicyLevel(parent.sandbox) then
        Err("sandbox_mode " + SandboxModeName(sandboxOverride.value)
            + " is not allowed because it is more permissive than parent mode "
            + SandboxModeName(SandboxModeFromPolicy(parent.sandbox)))
      else if sandboxOverride.Some? then Ok(afterApproval.(sandbox := SandboxPolicyFromMode(sandboxOverride.value)))
      else Ok(afterApproval)
  }

  /** Without escalation, a child that starts from its parent's permissions is never more permissive. */
  lemma NoEscalationBeyondParent(parent: Permissions, approvalOverride: Option<AskForApproval>,
                                 sandboxOverride: Option<SandboxMode>)
    requires ApplyPermissionOverrides(parent, parent, approvalOverride, sandboxOverride, false).Ok?
    ensures var child := ApplyPermissionOverrides(parent, parent, approvalOverride, sandboxOverride, false).value;
      ApprovalPolicyLevel(child.approval) <= ApprovalPolicyLevel(parent.approval)
      && SandboxPolicyLevel(child.sandbox) <= SandboxPolicyLevel(parent.sandbox)
  {
  }

  // ---------------------------------------------------------------------------
  // spawn_agent and send_input

  datatype SpawnArgs = SpawnArgs(
    items: Option<seq<UserInput>>,
    name: Option<string>,
    legacyLabel: Option<string>,
    acceptanceCriteria: Option<seq<string>>,
    testCommands: Option<seq<string>>,
    allowNestedAgents: Option<bool>,
    preset: Option<string>,
    approvalPolicy: Option<AskForApproval>,
    sandboxMode: Option<SandboxMode>)

  /**
   * What the session supplies to the spawn handler besides the registry:
   * whether the session is already at the depth limit, the configured
   * limits, the turn's permissions and escalation setting, and the outcomes
   * of the configuration steps the model does not compute (building the
   * shared configuration and the model overrides, and applying the
   * requested agent role).
   */
  datatype SpawnContext = SpawnContext(
    conversationId: ThreadId,
    depthLimitExceeded: bool,
    maxSpawnDepth: nat,
    maxActiveSubagents: nat,
    turn: Permissions,
    allowEscalation: bool,
    configError: Option<string>,
    roleError: Option<string>,
    maxThreads: Option<nat>)

  const LabelRemoved: string := "label is no longer supported; use name instead / label 参数已废弃，请改用 name"
  const DepthLimitReached: string := "Agent depth limit reached. Solve the task yourself."

  /** The argument checks that come before the registry is consulted all pass. */
  predicate ArgsAccepted(args: SpawnArgs, depthLimitExceeded: bool) {
    args.legacyLabel.None? && ParseSpawnPreset(args.preset).Ok? && ParseCollabInput(args.items).Ok? && !depthLimitExceeded
  }

  /**
   * `build_agent_spawn_config`: the child starts from the turn's
   * permissions, then the requested overrides apply.
   */
  function SpawnPermissions(ctx: SpawnContext, args: SpawnArgs): (r: Result<Permissions, string>)
    ensures ctx.configError.Some? ==> r == Err(ctx.configError.value)
    ensures ctx.configError.None? ==>
      r == ApplyPermissionOverrides(ctx.turn, ctx.turn, args.approvalPolicy, args.sandboxMode, ctx.allowEscalation)
    ensures r.Ok? && !ctx.allowEscalation ==>
      ApprovalPolicyLevel(r.value.approval) <= ApprovalPolicyLevel(ctx.turn.approval)
      && SandboxPolicyLevel(r.value.sandbox) <= SandboxPolicyLevel(ctx.turn.sandbox)
  {
    if ctx.configError.Some? then Err(ctx.configError.value)
    else
      ApplyPermissionOverrides(ctx.turn, ctx.turn, args.approvalPolicy, args.sandboxMode, ctx.allowEscalation)
  }

  /** Every check before the spawn itself passes. */
  predicate SpawnChecksPass(alive: bool, records: seq<AgentRecord>, ctx: SpawnContext, args: SpawnArgs) {
    && ArgsAccepted(args, ctx.depthLimitExceeded)
    && alive
    && ChainEnds(records, ctx.conversationId)
    && SpawnLimitVerdict(records, ctx.conversationId, ctx.maxSpawnDepth, ctx.maxActiveSubagents).Ok?
    && SpawnPermissions(ctx, args).Ok?
    && ctx.roleError.None?
  }

  /** The record a spawn registers: the caller as creator, the input preview as goal. */
  function SpawnedRecord(newId: ThreadId, ctx: SpawnContext, args: SpawnArgs, items: seq<UserInput>): (rec: AgentRecord)
    ensures rec.agentId == newId && rec.creator == Some(ctx.conversationId) && rec.name == args.name
    ensures rec.goal == InputPreview(items) && rec.status == PendingInit && !rec.closed
    ensures rec.acceptanceCriteria == args.acceptanceCriteria.UnwrapOr([])
    ensures rec.testCommands == args.testCommands.UnwrapOr([])
    ensures rec.allowNestedAgents <==> args.allowNestedAgents == Some(true)
  {
    AgentRecord(newId, Some(ctx.conversationId), args.name, InputPreview(items), args.acceptanceCriteria.UnwrapOr([]),
                args.testCommands.UnwrapOr([]), args.allowNestedAgents.UnwrapOr(false), PendingInit, false)
  }

  /**
   * `spawn::handle`, in its order of checks: the removed `label` argument,
   * the preset, the items, the depth limit of the session, the spawn limits,
   * the child's configuration, the agent role, and finally the spawn itself.
   * Every refusal before the spawn leaves the registry alone; the spawn's
   * own failures come back through `collab_spawn_error`.
   */
  method SpawnHandle(ctl: Control, ctx: SpawnContext, args: SpawnArgs,
                     newId: ThreadId, spawnError: Option<CodexErr>, reply: Result<string, CodexErr>)
    returns (r: Result<ThreadId, string>)
    requires ctl.managerAlive ==> ChainEnds(ctl.records, ctx.conversationId)
    requires newId !in ctl.threads && newId !in ctl.spawned && newId !in AgentIds(ctl.records)
    modifies ctl
    ensures args.legacyLabel.Some? ==> r == Err(LabelRemoved) && unchanged(ctl)
    ensures args.legacyLabel.None? && ParseSpawnPreset(args.preset).Err? ==>
      r == Err(ParseSpawnPreset(args.preset).error) && unchanged(ctl)
    ensures args.legacyLabel.None? && ParseSpawnPreset(args.preset).Ok? && ParseCollabInput(args.items).Err? ==>
      r == Err(ParseCollabInput(args.items).error) && unchanged(ctl)
    ensures args.legacyLabel.None? && ParseSpawnPreset(args.preset).Ok? && ParseCollabInput(args.items).Ok?
            && ctx.depthLimitExceeded ==>
      r == Err(DepthLimitReached) && unchanged(ctl)
    ensures ArgsAccepted(args, ctx.depthLimitExceeded) && !old(ctl.managerAlive) ==>
      r == Err(ManagerUnavailable) && unchanged(ctl)
    ensures ArgsAccepted(args, ctx.depthLimitExceeded) && old(ctl.managerAlive) ==>
      var verdict := SpawnLimitVerdict(old(ctl.records), ctx.conversationId, ctx.maxSpawnDepth, ctx.maxActiveSubagents);
      var config := SpawnPermissions(ctx, args);
      && (verdict.Err? ==> r == Err(verdict.error) && unchanged(ctl))
      && (verdict.Ok? && config.Err? ==> r == Err(config.error) && unchanged(ctl))
      && (verdict.Ok? && config.Ok? && ctx.roleError.Some? ==> r == Err(ctx.roleError.value) && unchanged(ctl))
    ensures SpawnChecksPass(old(ctl.managerAlive), old(ctl.records), ctx, args) ==>
      var full := ctx.maxThreads.Some? && |old(ctl.spawned)| >= ctx.maxThreads.value;
      && (full ==> r == Err(CollabSpawnError(AgentLimitReached(ctx.maxThreads.value))) && unchanged(ctl))
      && (!full && spawnError.Some? ==> r == Err(CollabSpawnError(spawnError.value)) && unchanged(ctl))
      && (!full && spawnError.None? ==>
            && ctl.records == old(ctl.records) + [SpawnedRecord(newId, ctx, args, args.items.value)]
            && r == (if reply.Ok? then Ok(newId) else Err(CollabSpawnError(reply.error)))
            && (reply.Ok? ==> ctl.threads == old(ctl.threads)[newId := PendingInit]))
    ensures r.Ok? ==> r.value == newId && SpawnChecksPass(old(ctl.managerAlive), old(ctl.records), ctx, args)
  {
    if args.legacyLabel.Some? {
      return Err(LabelRemoved);
    }
    var preset := ParseSpawnPreset(args.preset);
    if preset.Err? {
      return Err(preset.error);
    }
    var inputItems := ParseCollabInput(args.items);
    if inputItems.Err? {
      return Err(inputItems.error);
    }
    var prompt := InputPreview(inputItems.value);
    if ctx.depthLimitExceeded {
      return Err(DepthLimitReached);
    }
    var limits := ValidateSpawnLimits(ctl, ctx.conversationId, ctx.maxSpawnDepth, ctx.maxActiveSubagents);
    if limits.Err? {
      return Err(limits.error);
    }
    var config := SpawnPermissions(ctx, args);
    if config.Err? {
      return Err(config.error);
    }
    var metadata := SpawnMetadata(Some(ctx.conversationId), args.name, prompt, args.acceptanceCriteria.UnwrapOr([]),
                                  args.testCommands.UnwrapOr([]), args.allowNestedAgents.UnwrapOr(false));
    if ctx.roleError.Some? {
      return Err(ctx.roleError.value);
    }
    var result := ctl.SpawnAgent(metadata, ctx.maxThreads, newId, spawnError, reply);
    if result.Err? {
      return Err(CollabSpawnError(result.error));
    }
    r := Ok(result.value);
  }

  /**
   * `send_input::handle`: the agent id must parse, and the items must be
   * present and non-empty; with `interrupt`, the agent is interrupted first
   * and a failed interrupt stops the call; then the input is sent and its
   * submission id returned.
   */
  method SendInputHandle(ctl: Control, agentId: string, parse: IdParser, items: Option<seq<UserInput>>, interrupt: bool,
                         interruptReply: Result<string, CodexErr>, reply: Result<string, CodexErr>)
    returns (r: Result<string, string>)
    modifies ctl
    ensures ctl.managerAlive == old(ctl.managerAlive) && ctl.records == old(ctl.records)
    ensures parse(agentId).Err? ==> r == Err(ParseAgentId(agentId, parse).error) && unchanged(ctl)
    ensures parse(agentId).Ok? && ParseCollabInput(items).Err? ==> r == Err(ParseCollabInput(items).error) && unchanged(ctl)
    ensures parse(agentId).Ok? && ParseCollabInput(items).Ok? ==>
      var id := parse(agentId).value;
      var interrupted := old(ctl.InterruptAgent(id, interruptReply));
      var sent := if old(ctl.managerAlive) then OpResult(old(ctl.threads), id, reply) else Err(ManagerDropped());
      && (interrupt && interrupted.Err? ==> r == Err(CollabAgentError(id, interrupted.error)) && unchanged(ctl))
      && (!interrupt || interrupted.Ok? ==>
            && (sent.Ok? ==> r == Ok(sent.value))
            && (sent.Err? ==> r == Err(CollabAgentError(id, sent.error)))
            && (sent == Err(InternalAgentDied) ==> id !in ctl.threads))
  {
    var parsed := ParseAgentId(agentId, parse);
    if parsed.Err? {
      return Err(parsed.error);
    }
    var receiver := parsed.value;
    var inputItems := ParseCollabInput(items);
    if inputItems.Err? {
      return Err(inputItems.error);
    }
    if interrupt {
      var interrupted := ctl.InterruptAgent(receiver, interruptReply);
      if interrupted.Err? {
        return Err(CollabAgentError(receiver, interrupted.error));
      }
    }
    var result := ctl.SendInput(receiver, reply);
    if result.Err? {
      return Err(CollabAgentError(receiver, result.error));
    }
    r := Ok(result.value);
  }
}
