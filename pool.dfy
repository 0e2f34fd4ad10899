/**
 * The pool of managed tool servers: one instance record per enabled server,
 * its status machine (STOPPED, STARTING, RUNNING, FAILED), its request-id
 * counter and pending-request table, the tool registry rebuilt by discovery,
 * tool-call routing and the restart policy of the health monitor.
 *
 * Subprocesses are not spawned here: what spawning did, whether a process has
 * exited, and what became of each written request are inputs of the methods,
 * handled one event at a time.
 */
module Pool {
  import opened Wrappers
  import opened Json
  import opened Config
  import opened Registry

  /** A spawned subprocess: its handle and whether it has exited (`returncode is not None`). */
  datatype Process = Process(pid: nat, exited: bool)

  /** What spawning a server's subprocess did. */
  datatype SpawnOutcome = Spawned(pid: nat) | SpawnError(reason: string)

  /** What became of a request once it was recorded as pending. */
  datatype ReplyEvent =
    | Replied(response: map<string, Json>)  // written; a reply carrying its id arrived
    | TimedOut                              // written; no reply within the wait
    | WriteError(reason: string)            // writing it to the subprocess failed

  /** One iteration of the health monitor, with what the process did before it. */
  datatype MonitorTick = MonitorTick(exitedBefore: bool, restartSpawn: SpawnOutcome)

  /** How one pass of the health monitor ended. */
  datatype MonitorVerdict = LoopEnded | Healthy | Restarted(delay: nat) | GaveUp

  /** The three listing requests the pool fans out to every running server. */
  datatype ListKind = ToolsList | ResourcesList | PromptsList {
    function Method(): string {
      match this
      case ToolsList => "tools/list"
      case ResourcesList => "resources/list"
      case PromptsList => "prompts/list"
    }
    function Key(): string {
      match this
      case ToolsList => "tools"
      case ResourcesList => "resources"
      case PromptsList => "prompts"
    }
  }

  /** The runtime record of one managed server. */
  datatype ServerInstance = ServerInstance(
    config: McpServerConfig,
    process: Option<Process>,
    status: ServerStatus,
    failureCount: nat,
    lastError: Option<string>,
    requestCount: nat,
    requestIdCounter: nat,
    /** Request id -> the number it was issued as; stands for the awaited future. */
    pendingRequests: map<string, nat>)

  /** A fresh instance: stopped, no process, all counters zero. */
  function NewInstance(config: McpServerConfig): (inst: ServerInstance)
    ensures inst.config == config && inst.status == Stopped && inst.process.None?
    ensures inst.failureCount == 0 && inst.lastError.None? && inst.requestCount == 0
    ensures inst.requestIdCounter == 0 && inst.pendingRequests == map[]
  {
    ServerInstance(config, None, Stopped, 0, None, 0, 0, map[])
  }

  /** A request as written to a server's stdin. */
  datatype Outgoing = Outgoing(serverId: string, request: map<string, Json>)

  /** The pool's exceptions. */
  datatype PoolError =
    | NotRunning(serverId: string)
    | RequestTimedOut(serverId: string)
    | SendFailed(serverId: string, reason: string)
    | ToolNotFound(name: Json)
    | ToolFailed(error: Json)

  /** The exception's message text. */
  function ErrorText(e: PoolError): string {
    match e
    case NotRunning(id) => "MCP server " + id + " is not running"
    case RequestTimedOut(id) => "Request to " + id + " timed out"
    case SendFailed(id, reason) => "Error sending request to " + id + ": " + reason
    case ToolNotFound(name) => "Tool " + Show(name) + " not found"
    case ToolFailed(err) => "Tool execution failed: " + Show(err)
  }

  /** The JSON-RPC request written for `method`; `params` is included only when non-empty. */
  function RequestBody(requestId: string, rpcMethod: string, params: map<string, Json>): (body: map<string, Json>)
    ensures "jsonrpc" in body && body["jsonrpc"] == JStr("2.0")
    ensures "id" in body && body["id"] == JStr(requestId)
    ensures "method" in body && body["method"] == JStr(rpcMethod)
    ensures "params" in body <==> params != map[]
    ensures "params" in body ==> body["params"] == JObject(params)
    ensures body.Keys <= {"jsonrpc", "id", "method", "params"}
  {
    var base := map["jsonrpc" := JStr("2.0"), "id" := JStr(requestId), "method" := JStr(rpcMethod)];
    if params != map[] then base["params" := JObject(params)] else base
  }

  /** The instance after a start attempt: RUNNING with the new process, or FAILED with the error recorded. */
  function AfterSpawn(inst: ServerInstance, spawn: SpawnOutcome): ServerInstance {
    match spawn
    case Spawned(pid) => inst.(process := Some(Process(pid, false)), status := Running)
    case SpawnError(reason) =>
      inst.(status := Failed, lastError := Some(reason), failureCount := inst.failureCount + 1)
  }

  /** The instance once its process, if it has one, has exited. */
  function Exit(inst: ServerInstance): (after: ServerInstance)
    ensures inst.process.Some? ==> after.process == Some(inst.process.value.(exited := true)) && Died(after)
    ensures after.(process := inst.process) == inst
  {
    if inst.process.Some? then inst.(process := Some(inst.process.value.(exited := true))) else inst
  }

  /**
   * What one pass of `_monitor_server`'s loop leaves of an instance: nothing
   * changes while the pool is stopped or the process lives; a dead process
   * makes it FAILED with one more failure, and restarted (with what spawning
   * did) if restarting is configured and fewer than five failures are counted.
   */
  function MonitorPass(inst: ServerInstance, running: bool, spawn: SpawnOutcome): (after: ServerInstance)
    ensures after.config == inst.config && after.pendingRequests == inst.pendingRequests
    ensures inst.failureCount <= after.failureCount <= inst.failureCount + 2
    ensures (!running || !Died(inst)) <==> after == inst
  {
    if !running || !Died(inst) then inst
    else
      var failed := inst.(status := Failed, failureCount := inst.failureCount + 1);
      if ShouldRestart(failed.config.restartOnFailure, failed.failureCount) then AfterSpawn(failed.(status := Starting), spawn)
      else failed
  }

  /** Whether the instance's process has died (`process and process.returncode is not None`). */
  predicate Died(inst: ServerInstance) {
    inst.process.Some? && inst.process.value.exited
  }

  /** The check `_send_request` makes before writing anything. */
  predicate CanSend(servers: map<string, ServerInstance>, id: string) {
    id in servers && servers[id].status == Running && servers[id].process.Some?
  }

  /** What `_send_request` returns or raises for a request written with `key`. */
  function SendOutcome(id: string, key: string, reply: ReplyEvent): Result<map<string, Json>, PoolError> {
    match reply
    case Replied(response) => Success(response["id" := JStr(key)])
    case TimedOut => Failure(RequestTimedOut(id))
    case WriteError(reason) => Failure(SendFailed(id, reason))
  }

  /** The id `_send_request` issues next: the decimal text of the incremented counter. */
  function NextKey(inst: ServerInstance): string {
    NatToDecimal(inst.requestIdCounter + 1)
  }

  /** The instance once the next id is issued and recorded as pending. */
  function Issue(inst: ServerInstance): ServerInstance {
    inst.(requestIdCounter := inst.requestIdCounter + 1,
          pendingRequests := inst.pendingRequests[NextKey(inst) := inst.requestIdCounter + 1])
  }

  /** The instance once a request has run its course: one more id issued, counted unless the write failed. */
  function AfterSend(inst: ServerInstance, reply: ReplyEvent): ServerInstance {
    inst.(requestIdCounter := inst.requestIdCounter + 1,
          requestCount := inst.requestCount + if reply.WriteError? then 0 else 1)
  }

  /** The instance once the request pending under `key` has run its course. */
  function Settle(inst: ServerInstance, key: string, reply: ReplyEvent): ServerInstance {
    inst.(pendingRequests := inst.pendingRequests - {key},
          requestCount := inst.requestCount + if reply.WriteError? then 0 else 1)
  }

  /** Issuing an id and settling it leaves the pending table as it was. */
  lemma IssueThenSettle(inst: ServerInstance, reply: ReplyEvent)
    requires NextKey(inst) !in inst.pendingRequests
    ensures Settle(Issue(inst), NextKey(inst), reply) == AfterSend(inst, reply)
  {
    assert Issue(inst).pendingRequests - {NextKey(inst)} == inst.pendingRequests;
  }

  /** What a request leaves on the subprocess's stdin. */
  function Written(id: string, key: string, rpcMethod: string, params: map<string, Json>, reply: ReplyEvent): seq<Outgoing> {
    if reply.WriteError? then [] else [Outgoing(id, RequestBody(key, rpcMethod, params))]
  }

  /**
   * What one request of `rpcMethod` to `id` leaves on the subprocesses'
   * stdin: its body under the next id, unless `_send_request` refuses the
   * server or the write fails.
   */
  function SentBy(servers: map<string, ServerInstance>, id: string, rpcMethod: string, params: map<string, Json>, reply: ReplyEvent): (out: seq<Outgoing>)
    ensures |out| <= 1
    ensures out != [] <==> CanSend(servers, id) && !reply.WriteError?
    ensures out != [] ==> out[0].serverId == id && out[0].request == RequestBody(NextKey(servers[id]), rpcMethod, params)
  {
    if CanSend(servers, id) then Written(id, NextKey(servers[id]), rpcMethod, params, reply) else []
  }

  /** The server table after one request to `id`: only that server's counters move, and only if it could be sent to. */
  function AfterPoll(servers: map<string, ServerInstance>, id: string, reply: ReplyEvent): (after: map<string, ServerInstance>)
    ensures after.Keys == servers.Keys
  {
    if CanSend(servers, id) then servers[id := AfterSend(servers[id], reply)] else servers
  }

  /**
   * The server table after a pass that sends one parameterless request to
   * every server: each server that could be sent to has issued one more id,
   * and counted it unless the write failed; nothing else changes.
   */
  function Polled(servers: map<string, ServerInstance>, replies: string -> ReplyEvent): (polled: map<string, ServerInstance>)
    ensures polled.Keys == servers.Keys
  {
    map id | id in servers :: AfterPoll(servers, id, replies(id))[id]
  }

  /**
   * A pass keeps every server's status, process, configuration, pending table
   * and failures; its counter rises by one exactly when it could be sent to.
   */
  lemma PolledShape(servers: map<string, ServerInstance>, replies: string -> ReplyEvent)
    ensures var polled := Polled(servers, replies);
      && SameShape(servers, polled)
      && forall id :: id in servers ==>
           && polled[id].config == servers[id].config
           && polled[id].pendingRequests == servers[id].pendingRequests
           && polled[id].failureCount == servers[id].failureCount
           && polled[id].requestIdCounter == servers[id].requestIdCounter + (if CanSend(servers, id) then 1 else 0)
  {
    var polled := Polled(servers, replies);
    forall id | id in servers
      ensures && polled[id].status == servers[id].status && polled[id].process == servers[id].process
              && polled[id].config == servers[id].config
              && polled[id].pendingRequests == servers[id].pendingRequests
              && polled[id].failureCount == servers[id].failureCount
              && polled[id].requestIdCounter == servers[id].requestIdCounter + (if CanSend(servers, id) then 1 else 0)
    {
      PolledAt(servers, replies, id);
    }
  }

  /** A pass leaves one server as one request to it alone would. */
  lemma PolledAt(servers: map<string, ServerInstance>, replies: string -> ReplyEvent, id: string)
    requires id in servers
    ensures Polled(servers, replies)[id] == if CanSend(servers, id) then AfterSend(servers[id], replies(id)) else servers[id]
  {
  }

  /** The requests a pass over `ids` writes, server after server. */
  function Requests(servers: map<string, ServerInstance>, ids: seq<string>, rpcMethod: string, replies: string -> ReplyEvent): seq<Outgoing>
    decreases |ids|
  {
    if ids == [] then []
    else Requests(servers, ids[..|ids| - 1], rpcMethod, replies) + SentBy(servers, ids[|ids| - 1], rpcMethod, map[], replies(ids[|ids| - 1]))
  }

  /** One more server in the pass appends what its request wrote. */
  lemma RequestsPrefix(servers: map<string, ServerInstance>, ids: seq<string>, i: nat, rpcMethod: string, replies: string -> ReplyEvent)
    requires i < |ids|
    ensures Requests(servers, ids[..i + 1], rpcMethod, replies)
         == Requests(servers, ids[..i], rpcMethod, replies) + SentBy(servers, ids[i], rpcMethod, map[], replies(ids[i]))
  {
    assert ids[..i + 1][..i] == ids[..i];
  }

  /**
   * A pass writes at most one request per server, each of `rpcMethod`, and
   * only to servers of the pass that are RUNNING with a process.
   */
  lemma {:induction false} RequestsOnlyToSendable(servers: map<string, ServerInstance>, ids: seq<string>, rpcMethod: string, replies: string -> ReplyEvent)
    ensures var out := Requests(servers, ids, rpcMethod, replies);
      && |out| <= |ids|
      && forall k :: 0 <= k < |out| ==>
           && out[k].serverId in ids
           && CanSend(servers, out[k].serverId)
           && "method" in out[k].request && out[k].request["method"] == JStr(rpcMethod)
    decreases |ids|
  {
    if ids != [] {
      var front := ids[..|ids| - 1];
      RequestsOnlyToSendable(servers, front, rpcMethod, replies);
      var out := Requests(servers, ids, rpcMethod, replies);
      var head := Requests(servers, front, rpcMethod, replies);
      forall k | 0 <= k < |out|
        ensures && out[k].serverId in ids && CanSend(servers, out[k].serverId)
                && "method" in out[k].request && out[k].request["method"] == JStr(rpcMethod)
      {
        if k < |head| {
          assert out[k] == head[k];
          assert out[k].serverId in front;
        } else {
          assert out[k] == SentBy(servers, ids[|ids| - 1], rpcMethod, map[], replies(ids[|ids| - 1]))[0];
        }
      }
    }
  }

  /** Part way through a pass over `order`: the first `i` servers are polled, the rest as they were. */
  ghost predicate PolledUpTo(orig: map<string, ServerInstance>, cur: map<string, ServerInstance>,
                             order: seq<string>, i: nat, replies: string -> ReplyEvent) {
    && i <= |order|
    && cur.Keys == orig.Keys
    && (forall k :: 0 <= k < |order| ==> order[k] in orig)
    && (forall k :: 0 <= k < i ==> cur[order[k]] == Polled(orig, replies)[order[k]])
    && (forall k :: i <= k < |order| ==> cur[order[k]] == orig[order[k]])
  }

  /** Before a pass nothing is polled yet. */
  lemma PollStart(orig: map<string, ServerInstance>, order: seq<string>, replies: string -> ReplyEvent)
    requires forall k :: 0 <= k < |order| ==> order[k] in orig
    ensures PolledUpTo(orig, orig, order, 0, replies)
  {
  }

  /** One step of a pass: the request to `order[i]` polls it, and it went to the server's original record. */
  lemma PollStep(orig: map<string, ServerInstance>, before: map<string, ServerInstance>, after: map<string, ServerInstance>,
                 order: seq<string>, i: nat, replies: string -> ReplyEvent)
    requires i < |order| && NoDuplicates(order)
    requires PolledUpTo(orig, before, order, i, replies)
    requires after == AfterPoll(before, order[i], replies(order[i]))
    ensures order[i] in before && order[i] in orig && before[order[i]] == orig[order[i]]
    ensures PolledUpTo(orig, after, order, i + 1, replies)
  {
    var id := order[i];
    assert id in orig && before[id] == orig[id];
    assert CanSend(before, id) == CanSend(orig, id);
    PolledAt(orig, replies, id);
    assert after[id] == Polled(orig, replies)[id];
    forall k | 0 <= k < i ensures after[order[k]] == Polled(orig, replies)[order[k]] {
      assert order[k] != id;
      assert after[order[k]] == before[order[k]];
    }
    forall k | i < k < |order| ensures after[order[k]] == orig[order[k]] {
      assert order[k] != id;
      assert after[order[k]] == before[order[k]];
    }
  }

  /** What one request does depends only on the record of the server it goes to. */
  lemma SameRecord(a: map<string, ServerInstance>, b: map<string, ServerInstance>, id: string, rpcMethod: string,
                   reply: ReplyEvent, key: string)
    requires id in a && id in b && a[id] == b[id]
    ensures SentBy(a, id, rpcMethod, map[], reply) == SentBy(b, id, rpcMethod, map[], reply)
    ensures ListedFrom(a, id, reply, key) == ListedFrom(b, id, reply, key)
    ensures DiscoveredNames(a, id, reply) == DiscoveredNames(b, id, reply)
  {
  }

  lemma AppendAssoc(a: seq<Outgoing>, b: seq<Outgoing>, c: seq<Outgoing>)
    ensures a + b + c == a + (b + c)
  {
  }

  /**
   * One server of a pass: polling `order[i]` after the first `i` keeps the
   * table and the written requests in step with the whole pass.
   */
  lemma PassStep(orig: map<string, ServerInstance>, before: map<string, ServerInstance>, after: map<string, ServerInstance>,
                 sent0: seq<Outgoing>, sentBefore: seq<Outgoing>, sentAfter: seq<Outgoing>,
                 order: seq<string>, i: nat, rpcMethod: string, replies: string -> ReplyEvent)
    requires i < |order| && NoDuplicates(order)
    requires PolledUpTo(orig, before, order, i, replies)
    requires sentBefore == sent0 + Requests(orig, order[..i], rpcMethod, replies)
    requires after == AfterPoll(before, order[i], replies(order[i]))
    requires sentAfter == sentBefore + SentBy(before, order[i], rpcMethod, map[], replies(order[i]))
    ensures order[i] in before && order[i] in orig && before[order[i]] == orig[order[i]]
    ensures PolledUpTo(orig, after, order, i + 1, replies)
    ensures sentAfter == sent0 + Requests(orig, order[..i + 1], rpcMethod, replies)
  {
    var id := order[i];
    PollStep(orig, before, after, order, i, replies);
    RequestsPrefix(orig, order, i, rpcMethod, replies);
    SameRecord(before, orig, id, rpcMethod, replies(id), "tools");
    AppendAssoc(sent0, Requests(orig, order[..i], rpcMethod, replies), SentBy(orig, id, rpcMethod, map[], replies(id)));
  }

  /** The entries a `get_all_*` pass collects from `ids`, server after server. */
  ghost function ListedUpTo(servers: map<string, ServerInstance>, ids: seq<string>, replies: string -> ReplyEvent, key: string): seq<Json>
    decreases |ids|
  {
    if ids == [] then []
    else ListedUpTo(servers, ids[..|ids| - 1], replies, key) + ListedFrom(servers, ids[|ids| - 1], replies(ids[|ids| - 1]), key)
  }

  /** The pass's entries are what `Collect` gathers from the servers' listings. */
  lemma {:induction false} ListedUpToIsCollect(servers: map<string, ServerInstance>, ids: seq<string>, replies: string -> ReplyEvent, key: string)
    ensures ListedUpTo(servers, ids, replies, key) == Collect(ids, Listed(servers, replies, key))
    decreases |ids|
  {
    if ids != [] {
      ListedUpToIsCollect(servers, ids[..|ids| - 1], replies, key);
    }
  }

  /** One server of a `get_all_*` pass appends what it lists, read from the table as it was before the pass. */
  lemma CollectNext(orig: map<string, ServerInstance>, before: map<string, ServerInstance>, order: seq<string>, i: nat,
                    replies: string -> ReplyEvent, key: string, all: seq<Json>, items: seq<Json>)
    requires i < |order| && order[i] in before && order[i] in orig && before[order[i]] == orig[order[i]]
    requires all == ListedUpTo(orig, order[..i], replies, key)
    requires items == ListedFrom(before, order[i], replies(order[i]), key)
    ensures all + items == ListedUpTo(orig, order[..i + 1], replies, key)
  {
    assert order[..i + 1][..i] == order[..i];
    SameRecord(before, orig, order[i], "", replies(order[i]), key);
  }

  /** A pass that has reached every server of `order` has polled the whole table. */
  lemma PollDone(orig: map<string, ServerInstance>, cur: map<string, ServerInstance>, order: seq<string>, replies: string -> ReplyEvent)
    requires PolledUpTo(orig, cur, order, |order|, replies)
    requires forall id {:trigger id in order} :: id in orig ==> id in order
    ensures cur == Polled(orig, replies)
  {
    forall id | id in cur ensures cur[id] == Polled(orig, replies)[id] {
      assert id in order;
      var k :| 0 <= k < |order| && order[k] == id;
    }
  }

  /** A registered tool's owner is a started server that was spawned and replied with that tool. */
  lemma RegisteredOwnerStarted(started: map<string, ServerInstance>, spawn: string -> SpawnOutcome, replies: string -> ReplyEvent,
                               order: seq<string>, name: string)
    requires forall id :: id in started ==> (started[id].status == Running <==> spawn(id).Spawned?)
    requires name in BuildRegistry(order, Discovered(started, replies))
    ensures var owner := BuildRegistry(order, Discovered(started, replies))[name];
      && owner in started
      && spawn(owner).Spawned?
      && replies(owner).Replied?
      && name in ToolNames(ListedItems(replies(owner).response, "tools"))
  {
    OwnerListedName(order, Discovered(started, replies), name);
  }

  /** The table `call_tool` leaves: the owner's counters move when the request could be sent. */
  function AfterCall(registry: map<string, string>, servers: map<string, ServerInstance>, name: Json, reply: ReplyEvent): (after: map<string, ServerInstance>)
    ensures Owner(registry, name).None? ==> after == servers
    ensures Owner(registry, name).Some? ==> after == AfterPoll(servers, Owner(registry, name).value, reply)
  {
    match Owner(registry, name)
    case None => servers
    case Some(owner) => AfterPoll(servers, owner, reply)
  }

  /** What `call_tool` writes: the `tools/call` request to the owner, if there is one and it could be sent. */
  function CallSent(registry: map<string, string>, servers: map<string, ServerInstance>, name: Json, arguments: Json, reply: ReplyEvent): (out: seq<Outgoing>)
    ensures Owner(registry, name).None? ==> out == []
    ensures Owner(registry, name).Some? ==>
      out == SentBy(servers, Owner(registry, name).value, "tools/call", map["name" := name, "arguments" := arguments], reply)
  {
    match Owner(registry, name)
    case None => []
    case Some(owner) => SentBy(servers, owner, "tools/call", map["name" := name, "arguments" := arguments], reply)
  }

  /** The names one server contributes to a discovery pass, given what became of its request. */
  function DiscoveredNames(servers: map<string, ServerInstance>, id: string, reply: ReplyEvent): seq<string> {
    if CanSend(servers, id) && reply.Replied? then ToolNames(ListedItems(reply.response, "tools")) else []
  }

  function Discovered(servers: map<string, ServerInstance>, replies: string -> ReplyEvent): string -> seq<string> {
    id => DiscoveredNames(servers, id, replies(id))
  }

  /** The entries one server contributes to a listing whose result holds them under `key`. */
  function ListedFrom(servers: map<string, ServerInstance>, id: string, reply: ReplyEvent, key: string): seq<Json> {
    if CanSend(servers, id) && reply.Replied? then ListedItems(reply.response, key) else []
  }

  function Listed(servers: map<string, ServerInstance>, replies: string -> ReplyEvent, key: string): string -> seq<Json> {
    id => ListedFrom(servers, id, replies(id), key)
  }

  /** The owner `call_tool` routes a tool name to, if the name is registered to a non-empty id. */
  function Owner(registry: map<string, string>, name: Json): (owner: Option<string>)
    ensures owner.Some? ==> name.JStr? && name.s in registry && owner.value == registry[name.s] && owner.value != ""
    ensures owner.None? ==> !name.JStr? || name.s !in registry || registry[name.s] == ""
  {
    if name.JStr? && name.s in registry && registry[name.s] != "" then Some(registry[name.s]) else None
  }

  /** What `call_tool` returns or raises, given the registry, the servers and what became of the request. */
  function CallResult(registry: map<string, string>, servers: map<string, ServerInstance>, name: Json, reply: ReplyEvent): Result<Json, PoolError> {
    match Owner(registry, name)
    case None => Failure(ToolNotFound(name))
    case Some(owner) =>
      if !CanSend(servers, owner) then Failure(NotRunning(owner))
      else
        match reply
        case TimedOut => Failure(RequestTimedOut(owner))
        case WriteError(reason) => Failure(SendFailed(owner, reason))
        case Replied(response) =>
          if "error" in response then Failure(ToolFailed(response["error"]))
          else Success(Get(response, "result", JObject(map[])))
  }

  /** The ids of the enabled configurations, those `start` creates instances for. */
  function EnabledIds(configs: seq<McpServerConfig>): (ids: set<string>)
    ensures forall c :: c in configs && c.enabled ==> c.id in ids
    ensures forall id :: id in ids ==> exists c :: c in configs && c.enabled && c.id == id
  {
    set c | c in EnabledServers(configs) :: c.id
  }

  /** Two server tables with the same ids, statuses and processes: requests change neither. */
  predicate SameShape(a: map<string, ServerInstance>, b: map<string, ServerInstance>) {
    && a.Keys == b.Keys
    && forall id :: id in a ==> a[id].status == b[id].status && a[id].process == b[id].process
  }

  lemma SameShapeUpdate(m: map<string, ServerInstance>, id: string, inst: ServerInstance)
    requires id in m && inst.status == m[id].status && inst.process == m[id].process
    ensures SameShape(m, m[id := inst])
  {
  }

  /** Writing the same key twice keeps only the second value. */
  lemma Overwrite(m: map<string, ServerInstance>, id: string, a: ServerInstance, b: ServerInstance)
    ensures m[id := a][id := b] == m[id := b]
  {
  }

  predicate NoDuplicates(s: seq<string>) {
    forall i, j :: 0 <= i < j < |s| ==> s[i] != s[j]
  }

  /** Every pending id is the decimal text of a number already issued by the counter. */
  ghost predicate PendingIssued(inst: ServerInstance) {
    forall k :: k in inst.pendingRequests ==>
      1 <= inst.pendingRequests[k] <= inst.requestIdCounter && k == NatToDecimal(inst.pendingRequests[k])
  }

  ghost predicate InstanceInvariant(inst: ServerInstance) {
    && (inst.status == Running ==> inst.process.Some?)
    && inst.config.enabled
    && PendingIssued(inst)
  }


  /** The instance invariant survives a change that keeps the pending table and does not lower the counter. */
  lemma InstanceKept(id: string, a: ServerInstance, b: ServerInstance)
    requires Kept(id, a)
    requires b.config == a.config && b.pendingRequests == a.pendingRequests
    requires a.requestIdCounter <= b.requestIdCounter
    requires b.status == Running ==> b.process.Some?
    ensures Kept(id, b)
  {
  }

  /** ... and a change that removes one pending entry. */
  lemma InstanceRemoved(id: string, a: ServerInstance, key: string)
    requires Kept(id, a)
    ensures Kept(id, a.(pendingRequests := a.pendingRequests - {key}))
  {
  }

  /** ... and issuing the next id and recording it as pending. */
  lemma InstanceIssued(id: string, a: ServerInstance)
    requires Kept(id, a)
    ensures Kept(id, Issue(a))
  {
  }

  /** The next request id of an instance is not pending yet. */
  lemma NextIdFresh(inst: ServerInstance)
    requires PendingIssued(inst)
    ensures NatToDecimal(inst.requestIdCounter + 1) !in inst.pendingRequests
  {
    var key := NatToDecimal(inst.requestIdCounter + 1);
    if key in inst.pendingRequests {
      DecimalInjective(inst.requestIdCounter + 1, inst.pendingRequests[key]);
      assert false;
    }
  }

  /** The record under `id` is that server's own and keeps the instance invariant. */
  ghost predicate Kept(id: string, inst: ServerInstance) {
    inst.config.id == id && InstanceInvariant(inst)
  }

  /**
   * The pool's servers dictionary is consistent with its insertion order: the
   * same ids, each once, every instance keyed by its own configuration's id.
   */
  ghost predicate Consistent(servers: map<string, ServerInstance>, order: seq<string>) {
    && (forall k :: 0 <= k < |order| ==> order[k] in servers)
    && (forall id {:trigger id in order} :: id in servers ==> id in order)
    && NoDuplicates(order)
    && (forall id {:trigger Kept(id, servers[id])} :: id in servers ==> Kept(id, servers[id]))
  }

  lemma ConsistentUpdate(servers: map<string, ServerInstance>, order: seq<string>, id: string, inst: ServerInstance)
    requires Consistent(servers, order) && id in servers
    requires Kept(id, inst)
    ensures Consistent(servers[id := inst], order)
  {
    var after := servers[id := inst];
    forall x | x in after ensures x in order && Kept(x, after[x]) {
      if x != id {
        assert x in order && Kept(x, servers[x]);
      } else {
        assert x in order;
      }
    }
  }

  lemma ConsistentInsert(servers: map<string, ServerInstance>, order: seq<string>, inst: ServerInstance)
    requires Consistent(servers, order) && inst.config.id !in servers
    requires Kept(inst.config.id, inst)
    ensures Consistent(servers[inst.config.id := inst], order + [inst.config.id])
  {
    var id := inst.config.id;
    var after := servers[id := inst];
    var order' := order + [id];
    forall k | 0 <= k < |order| ensures order[k] != id && order'[k] == order[k] {
    }
    forall x | x in after ensures x in order' && Kept(x, after[x]) {
      if x != id {
        assert x in order && Kept(x, servers[x]);
        var k :| 0 <= k < |order| && order[k] == x;
        assert order'[k] == x;
      } else {
        assert order'[|order|] == x;
      }
    }
  }

  lemma EnabledIdsSnoc(configs: seq<McpServerConfig>, c: McpServerConfig)
    ensures EnabledIds(configs + [c]) == EnabledIds(configs) + (if c.enabled then {c.id} else {})
  {
    var all := configs + [c];
    forall id | id in EnabledIds(all)
      ensures id in EnabledIds(configs) + (if c.enabled then {c.id} else {})
    {
      var d :| d in all && d.enabled && d.id == id;
      if d != c { assert d in configs; }
    }
    forall id | id in EnabledIds(configs) ensures id in EnabledIds(all) {
      var d :| d in configs && d.enabled && d.id == id;
      assert d in all;
    }
    if c.enabled { assert c in all; }
  }

  /**
   * The servers dictionary once `start` has recorded a fresh instance for each
   * enabled configuration in turn (`self.servers[config.id] = ...`).
   */
  function Instances(servers: map<string, ServerInstance>, configs: seq<McpServerConfig>): map<string, ServerInstance>
  {
    if configs == [] then servers
    else
      var prev := Instances(servers, configs[..|configs| - 1]);
      var c := configs[|configs| - 1];
      if c.enabled then prev[c.id := NewInstance(c)] else prev
  }

  /** The ids present afterwards are the earlier ones and those of the enabled configurations. */
  lemma {:induction false} InstancesKeys(servers: map<string, ServerInstance>, configs: seq<McpServerConfig>)
    ensures Instances(servers, configs).Keys == servers.Keys + EnabledIds(configs)
  {
    if configs != [] {
      var front := configs[..|configs| - 1];
      InstancesKeys(servers, front);
      assert configs == front + [configs[|configs| - 1]];
      EnabledIdsSnoc(front, configs[|configs| - 1]);
    }
  }

  /** The last enabled configuration with a given id decides that id's instance. */
  lemma {:induction false} InstancesLastWins(servers: map<string, ServerInstance>, configs: seq<McpServerConfig>, k: nat)
    requires k < |configs| && configs[k].enabled
    requires forall j :: k < j < |configs| ==> !configs[j].enabled || configs[j].id != configs[k].id
    ensures configs[k].id in Instances(servers, configs)
    ensures Instances(servers, configs)[configs[k].id] == NewInstance(configs[k])
  {
    var last := |configs| - 1;
    if k < last {
      var front := configs[..last];
      forall j | k < j < |front| ensures !front[j].enabled || front[j].id != front[k].id {
        assert front[j] == configs[j];
      }
      InstancesLastWins(servers, front, k);
    }
  }

  /** An id no enabled configuration names keeps its instance, or stays absent. */
  lemma {:induction false} InstancesKeepOthers(servers: map<string, ServerInstance>, configs: seq<McpServerConfig>, id: string)
    requires id !in EnabledIds(configs)
    ensures id in Instances(servers, configs) <==> id in servers
    ensures id in servers ==> Instances(servers, configs)[id] == servers[id]
  {
    if configs != [] {
      var front := configs[..|configs| - 1];
      assert configs == front + [configs[|configs| - 1]];
      EnabledIdsSnoc(front, configs[|configs| - 1]);
      InstancesKeepOthers(servers, front, id);
    }
  }

  /** The servers table once `_start_server` has run for every server, with what spawning each did. */
  function Started(servers: map<string, ServerInstance>, spawn: string -> SpawnOutcome): (started: map<string, ServerInstance>)
    ensures started.Keys == servers.Keys
  {
    map id | id in servers :: AfterSpawn(servers[id].(status := Starting), spawn(id))
  }

  /** A server's record once stopped: only one with a process changes. */
  function Halted(inst: ServerInstance): ServerInstance {
    if inst.process.Some? then inst.(status := Stopped, process := None) else inst
  }

  class ClientPool {
    const serverConfigs: seq<McpServerConfig>
    /** server id -> instance; `order` is the dictionary's insertion order. */
    var servers: map<string, ServerInstance>
    var order: seq<string>
    /** tool name -> id of the server that owns it. */
    var toolRegistry: map<string, string>
    var running: bool
    /** Every request written to a subprocess, in order. */
    var sent: seq<Outgoing>

    ghost predicate Valid()
      reads this
    {
      Consistent(servers, order)
    }

    constructor (configs: seq<McpServerConfig>)
      ensures Valid()
      ensures serverConfigs == configs
      ensures servers == map[] && order == [] && toolRegistry == map[] && !running && sent == []
    {
      serverConfigs := configs;
      servers := map[];
      order := [];
      toolRegistry := map[];
      running := false;
      sent := [];
    }

    /** `get_status`: every server id with its status value. */
    function GetStatus(): (report: map<string, string>)
      reads this
      ensures report.Keys == servers.Keys
      ensures forall id :: id in report ==> report[id] == StatusValue(servers[id].status)
    {
      map id | id in servers :: StatusValue(servers[id].status)
    }

    /** Replaces the record of an existing server. */
    method Put(id: string, inst: ServerInstance)
      requires Valid() && id in servers
      requires Kept(id, inst)
      modifies this`servers
      ensures Valid()
      ensures servers == old(servers)[id := inst]
    {
      ConsistentUpdate(servers, order, id, inst);
      servers := servers[id := inst];
    }

    /** One turn of `start`'s instance-creation loop. */
    method AddInstance(config: McpServerConfig)
      requires Valid()
      modifies this`servers, this`order
      ensures Valid()
      ensures servers == if config.enabled then old(servers)[config.id := NewInstance(config)] else old(servers)
      ensures |old(order)| <= |order| && order[..|old(order)|] == old(order)
    {
      if config.enabled {
        var inst := NewInstance(config);
        if config.id in servers {
          Put(config.id, inst);
        } else {
          ConsistentInsert(servers, order, inst);
          servers := servers[config.id := inst];
          order := order + [config.id];
        }
      }
    }

    /**
     * The instance-creation part of `start`: a fresh STOPPED instance for each
     * enabled configuration, keyed by its id; a later configuration with the
     * same id replaces the instance but keeps its place in the order.
     */
    method CreateInstances()
      requires Valid()
      modifies this`servers, this`order
      ensures Valid()
      ensures servers == Instances(old(servers), serverConfigs)
      ensures |old(order)| <= |order| && order[..|old(order)|] == old(order)
    {
      var i := 0;
      while i < |serverConfigs|
        invariant 0 <= i <= |serverConfigs|
        invariant Valid()
        invariant servers == Instances(old(servers), serverConfigs[..i])
        invariant |old(order)| <= |order| && order[..|old(order)|] == old(order)
      {
        assert serverConfigs[..i + 1][..i] == serverConfigs[..i];
        AddInstance(serverConfigs[i]);
        i := i + 1;
      }
      assert serverConfigs[..i] == serverConfigs;
    }

    /** The first step of `_start_server`: the server is STARTING while its process is spawned. */
    method BeginStart(id: string)
      requires Valid() && id in servers
      modifies this`servers
      ensures Valid()
      ensures servers == old(servers)[id := old(servers)[id].(status := Starting)]
    {
      InstanceKept(id, servers[id], servers[id].(status := Starting));
      Put(id, servers[id].(status := Starting));
    }

    /** The second step: RUNNING on a successful spawn; FAILED, one more failure and the error otherwise. */
    method FinishStart(id: string, spawn: SpawnOutcome)
      requires Valid() && id in servers
      modifies this`servers
      ensures Valid()
      ensures servers == old(servers)[id := AfterSpawn(old(servers)[id], spawn)]
    {
      InstanceKept(id, servers[id], AfterSpawn(servers[id], spawn));
      Put(id, AfterSpawn(servers[id], spawn));
    }

    /**
     * `_start_server`: RUNNING with the new process exactly when spawning
     * succeeded; otherwise FAILED, with the error and one more failure counted
     * and the previous process (if any) left in place.
     */
    method StartServer(id: string, spawn: SpawnOutcome)
      requires Valid() && id in servers
      modifies this`servers
      ensures Valid()
      ensures servers == old(servers)[id := AfterSpawn(old(servers)[id].(status := Starting), spawn)]
      ensures servers[id].status == Running <==> spawn.Spawned?
      ensures spawn.Spawned? ==> servers[id].process == Some(Process(spawn.pid, false))
      ensures spawn.SpawnError? ==> && servers[id].status == Failed
                                    && servers[id].failureCount == old(servers)[id].failureCount + 1
                                    && servers[id].lastError == Some(spawn.reason)
                                    && servers[id].process == old(servers)[id].process
    {
      BeginStart(id);
      FinishStart(id, spawn);
    }

    /** `_stop_server`: only a server that has a process is marked STOPPED and loses it. */
    method StopServer(id: string)
      requires Valid() && id in servers
      modifies this`servers
      ensures Valid()
      ensures servers == old(servers)[id := Halted(old(servers)[id])]
      ensures servers[id].process.None? && (old(servers)[id].process.Some? ==> servers[id].status == Stopped)
    {
      if servers[id].process.Some? {
        InstanceKept(id, servers[id], Halted(servers[id]));
        Put(id, Halted(servers[id]));
      } else {
        assert servers == servers[id := servers[id]];
      }
    }

    /** The subprocess of a server exits (its return code becomes set). */
    method ProcessExited(id: string)
      requires Valid() && id in servers
      modifies this`servers
      ensures Valid()
      ensures old(servers)[id].process.Some? ==>
                servers == old(servers)[id := old(servers)[id].(process := Some(old(servers)[id].process.value.(exited := true)))]
      ensures old(servers)[id].process.None? ==> servers == old(servers)
    {
      var inst := servers[id];
      if inst.process.Some? {
        InstanceKept(id, inst, inst.(process := Some(inst.process.value.(exited := true))));
        Put(id, inst.(process := Some(inst.process.value.(exited := true))));
      }
    }

    /**
     * One pass of `_monitor_server`'s loop. A dead process makes the server
     * FAILED with one more failure; it is restarted, after the backoff delay,
     * only if restarting is configured and fewer than five failures are counted.
     */
    method MonitorStep(id: string, spawn: SpawnOutcome) returns (verdict: MonitorVerdict)
      requires Valid() && id in servers
      modifies this`servers
      ensures Valid() && id in servers
      ensures !running ==> verdict == LoopEnded && servers == old(servers)
      ensures running && !Died(old(servers)[id]) ==> verdict == Healthy && servers == old(servers)
      ensures running && Died(old(servers)[id]) ==>
                var failed := old(servers)[id].(status := Failed, failureCount := old(servers)[id].failureCount + 1);
                if ShouldRestart(failed.config.restartOnFailure, failed.failureCount) then
                  && verdict == Restarted(RestartDelay(failed.failureCount))
                  && servers == old(servers)[id := AfterSpawn(failed.(status := Starting), spawn)]
                else
                  && verdict == GaveUp
                  && servers == old(servers)[id := failed]
      ensures verdict.Restarted? ==> verdict.delay in {2, 4, 8, 16}
    {
      var inst := servers[id];
      assert Kept(id, inst);
      if !running || !inst.config.enabled {
        return LoopEnded;
      }
      if !Died(inst) {
        return Healthy;
      }
      var failed := inst.(status := Failed, failureCount := inst.failureCount + 1);
      InstanceKept(id, inst, failed);
      Put(id, failed);
      if failed.config.restartOnFailure && failed.failureCount < MaxFailures {
        RestartDelays(failed.config.restartOnFailure, failed.failureCount);
        var delay := RestartDelay(failed.failureCount);
        StartServer(id, spawn);
        Overwrite(old(servers), id, failed, AfterSpawn(failed.(status := Starting), spawn));
        return Restarted(delay);
      }
      return GaveUp;
    }

    /** One tick of the monitor: the process may have exited, then one pass of the loop runs. */
    method MonitorTick(id: string, tick: MonitorTick) returns (verdict: MonitorVerdict)
      requires Valid() && id in servers
      modifies this`servers
      ensures Valid() && id in servers
      ensures var ticked := if tick.exitedBefore then Exit(old(servers)[id]) else old(servers)[id];
        servers == old(servers)[id := MonitorPass(ticked, running, tick.restartSpawn)]
      ensures old(servers)[id].failureCount <= servers[id].failureCount
      ensures verdict.Restarted? ==>
                var failures := old(servers)[id].failureCount + 1;
                && ShouldRestart(true, failures)
                && failures <= servers[id].failureCount
                && verdict.delay == Pow2(failures)
                && verdict.delay in {2, 4, 8, 16}
    {
      if tick.exitedBefore {
        ProcessExited(id);
      } else {
        assert servers == old(servers)[id := old(servers)[id]];
      }
      ghost var ticked := servers[id];
      ghost var mid := servers;
      verdict := MonitorStep(id, tick.restartSpawn);
      assert servers == mid[id := MonitorPass(ticked, running, tick.restartSpawn)];
      Overwrite(old(servers), id, ticked, MonitorPass(ticked, running, tick.restartSpawn));
      if verdict.Restarted? {
        RestartDelays(true, old(servers)[id].failureCount + 1);
      }
    }

    /**
     * `_monitor_server` driven by a sequence of ticks: the restart delays it
     * waits are among 2, 4, 8 and 16 seconds and strictly growing, so a server
     * is restarted at most four times.
     */
    method MonitorServer(id: string, ticks: seq<MonitorTick>) returns (delays: seq<nat>)
      requires Valid() && id in servers
      modifies this`servers
      ensures Valid()
      ensures |delays| <= MaxFailures - 1
      ensures forall k :: 0 <= k < |delays| ==> delays[k] in {2, 4, 8, 16}
      ensures forall j, k :: 0 <= j < k < |delays| ==> delays[j] < delays[k]
    {
      delays := [];
      ghost var lastFailures: nat := 0;
      var i := 0;
      while i < |ticks|
        invariant 0 <= i <= |ticks|
        invariant Valid() && id in servers
        invariant |delays| <= lastFailures < MaxFailures
        invariant lastFailures <= servers[id].failureCount
        invariant forall k :: 0 <= k < |delays| ==> delays[k] in {2, 4, 8, 16}
        invariant delays != [] ==> delays[|delays| - 1] == Pow2(lastFailures)
        invariant forall j, k :: 0 <= j < k < |delays| ==> delays[j] < delays[k]
      {
        ghost var failuresBefore := servers[id].failureCount;
        var verdict := MonitorTick(id, ticks[i]);
        if verdict.LoopEnded? || verdict.GaveUp? {
          break;
        }
        if verdict.Restarted? {
          if delays != [] {
            Pow2Monotonic(lastFailures, failuresBefore + 1);
          }
          ghost var prev := delays;
          delays := delays + [verdict.delay];
          forall j, k | 0 <= j < k < |delays| ensures delays[j] < delays[k] {
            assert delays[j] == prev[j];
            if k < |prev| {
              assert delays[k] == prev[k];
            } else if j < |prev| - 1 {
              assert prev[j] < prev[|prev| - 1];
            }
          }
          lastFailures := failuresBefore + 1;
        }
        i := i + 1;
      }
    }

    /**
     * The first half of `_send_request`: reject a server that is absent, not
     * RUNNING or without a process; otherwise issue the next id and record it
     * as pending. The new id was not pending before.
     */
    method BeginRequest(id: string) returns (r: Result<string, PoolError>)
      requires Valid()
      modifies this`servers
      ensures Valid()
      ensures !CanSend(old(servers), id) ==> r == Failure(NotRunning(id)) && servers == old(servers)
      ensures CanSend(old(servers), id) ==> r == Success(NextKey(old(servers)[id]))
      ensures CanSend(old(servers), id) ==> NextKey(old(servers)[id]) !in old(servers)[id].pendingRequests
      ensures CanSend(old(servers), id) ==> servers == old(servers)[id := Issue(old(servers)[id])]
    {
      if !CanSend(servers, id) {
        return Failure(NotRunning(id));
      }
      var inst := servers[id];
      assert Kept(id, inst);
      NextIdFresh(inst);
      InstanceIssued(id, inst);
      Put(id, Issue(inst));
      return Success(NextKey(inst));
    }

    /** A timeout or a write error drops the pending entry (`pop(request_id, None)`). */
    method AbandonRequest(id: string, key: string)
      requires Valid() && id in servers
      modifies this`servers
      ensures Valid()
      ensures servers == old(servers)[id := old(servers)[id].(pendingRequests := old(servers)[id].pendingRequests - {key})]
    {
      InstanceRemoved(id, servers[id], key);
      Put(id, servers[id].(pendingRequests := servers[id].pendingRequests - {key}));
    }

    /**
     * `_handle_server_response`: a reply whose truthy id is pending resolves and
     * removes that entry; any other reply leaves the table as it was.
     */
    method HandleServerResponse(id: string, response: map<string, Json>) returns (delivered: bool)
      requires Valid() && id in servers
      modifies this`servers
      ensures Valid()
      ensures var key := CorrelationKey(Get(response, "id", JNull));
              delivered <==> key.Some? && key.value in old(servers)[id].pendingRequests
      ensures delivered ==>
                var key := CorrelationKey(Get(response, "id", JNull)).value;
                servers == old(servers)[id := old(servers)[id].(pendingRequests := old(servers)[id].pendingRequests - {key})]
      ensures !delivered ==> servers == old(servers)
    {
      var key := CorrelationKey(Get(response, "id", JNull));
      if key.Some? && key.value in servers[id].pendingRequests {
        AbandonRequest(id, key.value);
        return true;
      }
      return false;
    }

    /** Counts a request that was written (`request_count += 1`). */
    method CountRequest(id: string)
      requires Valid() && id in servers
      modifies this`servers
      ensures Valid()
      ensures servers == old(servers)[id := old(servers)[id].(requestCount := old(servers)[id].requestCount + 1)]
    {
      InstanceKept(id, servers[id], servers[id].(requestCount := servers[id].requestCount + 1));
      Put(id, servers[id].(requestCount := servers[id].requestCount + 1));
    }

    /**
     * The second half of `_send_request`, for a request pending under `key`:
     * it is written and counted unless the write fails, and its pending entry
     * is popped by the reply that resolves it, or dropped on a timeout or a
     * write error.
     */
    method Await(id: string, key: string, rpcMethod: string, params: map<string, Json>, reply: ReplyEvent)
      returns (r: Result<map<string, Json>, PoolError>)
      requires Valid() && id in servers && key in servers[id].pendingRequests
      modifies this`servers, this`sent
      ensures Valid()
      ensures r == SendOutcome(id, key, reply)
      ensures servers == old(servers)[id := Settle(old(servers)[id], key, reply)]
      ensures sent == old(sent) + Written(id, key, rpcMethod, params, reply)
      ensures r.Success? ==> CorrelationKey(Get(r.value, "id", JNull)) == Some(key)
    {
      ghost var inst := old(servers)[id];
      assert Kept(id, inst);
      if reply.WriteError? {
        AbandonRequest(id, key);
        return Failure(SendFailed(id, reply.reason));
      }
      sent := sent + [Outgoing(id, RequestBody(key, rpcMethod, params))];
      CountRequest(id);
      ghost var counted := inst.(requestCount := inst.requestCount + 1);
      Overwrite(old(servers), id, inst, counted);
      assert servers == old(servers)[id := counted];
      Overwrite(old(servers), id, counted, Settle(inst, key, reply));
      if reply.TimedOut? {
        AbandonRequest(id, key);
        return Failure(RequestTimedOut(id));
      }
      var answer := reply.response["id" := JStr(key)];
      var delivered := HandleServerResponse(id, answer);
      assert delivered;
      return Success(answer);
    }

    /**
     * `_send_request` carried to its end: the counter rises by one, the request
     * is written and counted unless the write fails, a reply is returned with
     * the id that resolved its pending entry, and that entry is gone again
     * whatever the outcome.
     */
    method SendRequest(id: string, rpcMethod: string, params: map<string, Json>, reply: ReplyEvent)
      returns (r: Result<map<string, Json>, PoolError>)
      requires Valid()
      modifies this`servers, this`sent
      ensures Valid() && SameShape(old(servers), servers)
      ensures !CanSend(old(servers), id) ==>
                r == Failure(NotRunning(id)) && servers == old(servers) && sent == old(sent)
      ensures CanSend(old(servers), id) ==> r == SendOutcome(id, NextKey(old(servers)[id]), reply)
      ensures CanSend(old(servers), id) ==> servers == old(servers)[id := AfterSend(old(servers)[id], reply)]
      ensures CanSend(old(servers), id) ==>
                sent == old(sent) + Written(id, NextKey(old(servers)[id]), rpcMethod, params, reply)
      ensures r.Success? ==> CorrelationKey(Get(r.value, "id", JNull)) == Some(NextKey(old(servers)[id]))
    {
      var begun := BeginRequest(id);
      if begun.Failure? {
        return Failure(begun.error);
      }
      ghost var inst := old(servers)[id];
      IssueThenSettle(inst, reply);
      r := Await(id, begun.value, rpcMethod, params, reply);
      Overwrite(old(servers), id, Issue(inst), AfterSend(inst, reply));
      SameShapeUpdate(old(servers), id, AfterSend(inst, reply));
    }

    /** Registers the named entries of one discovery reply for `owner`, stopping at an entry the loop raises on. */
    method RegisterTools(owner: string, items: seq<Json>)
      modifies this`toolRegistry
      ensures toolRegistry == Register(old(toolRegistry), ToolNames(items), owner)
    {
      var j := 0;
      while j < |items| && Registrable(items[j])
        invariant 0 <= j <= |items|
        invariant RegistrableRun(items, j)
        invariant toolRegistry == Register(old(toolRegistry), ToolNames(items[..j]), owner)
      {
        RegisterStep(old(toolRegistry), items, j, owner);
        var names := NameOf(items[j].fields);
        if names != [] {
          toolRegistry := toolRegistry[names[0] := owner];
        }
        j := j + 1;
      }
      if j < |items| {
        ToolNamesStop(items, j);
      } else {
        assert items[..j] == items;
      }
    }

    /** The body of `_discover_tools`'s loop for one server. */
    method DiscoverFrom(id: string, reply: ReplyEvent)
      requires Valid() && id in servers
      modifies this`servers, this`sent, this`toolRegistry
      ensures Valid() && SameShape(old(servers), servers)
      ensures servers == AfterPoll(old(servers), id, reply)
      ensures sent == old(sent) + SentBy(old(servers), id, "tools/list", map[], reply)
      ensures toolRegistry == Register(old(toolRegistry), DiscoveredNames(old(servers), id, reply), id)
    {
      if servers[id].status == Running {
        var r := SendRequest(id, "tools/list", map[], reply);
        if r.Success? {
          assert ListedItems(r.value, "tools") == ListedItems(reply.response, "tools");
          RegisterTools(id, ListedItems(r.value, "tools"));
        }
      } else {
        assert sent == old(sent) + [];
      }
    }

    /**
     * `_discover_tools`: empties the registry, then asks every RUNNING server,
     * in order, for its tools and registers each named one; a later server
     * overwrites an earlier owner of the same name.
     */
    method DiscoverTools(replies: string -> ReplyEvent)
      requires Valid()
      modifies this`servers, this`sent, this`toolRegistry
      ensures Valid() && SameShape(old(servers), servers)
      ensures servers == Polled(old(servers), replies)
      ensures sent == old(sent) + Requests(old(servers), order, "tools/list", replies)
      ensures toolRegistry == BuildRegistry(order, Discovered(old(servers), replies))
    {
      ghost var discovered := Discovered(old(servers), replies);
      toolRegistry := map[];
      PollStart(old(servers), order, replies);
      var i := 0;
      while i < |order|
        invariant 0 <= i <= |order|
        invariant Valid() && PolledUpTo(old(servers), servers, order, i, replies)
        invariant sent == old(sent) + Requests(old(servers), order[..i], "tools/list", replies)
        invariant toolRegistry == BuildRegistry(order[..i], discovered)
      {
        var id := order[i];
        ghost var before, sentBefore := servers, sent;
        BuildRegistryPrefix(order, i, discovered);
        DiscoverFrom(id, replies(id));
        PassStep(old(servers), before, servers, old(sent), sentBefore, sent, order, i, "tools/list", replies);
        SameRecord(before, old(servers), id, "tools/list", replies(id), "tools");
        i := i + 1;
      }
      assert order[..i] == order;
      PollDone(old(servers), servers, order, replies);
      PolledShape(old(servers), replies);
    }

    /**
     * The body of one `get_all_*` loop for one server: `rpcMethod` is the
     * request it sends (`tools/list`, …) and `key` the result member whose
     * entries it keeps (`tools`, …).
     */
    method ListFrom(rpcMethod: string, key: string, id: string, reply: ReplyEvent) returns (items: seq<Json>)
      requires Valid() && id in servers
      modifies this`servers, this`sent
      ensures Valid() && SameShape(old(servers), servers)
      ensures servers == AfterPoll(old(servers), id, reply)
      ensures sent == old(sent) + SentBy(old(servers), id, rpcMethod, map[], reply)
      ensures items == ListedFrom(old(servers), id, reply, key)
    {
      items := [];
      if servers[id].status == Running {
        var r := SendRequest(id, rpcMethod, map[], reply);
        if r.Success? {
          assert ListedItems(r.value, key) == ListedItems(reply.response, key);
          items := ListedItems(r.value, key);
        }
      } else {
        assert sent == old(sent) + [];
      }
    }

    /**
     * `get_all_tools`, `get_all_resources` and `get_all_prompts`: the entries
     * every RUNNING server lists, concatenated in server order; a server whose
     * request fails contributes nothing.
     */
    method ListAll(kind: ListKind, replies: string -> ReplyEvent) returns (all: seq<Json>)
      requires Valid()
      modifies this`servers, this`sent
      ensures Valid() && SameShape(old(servers), servers)
      ensures servers == Polled(old(servers), replies)
      ensures sent == old(sent) + Requests(old(servers), order, kind.Method(), replies)
      ensures all == Collect(order, Listed(old(servers), replies, kind.Key()))
    {
      var rpcMethod, key := kind.Method(), kind.Key();
      all := [];
      PollStart(old(servers), order, replies);
      var i := 0;
      while i < |order|
        invariant 0 <= i <= |order|
        invariant Valid() && PolledUpTo(old(servers), servers, order, i, replies)
        invariant sent == old(sent) + Requests(old(servers), order[..i], rpcMethod, replies)
        invariant all == ListedUpTo(old(servers), order[..i], replies, key)
      {
        var id := order[i];
        ghost var before, sentBefore := servers, sent;
        var items := ListFrom(rpcMethod, key, id, replies(id));
        PassStep(old(servers), before, servers, old(sent), sentBefore, sent, order, i, rpcMethod, replies);
        CollectNext(old(servers), before, order, i, replies, key, all, items);
        all := all + items;
        i := i + 1;
      }
      assert order[..i] == order;
      ListedUpToIsCollect(old(servers), order, replies, key);
      PollDone(old(servers), servers, order, replies);
      PolledShape(old(servers), replies);
    }

    /**
     * `call_tool`: an unregistered name fails without sending anything;
     * otherwise `tools/call` with the name and arguments goes to the owner, an
     * `error` in the reply is raised, and the reply's `result` (or `{}`) returned.
     */
    method CallTool(name: Json, arguments: Json, reply: ReplyEvent) returns (r: Result<Json, PoolError>)
      requires Valid()
      modifies this`servers, this`sent
      ensures Valid()
      ensures Owner(toolRegistry, name).None? ==>
                r == Failure(ToolNotFound(name)) && servers == old(servers) && sent == old(sent)
      ensures Owner(toolRegistry, name).Some? ==>
                var owner := Owner(toolRegistry, name).value;
                var params := map["name" := name, "arguments" := arguments];
                if !CanSend(old(servers), owner) then
                  r == Failure(NotRunning(owner)) && sent == old(sent)
                else
                  var key := NatToDecimal(old(servers)[owner].requestIdCounter + 1);
                  && sent == old(sent) + (if reply.WriteError? then [] else [Outgoing(owner, RequestBody(key, "tools/call", params))])
                  && (reply.TimedOut? ==> r == Failure(RequestTimedOut(owner)))
                  && (reply.WriteError? ==> r == Failure(SendFailed(owner, reply.reason)))
                  && (reply.Replied? && "error" in reply.response ==> r == Failure(ToolFailed(reply.response["error"])))
                  && (reply.Replied? && "error" !in reply.response ==>
                        r == Success(Get(reply.response, "result", JObject(map[]))))
      ensures r == CallResult(toolRegistry, old(servers), name, reply)
      ensures servers == AfterCall(toolRegistry, old(servers), name, reply)
      ensures sent == old(sent) + CallSent(toolRegistry, old(servers), name, arguments, reply)
      ensures SameShape(old(servers), servers)
    {
      var owner := Owner(toolRegistry, name);
      if owner.None? {
        return Failure(ToolNotFound(name));
      }
      var params := map["name" := name, "arguments" := arguments];
      var response := SendRequest(owner.value, "tools/call", params, reply);
      if response.Failure? {
        return Failure(response.error);
      }
      if "error" in response.value {
        return Failure(ToolFailed(response.value["error"]));
      }
      return Success(Get(response.value, "result", JObject(map[])));
    }

    /** The starting part of `start`: `_start_server` for every server, with what spawning it did. */
    method StartAll(spawn: string -> SpawnOutcome)
      requires Valid()
      modifies this`servers
      ensures Valid()
      ensures servers == Started(old(servers), spawn)
      ensures forall id :: id in servers ==> (servers[id].status == Running <==> spawn(id).Spawned?)
    {
      var i := 0;
      while i < |order|
        invariant 0 <= i <= |order|
        invariant Valid()
        invariant servers.Keys == old(servers).Keys
        invariant forall k :: 0 <= k < i ==> servers[order[k]] == Started(old(servers), spawn)[order[k]]
        invariant forall k :: i <= k < |order| ==> servers[order[k]] == old(servers)[order[k]]
      {
        ghost var before := servers;
        StartServer(order[i], spawn(order[i]));
        forall k | 0 <= k < i ensures servers[order[k]] == Started(old(servers), spawn)[order[k]] {
          assert order[k] != order[i];
          assert servers[order[k]] == before[order[k]];
        }
        forall k | i < k < |order| ensures servers[order[k]] == old(servers)[order[k]] {
          assert order[i] != order[k];
        }
        i := i + 1;
      }
      forall id | id in servers ensures servers[id] == Started(old(servers), spawn)[id] {
        assert id in order;
        var k :| 0 <= k < |order| && order[k] == id;
      }
    }

    /**
     * `start`: creates the instances, starts every server with what spawning it
     * did, then discovers tools: the registry is the one `_discover_tools` builds
     * over the started servers, so every tool listed by a spawned server that
     * replied is registered, to the last such server in order, and every
     * registered tool belongs to such a server.
     */
    method Start(spawn: string -> SpawnOutcome, replies: string -> ReplyEvent)
      requires Valid()
      modifies this
      ensures Valid()
      ensures running
      ensures servers.Keys == old(servers).Keys + EnabledIds(serverConfigs)
      ensures |old(order)| <= |order| && order[..|old(order)|] == old(order)
      ensures servers == Polled(Started(Instances(old(servers), serverConfigs), spawn), replies)
      ensures sent == old(sent) + Requests(Started(Instances(old(servers), serverConfigs), spawn), order, "tools/list", replies)
      ensures forall id :: id in servers ==> (servers[id].status == Running <==> spawn(id).Spawned?)
      ensures forall id :: id in servers && spawn(id).SpawnError? ==>
                servers[id].status == Failed && servers[id].lastError == Some(spawn(id).reason)
      ensures toolRegistry == BuildRegistry(order, Discovered(Started(Instances(old(servers), serverConfigs), spawn), replies))
      ensures forall name :: name in toolRegistry ==>
                && toolRegistry[name] in servers
                && spawn(toolRegistry[name]).Spawned?
                && replies(toolRegistry[name]).Replied?
                && name in ToolNames(ListedItems(replies(toolRegistry[name]).response, "tools"))
    {
      running := true;
      CreateInstances();
      ghost var createdOrder := order;
      InstancesKeys(old(servers), serverConfigs);
      StartAll(spawn);
      ghost var started := servers;
      assert started == Started(Instances(old(servers), serverConfigs), spawn);
      assert sent == old(sent);
      DiscoverTools(replies);
      assert servers == Polled(started, replies);
      PolledShape(started, replies);
      assert servers.Keys == started.Keys && order == createdOrder;
      assert sent == old(sent) + Requests(started, order, "tools/list", replies);
      forall name | name in toolRegistry
        ensures && toolRegistry[name] in servers
                && spawn(toolRegistry[name]).Spawned?
                && replies(toolRegistry[name]).Replied?
                && name in ToolNames(ListedItems(replies(toolRegistry[name]).response, "tools"))
      {
        RegisteredOwnerStarted(started, spawn, replies, order, name);
      }
    }

    /** `stop`: the pool stops running and every server that has a process is stopped. */
    method Stop()
      requires Valid()
      modifies this`running, this`servers
      ensures Valid()
      ensures !running
      ensures servers.Keys == old(servers).Keys
      ensures forall id :: id in servers ==> servers[id] == Halted(old(servers)[id])
    {
      running := false;
      var i := 0;
      while i < |order|
        invariant 0 <= i <= |order|
        invariant Valid() && !running
        invariant servers.Keys == old(servers).Keys
        invariant forall k :: 0 <= k < i ==> servers[order[k]] == Halted(old(servers)[order[k]])
        invariant forall k :: i <= k < |order| ==> servers[order[k]] == old(servers)[order[k]]
      {
        ghost var before := servers;
        StopServer(order[i]);
        forall k | 0 <= k <= i ensures servers[order[k]] == Halted(old(servers)[order[k]]) {
          if order[k] != order[i] {
            assert servers[order[k]] == before[order[k]];
          }
        }
        forall k | i < k < |order| ensures servers[order[k]] == old(servers)[order[k]] {
          assert order[i] != order[k];
        }
        i := i + 1;
      }
      forall id | id in servers ensures servers[id] == Halted(old(servers)[id]) {
        assert id in order;
        var k :| 0 <= k < |order| && order[k] == id;
      }
    }
  }
}
