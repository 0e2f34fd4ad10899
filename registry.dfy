/**
 * The decision logic of the server pool, stated on values: server status
 * values, what a listing reply contributes, how the tool registry is rebuilt
 * (later servers overwrite earlier ones), and the restart policy with its
 * exponential backoff.
 */
module Registry {
  import opened Json

  datatype ServerStatus = Starting | Running | Failed | Stopped

  /** The wire value of a status, as `get_status` reports it. */
  function StatusValue(s: ServerStatus): (v: string)
    ensures v in {"starting", "running", "failed", "stopped"}
  {
    match s
    case Starting => "starting"
    case Running => "running"
    case Failed => "failed"
    case Stopped => "stopped"
  }

  /** Distinct statuses are reported as distinct values. */
  lemma StatusValueInjective(s: ServerStatus, t: ServerStatus)
    requires StatusValue(s) == StatusValue(t)
    ensures s == t
  {
  }

  // ----------------------------------------------------------------- listings

  /**
   * The entries a listing reply holds under `result[key]`. A reply without a
   * `result` object, or whose entry is not a list, contributes nothing (the code
   * either skips it or raises and skips it).
   */
  function ListedItems(response: map<string, Json>, key: string): (items: seq<Json>)
    ensures items != [] ==>
              && "result" in response && response["result"].JObject?
              && key in response["result"].fields
              && response["result"].fields[key] == JList(items)
  {
    if "result" in response && response["result"].JObject? && key in response["result"].fields
       && response["result"].fields[key].JList?
    then response["result"].fields[key].items
    else []
  }

  /** The name a tool entry is registered under: its non-empty string `name`, if any. */
  function NameOf(tool: map<string, Json>): (names: seq<string>)
    ensures |names| <= 1
    ensures names != [] ==> "name" in tool && tool["name"] == JStr(names[0]) && names[0] != ""
  {
    if "name" in tool && tool["name"].JStr? && tool["name"].s != "" then [tool["name"].s] else []
  }

  /** A truthy list or object: a `name` that cannot be used as a dictionary key. */
  predicate Unhashable(name: Json) {
    (name.JList? || name.JObject?) && Truthy(name)
  }

  /**
   * Whether the registration loop gets past an entry without raising: it is an
   * object (it has `.get`), and its `name`, if truthy, can be a dictionary key.
   */
  predicate Registrable(item: Json) {
    item.JObject? && !Unhashable(Get(item.fields, "name", JNull))
  }

  /**
   * The tool names one discovery reply registers, in list order. Entries without
   * a usable name are skipped; an entry that is not an object, or whose truthy
   * name is a list or an object, stops the iteration (the code raises there,
   * keeping what it already registered).
   */
  function ToolNames(items: seq<Json>): (names: seq<string>)
    ensures |names| <= |items|
  {
    if items == [] || !Registrable(items[0]) then []
    else NameOf(items[0].fields) + ToolNames(items[1..])
  }

  /** Every name registered is the non-empty string `name` of one of the listed entries. */
  lemma {:induction false} ToolNamesListed(items: seq<Json>, n: string)
    requires n in ToolNames(items)
    ensures n != ""
    ensures exists k :: 0 <= k < |items| && items[k].JObject? && "name" in items[k].fields && items[k].fields["name"] == JStr(n)
  {
    var head := NameOf(items[0].fields);
    if n in head {
      assert items[0].fields["name"] == JStr(n);
    } else {
      ToolNamesListed(items[1..], n);
      var k :| 0 <= k < |items[1..]| && items[1..][k].JObject? && "name" in items[1..][k].fields
                && items[1..][k].fields["name"] == JStr(n);
      assert items[k + 1] == items[1..][k];
    }
  }

  /** The first `j` entries are all ones the registration loop gets past. */
  predicate RegistrableRun(items: seq<Json>, j: nat) {
    j <= |items| && forall k :: 0 <= k < j ==> Registrable(items[k])
  }

  /** Extending a run of objects by one more object extends its names by that object's name. */
  lemma {:induction false} ToolNamesSnoc(items: seq<Json>, j: nat)
    requires j < |items| && RegistrableRun(items, j)
    requires Registrable(items[j])
    ensures ToolNames(items[..j + 1]) == ToolNames(items[..j]) + NameOf(items[j].fields)
  {
    if j > 0 {
      var tail := items[1..];
      assert items[..j + 1][1..] == tail[..j];
      assert items[..j][1..] == tail[..j - 1];
      ToolNamesSnoc(tail, j - 1);
    }
  }

  /** Registering one more object of a run adds its name, if it has one, to the registry. */
  lemma RegisterStep(registry: map<string, string>, items: seq<Json>, j: nat, owner: string)
    requires j < |items| && RegistrableRun(items, j)
    requires Registrable(items[j])
    ensures RegistrableRun(items, j + 1)
    ensures var before := Register(registry, ToolNames(items[..j]), owner);
      var names := NameOf(items[j].fields);
      Register(registry, ToolNames(items[..j + 1]), owner) == if names == [] then before else before[names[0] := owner]
  {
    ToolNamesSnoc(items, j);
    var names := NameOf(items[j].fields);
    if names != [] {
      assert names == [names[0]];
      RegisterSnoc(registry, ToolNames(items[..j]), names[0], owner);
    } else {
      assert ToolNames(items[..j + 1]) == ToolNames(items[..j]);
    }
  }

  /** Once an entry the loop raises on is reached, later entries add nothing. */
  lemma {:induction false} ToolNamesStop(items: seq<Json>, j: nat)
    requires j < |items| && !Registrable(items[j])
    ensures ToolNames(items) == ToolNames(items[..j])
  {
    if j > 0 {
      assert items[..j][1..] == items[1..][..j - 1];
      ToolNamesStop(items[1..], j - 1);
    }
  }

  // ----------------------------------------------------------------- registry

  /** Registers each name in turn for one server: `registry[name] = server_id`. */
  function Register(registry: map<string, string>, names: seq<string>, owner: string): (r: map<string, string>)
    ensures r.Keys == registry.Keys + set n | n in names
    ensures forall n :: n in names ==> r[n] == owner
    ensures forall n :: n in registry && n !in names ==> r[n] == registry[n]
  {
    if names == [] then registry
    else Register(registry, names[..|names| - 1], owner)[names[|names| - 1] := owner]
  }

  /** Registering one more name overwrites that one entry. */
  lemma RegisterSnoc(registry: map<string, string>, names: seq<string>, name: string, owner: string)
    ensures Register(registry, names + [name], owner) == Register(registry, names, owner)[name := owner]
  {
    assert (names + [name])[..|names|] == names;
  }

  /**
   * The registry a discovery pass builds from empty: each server of `ids`, in
   * order, registers the names `discovered` gives for it.
   */
  function BuildRegistry(ids: seq<string>, discovered: string -> seq<string>): map<string, string>
  {
    if ids == [] then map[]
    else Register(BuildRegistry(ids[..|ids| - 1], discovered), discovered(ids[|ids| - 1]), ids[|ids| - 1])
  }

  /** One more server in the pass registers its names over what the earlier ones built. */
  lemma BuildRegistryPrefix(ids: seq<string>, i: nat, discovered: string -> seq<string>)
    requires i < |ids|
    ensures BuildRegistry(ids[..i + 1], discovered) ==
            Register(BuildRegistry(ids[..i], discovered), discovered(ids[i]), ids[i])
  {
    assert ids[..i + 1][..i] == ids[..i];
  }

  /** A name is registered exactly when some server listed it. */
  lemma {:induction false} RegisteredIffListed(ids: seq<string>, discovered: string -> seq<string>, name: string)
    ensures name in BuildRegistry(ids, discovered) <==>
            exists k :: 0 <= k < |ids| && name in discovered(ids[k])
  {
    if ids != [] {
      var front := ids[..|ids| - 1];
      RegisteredIffListed(front, discovered, name);
      if name in BuildRegistry(ids, discovered) && name !in discovered(ids[|ids| - 1]) {
        var k :| 0 <= k < |front| && name in discovered(front[k]);
        assert ids[k] == front[k];
      }
      if exists k :: 0 <= k < |ids| && name in discovered(ids[k]) {
        var k :| 0 <= k < |ids| && name in discovered(ids[k]);
        if k < |front| { assert front[k] == ids[k]; }
      }
    }
  }

  /**
   * Last one wins: the owner of a name is the last server in order that listed
   * it, whatever earlier servers listed.
   */
  lemma {:induction false} LastListerOwns(ids: seq<string>, discovered: string -> seq<string>, name: string, k: nat)
    requires k < |ids| && name in discovered(ids[k])
    requires forall j :: k < j < |ids| ==> name !in discovered(ids[j])
    ensures name in BuildRegistry(ids, discovered)
    ensures BuildRegistry(ids, discovered)[name] == ids[k]
  {
    var last := |ids| - 1;
    if k < last {
      var front := ids[..last];
      assert front[k] == ids[k];
      forall j | k < j < |front| ensures name !in discovered(front[j]) {
        assert front[j] == ids[j];
      }
      LastListerOwns(front, discovered, name, k);
    }
  }

  /** Every registered owner is one of the servers, and it listed the name. */
  lemma {:induction false} OwnerListedName(ids: seq<string>, discovered: string -> seq<string>, name: string)
    requires name in BuildRegistry(ids, discovered)
    ensures BuildRegistry(ids, discovered)[name] in ids
    ensures name in discovered(BuildRegistry(ids, discovered)[name])
  {
    var last := |ids| - 1;
    if name !in discovered(ids[last]) {
      OwnerListedName(ids[..last], discovered, name);
    }
  }

  /** Collects, in server order, the entries each server listed (`all_items.extend(...)`). */
  function Collect(ids: seq<string>, listed: string -> seq<Json>): (all: seq<Json>)
    ensures forall k :: 0 <= k < |ids| ==> |listed(ids[k])| <= |all|
  {
    if ids == [] then [] else Collect(ids[..|ids| - 1], listed) + listed(ids[|ids| - 1])
  }

  /** One more server in the pass appends its entries. */
  lemma CollectPrefix(ids: seq<string>, i: nat, listed: string -> seq<Json>)
    requires i < |ids|
    ensures Collect(ids[..i + 1], listed) == Collect(ids[..i], listed) + listed(ids[i])
  {
    assert ids[..i + 1][..i] == ids[..i];
  }

  /** An entry is collected exactly when some server listed it. */
  lemma {:induction false} CollectedIffListed(ids: seq<string>, listed: string -> seq<Json>, item: Json)
    ensures item in Collect(ids, listed) <==> exists k :: 0 <= k < |ids| && item in listed(ids[k])
  {
    if ids != [] {
      var front := ids[..|ids| - 1];
      var last := ids[|ids| - 1];
      assert Collect(ids, listed) == Collect(front, listed) + listed(last);
      CollectedIffListed(front, listed, item);
      if item in Collect(ids, listed) && item !in listed(last) {
        assert item in Collect(front, listed);
        var k :| 0 <= k < |front| && item in listed(front[k]);
        assert ids[k] == front[k];
      }
      if exists k :: 0 <= k < |ids| && item in listed(ids[k]) {
        var k :| 0 <= k < |ids| && item in listed(ids[k]);
        if k < |front| {
          assert front[k] == ids[k];
          assert item in Collect(front, listed);
        }
      }
    }
  }

  // ----------------------------------------------------------- restart policy

  /** A server is restarted only while its failure count stays below this. */
  const MaxFailures := 5
  /** Upper bound of the backoff delay, in seconds. */
  const BackoffCap := 30

  function Pow2(n: nat): (p: nat)
    ensures p >= 1
  {
    if n == 0 then 1 else 2 * Pow2(n - 1)
  }

  lemma {:induction false} Pow2Monotonic(m: nat, n: nat)
    requires m < n
    ensures Pow2(m) < Pow2(n)
  {
    if m + 1 < n { Pow2Monotonic(m, n - 1); }
  }

  /** Whether a server that has just failed for the `failureCount`-th time is restarted. */
  predicate ShouldRestart(restartOnFailure: bool, failureCount: nat) {
    restartOnFailure && failureCount < MaxFailures
  }

  /** Seconds to wait before restarting: `min(2 ** failure_count, 30)`. */
  function RestartDelay(failureCount: nat): (d: nat)
    ensures d <= BackoffCap
    ensures d == Pow2(failureCount) || d == BackoffCap
    ensures Pow2(failureCount) <= BackoffCap ==> d == Pow2(failureCount)
  {
    if Pow2(failureCount) < BackoffCap then Pow2(failureCount) else BackoffCap
  }

  /**
   * The delays actually used: a restart follows a failure, so the count is at
   * least one, and below five; the delay is then 2, 4, 8 or 16 seconds and the
   * cap of 30 is never reached.
   */
  lemma RestartDelays(restartOnFailure: bool, failureCount: nat)
    requires failureCount >= 1 && ShouldRestart(restartOnFailure, failureCount)
    ensures RestartDelay(failureCount) == Pow2(failureCount)
    ensures RestartDelay(failureCount) in {2, 4, 8, 16}
  {
    assert Pow2(1) == 2 && Pow2(2) == 4 && Pow2(3) == 8 && Pow2(4) == 16;
  }
}
