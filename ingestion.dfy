/**
 * The run orchestrators of both connectors (intel/o365/__init__.py and
 * intel/msft365/__init__.py): a credential gate, then the stages in a fixed
 * order inside one `try`, where the first stage that raises ends the run and
 * the exception is re-raised. The stages themselves are recorded as calls;
 * which of them raise is an input.
 */
module Ingestion {
  import opened Records

  /** The stages of a run. Devices are not among them. */
  datatype Stage = SyncUsers | SyncGroups | SyncOUs | SyncUserGroupRels | SyncOURels | Cleanup

  /** A stage invoked with the run tag. */
  datatype StageCall = StageCall(stage: Stage, tag: Value)

  /** How a run ends: turned away at the credential gate, re-raising the
      exception of a stage, or having run every stage. */
  datatype RunOutcome = NotConfigured | Raised(stage: Stage) | Completed

  /** The order of the `try` block. */
  const Order: seq<Stage> := [SyncUsers, SyncGroups, SyncOUs, SyncUserGroupRels, SyncOURels, Cleanup]

  /** Runs `stages` in order until one raises: the raising stage, if any, and
      the calls made, the raising one included. */
  function Attempt(stages: seq<Stage>, tag: Value, failing: set<Stage>): (Option<Stage>, seq<StageCall>)
  {
    if stages == [] then (None, [])
    else if stages[0] in failing then (Some(stages[0]), [StageCall(stages[0], tag)])
    else (Attempt(stages[1..], tag, failing).0, [StageCall(stages[0], tag)] + Attempt(stages[1..], tag, failing).1)
  }

  /** The calls follow `stages` from its start, all with the same tag; the run
      stops at the first stage that raises, and only when one does. */
  lemma {:induction false} AttemptAt(stages: seq<Stage>, tag: Value, failing: set<Stage>)
    ensures var (raised, calls) := Attempt(stages, tag, failing);
      && |calls| <= |stages|
      && (forall k :: 0 <= k < |calls| ==> calls[k] == StageCall(stages[k], tag))
      && (raised.None? <==> forall k :: 0 <= k < |stages| ==> stages[k] !in failing)
      && (raised.None? ==> |calls| == |stages|)
      && (raised.Some? ==>
            && 0 < |calls|
            && raised.value == stages[|calls| - 1]
            && stages[|calls| - 1] in failing
            && forall k :: 0 <= k < |calls| - 1 ==> stages[k] !in failing)
  {
    if stages != [] && stages[0] !in failing {
      AttemptAt(stages[1..], tag, failing);
      var rest := Attempt(stages[1..], tag, failing);
      var calls := Attempt(stages, tag, failing).1;
      assert calls == [StageCall(stages[0], tag)] + rest.1;
      forall k | 0 < k < |calls| ensures calls[k] == StageCall(stages[k], tag) {
        assert calls[k] == rest.1[k - 1] && stages[1..][k - 1] == stages[k];
      }
      assert forall k :: 0 < k < |stages| ==> stages[1..][k - 1] == stages[k];
    }
  }

  /** The body of the `try`: each stage in turn, the first one that raises
      ending the block. */
  method RunStages(tag: Value, failing: set<Stage>) returns (raised: Option<Stage>, calls: seq<StageCall>)
    ensures raised == Attempt(Order, tag, failing).0
    ensures calls == Attempt(Order, tag, failing).1
  {
    // `Attempt` along the suffixes of `Order`.
    assert Order[1..] == [SyncGroups, SyncOUs, SyncUserGroupRels, SyncOURels, Cleanup];
    ghost var after1 := Attempt(Order[1..], tag, failing);
    ghost var after2 := Attempt(Order[2..], tag, failing);
    ghost var after3 := Attempt(Order[3..], tag, failing);
    ghost var after4 := Attempt(Order[4..], tag, failing);
    ghost var after5 := Attempt(Order[5..], tag, failing);
    assert Order[2..] == [SyncOUs, SyncUserGroupRels, SyncOURels, Cleanup] == Order[1..][1..];
    assert Order[3..] == [SyncUserGroupRels, SyncOURels, Cleanup] == Order[2..][1..];
    assert Order[4..] == [SyncOURels, Cleanup] == Order[3..][1..];
    assert Order[5..] == [Cleanup] == Order[4..][1..];
    ghost var after6 := Attempt(Order[6..], tag, failing);
    assert Order[6..] == [] == Order[5..][1..];
    calls := [StageCall(SyncUsers, tag)];
    if SyncUsers in failing { return Some(SyncUsers), calls; }
    calls := calls + [StageCall(SyncGroups, tag)];
    if SyncGroups in failing { return Some(SyncGroups), calls; }
    calls := calls + [StageCall(SyncOUs, tag)];
    if SyncOUs in failing { return Some(SyncOUs), calls; }
    calls := calls + [StageCall(SyncUserGroupRels, tag)];
    if SyncUserGroupRels in failing { return Some(SyncUserGroupRels), calls; }
    calls := calls + [StageCall(SyncOURels, tag)];
    if SyncOURels in failing { return Some(SyncOURels), calls; }
    calls := calls + [StageCall(Cleanup, tag)];
    if Cleanup in failing { return Some(Cleanup), calls; }
    raised := None;
  }

  /** The credential gate: all three values truthy. */
  predicate Configured(config: Record, tenantKey: string, clientKey: string, secretKey: string)
  {
    Truthy(Get(config, tenantKey)) && Truthy(Get(config, clientKey)) && Truthy(Get(config, secretKey))
  }

  /** A whole run: the gate, the tag read with `.get`, the stages. */
  function Ingest(configured: bool, parameters: Record, failing: set<Stage>): (RunOutcome, seq<StageCall>)
  {
    if !configured then (NotConfigured, [])
    else
      var (raised, calls) := Attempt(Order, Get(parameters, "UPDATE_TAG"), failing);
      (if raised.Some? then Raised(raised.value) else Completed, calls)
  }

  /** A run turned away at the gate calls no stage; a configured run calls
      the stages in order, each with `UPDATE_TAG` from the job parameters. */
  lemma IngestCalls(configured: bool, parameters: Record, failing: set<Stage>)
    ensures var (outcome, calls) := Ingest(configured, parameters, failing);
      && (outcome == NotConfigured <==> !configured)
      && (!configured ==> calls == [])
      && |calls| <= |Order|
      && forall k :: 0 <= k < |calls| ==> calls[k] == StageCall(Order[k], Get(parameters, "UPDATE_TAG"))
  {
    AttemptAt(Order, Get(parameters, "UPDATE_TAG"), failing);
  }

  /** A configured run completes exactly when no stage raises; otherwise it
      re-raises the first raising stage in order, after which nothing runs. */
  lemma IngestOutcome(configured: bool, parameters: Record, failing: set<Stage>)
    requires configured
    ensures var (outcome, calls) := Ingest(configured, parameters, failing);
      && (outcome == Completed <==> forall s :: s in Order ==> s !in failing)
      && (outcome == Completed ==> |calls| == |Order|)
      && (outcome.Raised? ==>
            && outcome.stage in failing
            && 0 < |calls| && calls[|calls| - 1].stage == outcome.stage
            && forall k :: 0 <= k < |calls| - 1 ==> calls[k].stage !in failing)
  {
    var tag := Get(parameters, "UPDATE_TAG");
    AttemptAt(Order, tag, failing);
    assert forall s :: s in Order <==> exists k :: 0 <= k < |Order| && Order[k] == s;
  }

  /** Cleanup is called only once every sync stage has returned normally. */
  lemma CleanupOnlyAfterSyncs(configured: bool, parameters: Record, failing: set<Stage>)
    ensures var calls := Ingest(configured, parameters, failing).1;
      (exists k :: 0 <= k < |calls| && calls[k].stage == Cleanup) ==>
        forall s :: s in Order && s != Cleanup ==> s !in failing
  {
    var tag := Get(parameters, "UPDATE_TAG");
    AttemptAt(Order, tag, failing);
    var calls := Ingest(configured, parameters, failing).1;
    if exists k :: 0 <= k < |calls| && calls[k].stage == Cleanup {
      var k :| 0 <= k < |calls| && calls[k].stage == Cleanup;
      assert Order[k] == Cleanup;
      assert k == 5;
      forall s | s in Order && s != Cleanup ensures s !in failing {
        var m :| 0 <= m < |Order| && Order[m] == s;
        assert m < 5;
      }
    }
  }

  /** Every node sync is called before any relationship sync. */
  lemma NodeSyncsBeforeRelationshipSyncs(configured: bool, parameters: Record, failing: set<Stage>)
    ensures var calls := Ingest(configured, parameters, failing).1;
      forall a, b ::
        (0 <= a < |calls| && 0 <= b < |calls| &&
         calls[a].stage in {SyncUsers, SyncGroups, SyncOUs} &&
         calls[b].stage in {SyncUserGroupRels, SyncOURels}) ==> a < b
  {
    AttemptAt(Order, Get(parameters, "UPDATE_TAG"), failing);
  }
}

/** intel/o365/__init__.py */
module O365Ingestion {
  import opened Records
  import opened Ingestion

  const TenantKey: string := "o365_tenant_id"
  const ClientKey: string := "o365_client_id"
  const SecretKey: string := "o365_client_secret"

  /** `start_o365_ingestion`: returns without calling anything when a
      credential is missing or empty; otherwise runs the stages with the tag
      `UPDATE_TAG` and re-raises the first exception. */
  method StartO365Ingestion(config: Record, parameters: Record, failing: set<Stage>)
    returns (outcome: RunOutcome, calls: seq<StageCall>)
    ensures (outcome, calls) == Ingest(Configured(config, TenantKey, ClientKey, SecretKey), parameters, failing)
    ensures outcome == NotConfigured <==>
      !Truthy(Get(config, "o365_tenant_id")) || !Truthy(Get(config, "o365_client_id")) ||
      !Truthy(Get(config, "o365_client_secret"))
  {
    var tenantId := Get(config, TenantKey);
    var clientId := Get(config, ClientKey);
    var clientSecret := Get(config, SecretKey);
    if !(Truthy(tenantId) && Truthy(clientId) && Truthy(clientSecret)) {
      return NotConfigured, [];
    }
    var updateTag := Get(parameters, "UPDATE_TAG");
    var raised;
    raised, calls := RunStages(updateTag, failing);
    outcome := if raised.Some? then Raised(raised.value) else Completed;
  }
}

/** intel/msft365/__init__.py */
module Msft365Ingestion {
  import opened Records
  import opened Ingestion

  const TenantKey: string := "Msft365_tenant_id"
  const ClientKey: string := "Msft365_client_id"
  const SecretKey: string := "Msft365_client_secret"

  /** `start_Msft365_ingestion`: the same gate on the `Msft365_` keys and the
      same stages. */
  method StartMsft365Ingestion(config: Record, parameters: Record, failing: set<Stage>)
    returns (outcome: RunOutcome, calls: seq<StageCall>)
    ensures (outcome, calls) == Ingest(Configured(config, TenantKey, ClientKey, SecretKey), parameters, failing)
    ensures outcome == NotConfigured <==>
      !Truthy(Get(config, "Msft365_tenant_id")) || !Truthy(Get(config, "Msft365_client_id")) ||
      !Truthy(Get(config, "Msft365_client_secret"))
  {
    var tenantId := Get(config, TenantKey);
    var clientId := Get(config, ClientKey);
    var clientSecret := Get(config, SecretKey);
    if !(Truthy(tenantId) && Truthy(clientId) && Truthy(clientSecret)) {
      return NotConfigured, [];
    }
    var updateTag := Get(parameters, "UPDATE_TAG");
    var raised;
    raised, calls := RunStages(updateTag, failing);
    outcome := if raised.Some? then Raised(raised.value) else Completed;
  }

  /** The positional arguments each call in `start_Msft365_ingestion` passes. */
  function ArgsPassed(s: Stage): nat
  {
    match s
    case SyncUsers => 6
    case SyncGroups => 6
    case SyncOUs => 6
    case SyncUserGroupRels => 5
    case SyncOURels => 4
    case Cleanup => 3
  }

  /** The positional parameters of the function each call reaches in
      intel/msft365/msft365.py. */
  function ArgsAccepted(s: Stage): nat
  {
    match s
    case SyncUsers => 4
    case SyncGroups => 4
    case SyncOUs => 4
    case SyncUserGroupRels => 5
    case SyncOURels => 5
    case Cleanup => 2
  }

  /** The stages whose call raises TypeError before the function body runs:
      it passes a different number of positional arguments than the function
      takes. */
  function ArityFailures(passed: Stage -> nat): set<Stage>
  {
    set s | s in Order && passed(s) != ArgsAccepted(s)
  }

  /** As written, every stage call but the user-group one has the wrong
      number of arguments, the first stage among them. */
  lemma ArityFailuresAsWritten()
    ensures ArityFailures(ArgsPassed) == {SyncUsers, SyncGroups, SyncOUs, SyncOURels, Cleanup}
  {
    forall s ensures s in ArityFailures(ArgsPassed) <==> s in {SyncUsers, SyncGroups, SyncOUs, SyncOURels, Cleanup} {
      match s
      case SyncUsers => assert Order[0] == s;
      case SyncGroups => assert Order[1] == s;
      case SyncOUs => assert Order[2] == s;
      case SyncUserGroupRels =>
      case SyncOURels => assert Order[4] == s;
      case Cleanup => assert Order[5] == s;
    }
  }

  /** As written, a configured run raises at its first stage, after exactly one
      call, whatever else would fail: it never completes and never reaches the
      cleanup. */
  lemma RunAsWrittenRaises(config: Record, parameters: Record, failing: set<Stage>)
    requires Configured(config, TenantKey, ClientKey, SecretKey)
    ensures Ingest(true, parameters, failing + ArityFailures(ArgsPassed)).0 == Raised(SyncUsers)
    ensures Ingest(true, parameters, failing + ArityFailures(ArgsPassed)).1 ==
      [StageCall(SyncUsers, Get(parameters, "UPDATE_TAG"))]
  {
    ArityFailuresAsWritten();
  }

  /** Each call passing the arguments its function takes, as intended:
      `(neo4j_session, access_token, update_tag, common_job_parameters)` for a
      node sync and the cleanup taking `(neo4j_session, common_job_parameters)`. */
  function ArgsPassedCorrected(s: Stage): nat
  {
    match s
    case SyncUsers => 4
    case SyncGroups => 4
    case SyncOUs => 4
    case SyncUserGroupRels => 5
    case SyncOURels => 5
    case Cleanup => 2
  }

  /** With the corrected calls no stage fails for its arguments: a configured
      run in which no stage raises otherwise calls all six stages in order
      and completes. */
  lemma RunCorrectedCompletes(parameters: Record)
    ensures ArityFailures(ArgsPassedCorrected) == {}
    ensures Ingest(true, parameters, ArityFailures(ArgsPassedCorrected)).0 == Completed
    ensures |Ingest(true, parameters, ArityFailures(ArgsPassedCorrected)).1| == |Order|
  {
    assert forall s :: ArgsPassedCorrected(s) == ArgsAccepted(s);
    IngestOutcome(true, parameters, {});
  }
}
