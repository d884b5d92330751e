/**
 * The GitHub Action that raises a PagerDuty incident when a workflow fails:
 * it assembles an Events API v2 "trigger" event from the action's inputs and
 * the workflow run's context, posts it, and fails the step unless PagerDuty
 * answers 202 Accepted.
 *
 * Everything the action reads from its host (inputs, run context, the clock,
 * the HTTP response) is a parameter here.
 */
module Action {
  import opened Wrappers
  import opened Text

  /**
   * A custom-detail value. Values computed by the action are strings; any
   * other JSON value the caller supplies is kept opaque, as its JSON text.
   */
  datatype Value = Str(s: string) | Json(text: string)

  /** One entry of the push event's `commits` array. */
  datatype Commit = Commit(message: string, url: string)

  /**
   * The workflow run the alert is about. `commits` is `None` when the
   * triggering event carries no `commits` array (any event but a push).
   */
  datatype Context = Context(
    owner: string,
    repo: string,
    workflow: string,
    actor: string,
    runId: nat,
    commits: Option<seq<Commit>>)

  /** The action's inputs once read, with the custom details already decoded. */
  datatype Inputs = Inputs(
    integrationKey: string,
    customDetails: map<string, Value>,
    customSummary: string,
    region: string,
    dedupKey: string,
    environment: string)

  /** The `payload` object of an Events API v2 event. */
  datatype Payload = Payload(
    summary: string,
    timestamp: string,
    source: string,
    severity: string,
    customDetails: map<string, Value>)

  /** An Events API v2 event; `dedupKey` is `None` when the field is not set. */
  datatype Alert = Alert(
    payload: Payload,
    routingKey: string,
    eventAction: string,
    dedupKey: Option<string>)

  /** What PagerDuty answered: the status code and the response data as JSON text. */
  datatype Response = Response(status: nat, body: string)

  /** How the step ends: it logs and succeeds, or it is marked failed with a message. */
  datatype Outcome = Succeeded(log: string) | Failed(message: string)

  const RunDetailsKey := "run_details"
  const RelatedCommitsKey := "related_commits"
  const RegionKey := "region"
  const EnvironmentKey := "environment"
  const NoRelatedCommits := "No related commits"
  const AcceptedStatus := 202

  /** One commit as `message: url`. */
  function CommitEntry(c: Commit): string
  {
    c.message + ": " + c.url
  }

  function CommitEntries(commits: seq<Commit>): seq<string>
  {
    seq(|commits|, i requires 0 <= i < |commits| => CommitEntry(commits[i]))
  }

  /**
   * The `related_commits` detail: the commits joined in order, or the
   * fallback text when there is no commit array at all. An empty array is
   * truthy in JavaScript, so it renders as "".
   */
  function RelatedCommits(commits: Option<seq<Commit>>): (r: string)
    ensures commits.None? ==> r == NoRelatedCommits
    ensures commits == Some([]) ==> r == ""
    ensures commits.Some? && commits.value != [] ==> CommitEntry(commits.value[0]) <= r
  {
    match commits
    case Some(cs) => Join(CommitEntries(cs), ", ")
    case None => NoRelatedCommits
  }

  /** The link to the run's page. */
  function RunDetails(ctx: Context): string
  {
    "https://github.com/" + ctx.owner + "/" + ctx.repo + "/actions/runs/" + DecimalString(ctx.runId)
  }

  /** The generated summary, naming the repository, the workflow and the actor. */
  function DefaultSummary(ctx: Context): string
  {
    ctx.repo + ": Error in \"" + ctx.workflow + "\" run by @" + ctx.actor
  }

  /** The rendered commit list is the fallback text exactly when there is no commit array. */
  lemma FallbackOnlyWhenAbsent(commits: Option<seq<Commit>>)
    ensures RelatedCommits(commits) == NoRelatedCommits <==> commits.None?
  {
    if commits.Some? && commits.value != [] {
      var entries := CommitEntries(commits.value);
      var r := RelatedCommits(commits);
      var m := |commits.value[0].message|;
      assert r[m] == ':';
      assert forall i | 0 <= i < |NoRelatedCommits| :: NoRelatedCommits[i] != ':';
    }
  }

  /**
   * The commits render in input order: the first commit's entry, then the
   * rest after one separator.
   */
  lemma RelatedCommitsInOrder(first: Commit, rest: seq<Commit>)
    ensures RelatedCommits(Some([first] + rest))
         == CommitEntry(first) + (if rest == [] then "" else ", " + RelatedCommits(Some(rest)))
  {
    var entry := CommitEntry(first);
    var entries := CommitEntries([first] + rest);
    assert RelatedCommits(Some([first] + rest)) == Join(entries, ", ");
    if rest == [] {
      assert entries == [entry];
    } else {
      var tail := CommitEntries(rest);
      assert RelatedCommits(Some(rest)) == Join(tail, ", ");
      assert entries == [entry] + tail;
      JoinAppend([entry], tail, ", ");
    }
  }

  /**
   * The event object literal, before any override: computed run details
   * and commit list, then the caller's details spread over them.
   */
  function Initial(inputs: Inputs, ctx: Context, timestamp: string): (alert: Alert)
    ensures alert.payload.summary == DefaultSummary(ctx)
    ensures alert.dedupKey == None
    ensures forall k :: k in alert.payload.customDetails
                    <==> k in inputs.customDetails || k == RunDetailsKey || k == RelatedCommitsKey
    ensures forall k :: k in inputs.customDetails ==> alert.payload.customDetails[k] == inputs.customDetails[k]
    ensures RunDetailsKey !in inputs.customDetails
            ==> alert.payload.customDetails[RunDetailsKey] == Str(RunDetails(ctx))
    ensures RelatedCommitsKey !in inputs.customDetails
            ==> alert.payload.customDetails[RelatedCommitsKey] == Str(RelatedCommits(ctx.commits))
  {
    var computed := map[RunDetailsKey := Str(RunDetails(ctx)),
                        RelatedCommitsKey := Str(RelatedCommits(ctx.commits))];
    Alert(
      Payload(DefaultSummary(ctx), timestamp, "GitHub Actions", "critical", computed + inputs.customDetails),
      inputs.integrationKey,
      "trigger",
      None)
  }

  /** A non-empty region or environment input replaces the caller's value for that key. */
  predicate Overridden(inputs: Inputs, key: string)
  {
    (key == RegionKey && inputs.region != "") || (key == EnvironmentKey && inputs.environment != "")
  }

  /**
   * What the action promises about the event it sends. The summary and the
   * run link are the texts `DefaultSummary` and `RunDetails` give.
   */
  ghost predicate Conforms(alert: Alert, inputs: Inputs, ctx: Context, timestamp: string)
  {
    var p := alert.payload;
    var details := p.customDetails;
    && alert.routingKey == inputs.integrationKey
    && alert.eventAction == "trigger"
    && p.severity == "critical"
    && p.source == "GitHub Actions"
    && p.timestamp == timestamp
    // the summary
    && p.summary == (if inputs.customSummary != "" then inputs.customSummary else DefaultSummary(ctx))
    // the deduplication key
    && (alert.dedupKey.Some? <==> inputs.dedupKey != "")
    && (alert.dedupKey.Some? ==> alert.dedupKey.value == inputs.dedupKey)
    // the custom details
    && DetailsConform(p.customDetails, inputs, ctx)
  }

  /** What the action promises about the event's custom details. */
  ghost predicate DetailsConform(details: map<string, Value>, inputs: Inputs, ctx: Context)
  {
    // which custom details are present
    && (forall k :: k in details
               <==> k in inputs.customDetails || k == RunDetailsKey || k == RelatedCommitsKey || Overridden(inputs, k))
    // the caller's values win over the computed ones
    && (forall k :: k in inputs.customDetails && !Overridden(inputs, k)
               ==> k in details && details[k] == inputs.customDetails[k])
    // region and environment win over the caller's values
    && (inputs.region != "" ==> RegionKey in details && details[RegionKey] == Str(inputs.region))
    && (inputs.environment != "" ==> EnvironmentKey in details && details[EnvironmentKey] == Str(inputs.environment))
    // the computed values where the caller supplies none
    && (RunDetailsKey !in inputs.customDetails
        ==> RunDetailsKey in details && details[RunDetailsKey] == Str(RunDetails(ctx)))
    && (RelatedCommitsKey !in inputs.customDetails
        ==> RelatedCommitsKey in details && details[RelatedCommitsKey] == Str(RelatedCommits(ctx.commits)))
  }

  /**
   * The region and environment assignments, applied after the spread, keep
   * the caller's other keys and the computed defaults and win over both.
   */
  lemma OverridesConform(inputs: Inputs, ctx: Context, timestamp: string, details: map<string, Value>)
    requires var spread := Initial(inputs, ctx, timestamp).payload.customDetails;
             var withRegion := if inputs.region != "" then spread[RegionKey := Str(inputs.region)] else spread;
             details == if inputs.environment != "" then withRegion[EnvironmentKey := Str(inputs.environment)]
                        else withRegion
    ensures DetailsConform(details, inputs, ctx)
  {
    var spread := Initial(inputs, ctx, timestamp).payload.customDetails;
    assert |RegionKey| != |RunDetailsKey| && |RegionKey| != |RelatedCommitsKey| && |RegionKey| != |EnvironmentKey|;
    assert EnvironmentKey[0] != RunDetailsKey[0] && |EnvironmentKey| != |RelatedCommitsKey|;
    forall k
      ensures k in details
          <==> k in inputs.customDetails || k == RunDetailsKey || k == RelatedCommitsKey || Overridden(inputs, k)
    {
      assert k in spread <==> k in inputs.customDetails || k == RunDetailsKey || k == RelatedCommitsKey;
    }
    forall k | k in inputs.customDetails && !Overridden(inputs, k)
      ensures k in details && details[k] == inputs.customDetails[k]
    {
      assert spread[k] == inputs.customDetails[k];
    }
  }

  /** The promise above leaves no freedom: it determines the event completely. */
  lemma ConformsDeterminesAlert(a: Alert, b: Alert, inputs: Inputs, ctx: Context, timestamp: string)
    requires Conforms(a, inputs, ctx, timestamp) && Conforms(b, inputs, ctx, timestamp)
    ensures a == b
  {
    var da, db := a.payload.customDetails, b.payload.customDetails;
    forall k | k in da
      ensures k in db && da[k] == db[k]
    {
      if k == RegionKey && inputs.region != "" {
      } else if k == EnvironmentKey && inputs.environment != "" {
      } else if k in inputs.customDetails {
      } else if k == RunDetailsKey {
      } else {
        assert k == RelatedCommitsKey;
      }
    }
    assert da == db;
  }

  /**
   * Builds the event: the object literal, then the four guarded overrides
   * in the action's order (summary, region, environment, dedup key).
   */
  method Build(inputs: Inputs, ctx: Context, timestamp: string) returns (alert: Alert)
    ensures Conforms(alert, inputs, ctx, timestamp)
  {
    alert := Initial(inputs, ctx, timestamp);
    if inputs.customSummary != "" {
      alert := alert.(payload := alert.payload.(summary := inputs.customSummary));
    }
    if inputs.region != "" {
      var details := alert.payload.customDetails;
      alert := alert.(payload := alert.payload.(customDetails := details[RegionKey := Str(inputs.region)]));
    }
    if inputs.environment != "" {
      var details := alert.payload.customDetails;
      alert := alert.(payload := alert.payload.(customDetails := details[EnvironmentKey := Str(inputs.environment)]));
    }
    if inputs.dedupKey != "" {
      alert := alert.(dedupKey := Some(inputs.dedupKey));
    }
    OverridesConform(inputs, ctx, timestamp, alert.payload.customDetails);
  }

  /**
   * Reads PagerDuty's answer: only 202 Accepted is success. The failure
   * message names the status code and the response data.
   */
  function Classify(response: Response): (outcome: Outcome)
    ensures outcome.Succeeded? <==> response.status == AcceptedStatus
    ensures outcome.Succeeded? ==> Contains(outcome.log, response.body)
    ensures outcome.Failed? ==>
              Contains(outcome.message, DecimalString(response.status)) && Contains(outcome.message, response.body)
  {
    if response.status == AcceptedStatus then
      ContainsInfix("Successfully sent PagerDuty alert. Response: ", response.body, "");
      assert "Successfully sent PagerDuty alert. Response: " + response.body + ""
          == "Successfully sent PagerDuty alert. Response: " + response.body;
      Succeeded("Successfully sent PagerDuty alert. Response: " + response.body)
    else
      var status := DecimalString(response.status);
      var message := "PagerDuty API returned status code " + status + " - " + response.body;
      ContainsInfix("PagerDuty API returned status code ", status, " - " + response.body);
      assert message == "PagerDuty API returned status code " + status + (" - " + response.body);
      ContainsInfix("PagerDuty API returned status code " + status + " - ", response.body, "");
      assert message == "PagerDuty API returned status code " + status + " - " + response.body + "";
      Failed(message)
  }

  /**
   * One run of the action. `decoded` is the inputs as read, or the message
   * of the error decoding the custom details threw; `response` is what
   * PagerDuty answered to the event sent. A decoding error fails the step
   * before anything is sent.
   */
  method Run(decoded: Result<Inputs, string>, ctx: Context, timestamp: string, response: Response)
    returns (sent: Option<Alert>, outcome: Outcome)
    ensures decoded.Failure? ==> sent == None && outcome == Failed(decoded.error)
    ensures decoded.Success? ==> sent.Some? && Conforms(sent.value, decoded.value, ctx, timestamp)
    ensures decoded.Success? ==> (outcome.Succeeded? <==> response.status == AcceptedStatus)
    ensures decoded.Success? && outcome.Failed?
            ==> Contains(outcome.message, DecimalString(response.status)) && Contains(outcome.message, response.body)
  {
    match decoded
    case Failure(error) =>
      sent, outcome := None, Failed(error);
    case Success(inputs) =>
      var alert := Build(inputs, ctx, timestamp);
      sent, outcome := Some(alert), Classify(response);
  }
}

/** Worked examples of the event and of the status check. */
module Scenarios {
  import opened Wrappers
  import opened Text
  import opened Action

  /** Only the integration key is set. */
  const DefaultInputs := Inputs("abc123", map[], "", "", "", "")

  /** Run 42 of workflow "CI" in org/myrepo, started by alice, with no commit array. */
  const PushlessRun := Context("org", "myrepo", "CI", "alice", 42, None)

  /** The default summary of the example run, spelled out. */
  lemma SummaryText()
    ensures DefaultSummary(PushlessRun) == "myrepo: Error in \"CI\" run by @alice"
  {
  }

  /** The run URL of the example run, spelled out. */
  lemma RunUrlText()
    ensures RunDetails(PushlessRun) == "https://github.com/org/myrepo/actions/runs/42"
  {
    assert DecimalString(42) == "42";
  }

  /** Default inputs: the generated summary and no dedup key. */
  lemma DefaultInputsSummary(alert: Alert, timestamp: string)
    requires Conforms(alert, DefaultInputs, PushlessRun, timestamp)
    ensures alert.payload.summary == "myrepo: Error in \"CI\" run by @alice"
    ensures alert.dedupKey == None
  {
    SummaryText();
  }

  /** Default inputs: the run URL is built from the owner, the repository and the run id. */
  lemma DefaultInputsRunDetails(alert: Alert, timestamp: string)
    requires Conforms(alert, DefaultInputs, PushlessRun, timestamp)
    ensures alert.payload.customDetails[RunDetailsKey] == Str("https://github.com/org/myrepo/actions/runs/42")
  {
    RunUrlText();
  }

  /**
   * Default inputs and no commit array: the details hold only the run URL
   * and the fallback commit text.
   */
  lemma DefaultInputsWithoutCommits(alert: Alert, timestamp: string)
    requires Conforms(alert, DefaultInputs, PushlessRun, timestamp)
    ensures alert.payload.customDetails.Keys == {RunDetailsKey, RelatedCommitsKey}
    ensures alert.payload.customDetails[RelatedCommitsKey] == Str("No related commits")
  {
    var inputs := DefaultInputs;
    var details := alert.payload.customDetails;
    forall k
      ensures k in details <==> k == RunDetailsKey || k == RelatedCommitsKey
    {
      assert !Overridden(inputs, k);
    }
  }

  /** An empty commit array is present, so it renders as "" rather than the fallback. */
  lemma DefaultInputsWithEmptyCommitArray(alert: Alert, timestamp: string)
    requires Conforms(alert, DefaultInputs, PushlessRun.(commits := Some([])), timestamp)
    ensures alert.payload.customDetails[RelatedCommitsKey] == Str("")
  {
  }

  /** 202 succeeds; 400 fails with a message naming "400" and the response data. */
  lemma StatusScenarios()
    ensures Classify(Response(202, "{\"status\":\"success\"}")).Succeeded?
    ensures var outcome := Classify(Response(400, "{\"message\":\"Invalid payload\"}"));
            outcome.Failed? && Contains(outcome.message, "400")
            && Contains(outcome.message, "{\"message\":\"Invalid payload\"}")
  {
    assert DecimalString(400) == "400";
  }
}
