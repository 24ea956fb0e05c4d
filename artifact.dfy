/** The provisioning-artifact resource: creating an artifact is asynchronous, so Create polls
    the artifact's status until it is AVAILABLE and only then records the artifact's ID.  The
    service's answers are parameters: the created artifact, the sequence of describe results the
    polling sees, and the describe result the final read sees. */
module ProvisioningArtifact {
  import opened Errors

  const CloudFormationTemplate := "CLOUD_FORMATION_TEMPLATE"
  const StatusAvailable := "AVAILABLE"
  const LoadTemplateFromUrl := "LoadTemplateFromURL"
  const TemplateUrlKey := "TemplateUrl"
  const PollIntervalSeconds := 3
  const DefaultCreateTimeoutSeconds := 15 * 60

  datatype ArtifactProperties = ArtifactProperties(
    description: string,
    name: string,
    artifactType: string,
    info: map<string, string>)

  datatype CreateInput = CreateInput(idempotencyToken: string, productId: string, parameters: ArtifactProperties)

  /** What the service reports about one artifact; the creation time is kept in its printed form. */
  datatype ArtifactDetail = ArtifactDetail(
    id: string,
    name: string,
    description: string,
    artifactType: string,
    createdTime: string,
    active: bool)

  datatype DescribeOutput = DescribeOutput(detail: ArtifactDetail, info: map<string, string>, status: string)

  type DescribeResult = Result<DescribeOutput, Error>

  datatype UpdateInput = UpdateInput(artifactId: string, productId: string, description: Option<string>, active: Option<bool>)

  datatype DeleteInput = DeleteInput(artifactId: string, productId: string)

  // ---------------------------------------------------------------------------------------
  // Waiting for the artifact to become available

  /** What the refresh step hands to the polling helper: the raw result, the state and an error. */
  datatype Refreshed = Refreshed(result: Option<DescribeOutput>, state: string, err: Option<Error>)

  /** The refresh closure: a describe error is an error with no result and an empty state;
      otherwise the state is the reported status. */
  function Refresh(d: DescribeResult): (r: Refreshed)
    ensures r.err.Some? <==> d.Failure?
    ensures d.Failure? ==> r.result.None? && r.state == "" && r.err == Some(d.error)
    ensures d.Success? ==> r.result == Some(d.value) && r.state == d.value.status
  {
    match d
    case Failure(e) => Refreshed(None, "", Some(e))
    case Success(out) => Refreshed(Some(out), out.status, None)
  }

  /** The polling helper's state: still waiting, reached the target, or stopped by an error. */
  datatype WaitState = Pending | Reached(output: DescribeOutput) | Stopped(err: Error)

  /** One observation.  The target set is {AVAILABLE} and no pending set is given, so every other
      status keeps the wait going; the two terminal states never change again. */
  function Step(s: WaitState, r: Refreshed): (next: WaitState)
    ensures !s.Pending? ==> next == s
    ensures s.Pending? && r.err.Some? ==> next == Stopped(r.err.value)
    ensures s.Pending? && next.Reached? ==> r.state == StatusAvailable && r.result == Some(next.output)
  {
    if !s.Pending? then s
    else if r.err.Some? then Stopped(r.err.value)
    else if r.result.Some? && r.state == StatusAvailable then Reached(r.result.value)
    else Pending
  }

  /** The state after a sequence of describe results. */
  function Run(s: WaitState, observations: seq<DescribeResult>): (r: WaitState)
    ensures r.Pending? <==> s.Pending? && forall j :: 0 <= j < |observations| ==> KeepsWaiting(observations[j])
    ensures r.Reached? ==> r == s || r.output.status == StatusAvailable
    decreases |observations|
  {
    if observations == [] then s else Run(Step(s, Refresh(observations[0])), observations[1..])
  }

  /** The state last reported, "" before any observation. */
  function LastState(observations: seq<DescribeResult>): string {
    if observations == [] then "" else Refresh(observations[|observations| - 1]).state
  }

  datatype WaitResult = Done(output: DescribeOutput) | WaitFailed(err: Error) | TimedOut(lastState: string)

  function Finish(s: WaitState, lastState: string): WaitResult {
    match s
    case Reached(out) => Done(out)
    case Stopped(e) => WaitFailed(e)
    case Pending => TimedOut(lastState)
  }

  /** The outcome of waiting on the observations made before the deadline. */
  function WaitFor(observations: seq<DescribeResult>): (r: WaitResult)
    ensures r.TimedOut? <==> forall j :: 0 <= j < |observations| ==> KeepsWaiting(observations[j])
    ensures r.Done? ==> r.output.status == StatusAvailable
  {
    Finish(Run(Pending, observations), LastState(observations))
  }

  /** An observation that keeps the wait going: a describe that succeeded with another status. */
  predicate KeepsWaiting(d: DescribeResult) {
    d.Success? && d.value.status != StatusAvailable
  }

  lemma {:induction false} TerminalStateStays(s: WaitState, observations: seq<DescribeResult>)
    requires !s.Pending?
    ensures Run(s, observations) == s
    decreases |observations|
  {
    if observations != [] {
      TerminalStateStays(s, observations[1..]);
    }
  }

  lemma {:induction false} RunAppend(s: WaitState, a: seq<DescribeResult>, b: seq<DescribeResult>)
    ensures Run(s, a + b) == Run(Run(s, a), b)
    decreases |a|
  {
    if a != [] {
      assert (a + b)[1..] == a[1..] + b;
      RunAppend(Step(s, Refresh(a[0])), a[1..], b);
    } else {
      assert a + b == b;
    }
  }

  /** The first observation that does not keep the wait going decides it: AVAILABLE ends it with
      that observation, a describe error ends it with that error. */
  lemma {:induction false} FirstDecisiveObservation(observations: seq<DescribeResult>, k: nat)
    requires k < |observations| && !KeepsWaiting(observations[k])
    requires forall j :: 0 <= j < k ==> KeepsWaiting(observations[j])
    ensures WaitFor(observations) ==
      if observations[k].Failure? then WaitFailed(observations[k].error) else Done(observations[k].value)
    decreases k
  {
    AllWaitingStaysPending(observations[..k]);
    RunAppend(Pending, observations[..k], observations[k..]);
    assert observations[..k] + observations[k..] == observations;
    var after := Step(Pending, Refresh(observations[k]));
    assert !after.Pending?;
    assert observations[k..] == [observations[k]] + observations[k + 1..];
    TerminalStateStays(after, observations[k + 1..]);
  }

  /** Observations that all keep the wait going leave it pending. */
  lemma {:induction false} AllWaitingStaysPending(observations: seq<DescribeResult>)
    requires forall j :: 0 <= j < |observations| ==> KeepsWaiting(observations[j])
    ensures Run(Pending, observations) == Pending
    decreases |observations|
  {
    if observations != [] {
      AllWaitingStaysPending(observations[1..]);
    }
  }

  /** When no observation is decisive the wait times out, naming the last state reported. */
  lemma TimesOutWhenNothingDecides(observations: seq<DescribeResult>)
    requires forall j :: 0 <= j < |observations| ==> KeepsWaiting(observations[j])
    ensures WaitFor(observations) == TimedOut(LastState(observations))
    ensures observations != [] ==>
      && observations[|observations| - 1].Success?
      && WaitFor(observations).lastState == observations[|observations| - 1].value.status
  {
    AllWaitingStaysPending(observations);
  }

  /** How many polls fit before the deadline: one at the start and one every interval after it. */
  function MaxPolls(timeoutSeconds: nat): nat {
    (timeoutSeconds + PollIntervalSeconds - 1) / PollIntervalSeconds
  }

  /** The default create timeout of 15 minutes leaves room for 300 polls. */
  lemma DefaultPolls()
    ensures MaxPolls(DefaultCreateTimeoutSeconds) == 300
  {
  }

  /** The describe results the polling sees before a deadline of `timeoutSeconds`. */
  function Observed(polls: seq<DescribeResult>, timeoutSeconds: nat): seq<DescribeResult> {
    polls[..if MaxPolls(timeoutSeconds) < |polls| then MaxPolls(timeoutSeconds) else |polls|]
  }

  /** Two pending answers followed by AVAILABLE: the wait succeeds with the third answer exactly
      when the timeout leaves room for a third poll, i.e. exceeds two intervals; otherwise it times
      out reporting the pending status. */
  lemma ThirdPollConverges(p1: DescribeOutput, p2: DescribeOutput, a: DescribeOutput, timeoutSeconds: nat)
    requires p1.status != StatusAvailable && p2.status != StatusAvailable && a.status == StatusAvailable
    ensures timeoutSeconds > 2 * PollIntervalSeconds ==>
      WaitFor(Observed([Success(p1), Success(p2), Success(a)], timeoutSeconds)) == Done(a)
    ensures 0 < timeoutSeconds <= 2 * PollIntervalSeconds ==>
      WaitFor(Observed([Success(p1), Success(p2), Success(a)], timeoutSeconds)).TimedOut?
  {
    var polls: seq<DescribeResult> := [Success(p1), Success(p2), Success(a)];
    var seen := Observed(polls, timeoutSeconds);
    if timeoutSeconds > 2 * PollIntervalSeconds {
      assert seen == polls;
      FirstDecisiveObservation(polls, 2);
    } else if timeoutSeconds > 0 {
      assert |seen| <= 2;
      TimesOutWhenNothingDecides(seen);
    }
  }

  /** The polling helper: consumes at most `budget` describe results, stopping at the first
      decisive one. */
  method WaitForState(polls: seq<DescribeResult>, budget: nat) returns (r: WaitResult)
    ensures r == WaitFor(polls[..if budget < |polls| then budget else |polls|])
  {
    var n := if budget < |polls| then budget else |polls|;
    var seen := polls[..n];
    var state := Pending;
    var last := "";
    var i := 0;
    while i < n && state.Pending?
      invariant 0 <= i <= n
      invariant Run(Pending, seen) == Run(state, seen[i..])
      invariant state.Pending? ==> last == LastState(seen[..i])
    {
      var refreshed := Refresh(seen[i]);
      assert seen[i..] == [seen[i]] + seen[i + 1..];
      state := Step(state, refreshed);
      last := refreshed.state;
      i := i + 1;
      assert seen[..i][i - 1] == seen[i - 1];
    }
    if !state.Pending? {
      TerminalStateStays(state, seen[i..]);
    } else {
      assert seen[..i] == seen;
    }
    r := Finish(state, last);
  }

  /** The error Create reports when the wait does not end at AVAILABLE. */
  function WaitError(w: WaitResult): Error
    requires !w.Done?
  {
    match w
    case WaitFailed(e) => e
    case TimedOut(last) => WaitTimeout(last, StatusAvailable)
  }

  // ---------------------------------------------------------------------------------------
  // The resource record and its handlers

  /** A snapshot of the resource record. */
  datatype ArtifactRecord = ArtifactRecord(
    id: string,
    description: string,
    name: string,
    productId: string,
    artifactType: string,
    templateUrl: string,
    createdTime: string,
    active: bool,
    status: string)

  /** What Read does to the record, and what it reports: a not-found answer forgets the artifact,
      any other error is reported with the ID and changes nothing, and a description overwrites the
      seven described fields. */
  function ReadOutcome(before: ArtifactRecord, resp: DescribeResult): (r: (ArtifactRecord, Option<Error>))
    ensures r.0.productId == before.productId
    ensures r.0.id == before.id || (resp.Failure? && IsAwsErr(resp.error, ResourceNotFoundException) && r.0.id == "")
    ensures r.1.None? <==> resp.Success? || IsAwsErr(resp.error, ResourceNotFoundException)
    ensures r.1.Some? ==> r.0 == before
    ensures resp.Failure? && IsAwsErr(resp.error, ResourceNotFoundException) ==> r == (before.(id := ""), None)
    ensures resp.Failure? && !IsAwsErr(resp.error, ResourceNotFoundException) ==>
      r.1 == Some(Message("reading ServiceCatalog provisioned product '" + before.id + "' failed: " + ErrorText(resp.error)))
    ensures resp.Success? ==>
      && r.0.id == before.id
      && r.0.description == resp.value.detail.description
      && r.0.name == resp.value.detail.name
      && r.0.artifactType == resp.value.detail.artifactType
      && r.0.templateUrl == (if TemplateUrlKey in resp.value.info then resp.value.info[TemplateUrlKey] else "")
      && r.0.createdTime == resp.value.detail.createdTime
      && r.0.active == resp.value.detail.active
      && r.0.status == resp.value.status
  {
    match resp
    case Failure(e) =>
      if IsAwsErr(e, ResourceNotFoundException) then (before.(id := ""), None)
      else (before, Some(Message("reading ServiceCatalog provisioned product '" + before.id + "' failed: " + ErrorText(e))))
    case Success(out) =>
      (before.(description := out.detail.description,
               name := out.detail.name,
               artifactType := out.detail.artifactType,
               templateUrl := if TemplateUrlKey in out.info then out.info[TemplateUrlKey] else "",
               createdTime := out.detail.createdTime,
               active := out.detail.active,
               status := out.status),
       None)
  }

  /** The type sent for a new artifact: the configured one, or CLOUD_FORMATION_TEMPLATE when it is empty. */
  function TypeOrDefault(configured: string): (t: string)
    ensures t != ""
    ensures configured != "" ==> t == configured
    ensures configured == "" ==> t == CloudFormationTemplate
  {
    if configured != "" then configured else CloudFormationTemplate
  }

  class Artifact {
    var id: string
    var description: string
    var name: string
    var productId: string
    var artifactType: string
    var templateUrl: string
    var createdTime: string
    var active: bool
    var status: string

    constructor (description: string, name: string, productId: string, artifactType: string, templateUrl: string)
      ensures Record() == ArtifactRecord("", description, name, productId, artifactType, templateUrl, "", false, "")
    {
      this.id := "";
      this.description := description;
      this.name := name;
      this.productId := productId;
      this.artifactType := artifactType;
      this.templateUrl := templateUrl;
      this.createdTime := "";
      this.active := false;
      this.status := "";
    }

    function Record(): ArtifactRecord
      reads this
    {
      ArtifactRecord(id, description, name, productId, artifactType, templateUrl, createdTime, active, status)
    }

    /** Read: describes the artifact named by the ID and records what the service reports. */
    method Read(resp: DescribeResult) returns (err: Option<Error>)
      modifies this
      ensures (Record(), err) == ReadOutcome(old(Record()), resp)
    {
      if resp.Failure? {
        if IsAwsErr(resp.error, ResourceNotFoundException) {
          id := "";
          return None;
        }
        return Some(Message("reading ServiceCatalog provisioned product '" + id + "' failed: " + ErrorText(resp.error)));
      }
      var out := resp.value;
      description := out.detail.description;
      name := out.detail.name;
      artifactType := out.detail.artifactType;
      templateUrl := if TemplateUrlKey in out.info then out.info[TemplateUrlKey] else "";
      createdTime := out.detail.createdTime;
      active := out.detail.active;
      status := out.status;
      return None;
    }

    /** Create: sends the artifact's properties (the template URL as the only Info entry), waits
        for the new artifact to become AVAILABLE within the create timeout, and only then records
        its ID and reads it.  A failed or timed-out wait is reported with the record untouched. */
    method Create(token: string, created: ArtifactDetail, timeoutSeconds: nat,
                  polls: seq<DescribeResult>, readBack: DescribeResult)
      returns (input: CreateInput, err: Option<Error>)
      modifies this
      ensures input.idempotencyToken == token && input.productId == old(productId)
      ensures input.parameters.description == old(description) && input.parameters.name == old(name)
      ensures input.parameters.artifactType == TypeOrDefault(old(artifactType))
      ensures input.parameters.info == map[LoadTemplateFromUrl := old(templateUrl)]
      ensures var w := WaitFor(Observed(polls, timeoutSeconds));
        && (!w.Done? ==> err == Some(WaitError(w)) && Record() == old(Record()))
        && (w.Done? ==> (Record(), err) == ReadOutcome(old(Record()).(id := created.id), readBack))
    {
      input := CreateInput(token, "", ArtifactProperties("", "", "", map[]));
      input := input.(productId := productId);
      var properties := ArtifactProperties("", "", "", map[]);
      properties := properties.(description := description);
      properties := properties.(name := name);
      if artifactType != "" {
        properties := properties.(artifactType := artifactType);
      } else {
        properties := properties.(artifactType := CloudFormationTemplate);
      }
      var info: map<string, string> := map[];
      info := info[LoadTemplateFromUrl := templateUrl];
      properties := properties.(info := info);
      input := input.(parameters := properties);

      var artifactId := created.id;
      var w := WaitForState(polls, MaxPolls(timeoutSeconds));
      if !w.Done? {
        return input, Some(WaitError(w));
      }
      id := artifactId;
      err := Read(readBack);
    }

    /** Update: sends a new description only when the description changed, but takes its value
        from the name field; sends the active flag only when it changed.  The answer to the update
        is ignored and the handler always ends with Read. */
    method Update(descriptionChanged: bool, activeChanged: bool, updateAnswer: Option<Error>, readBack: DescribeResult)
      returns (input: UpdateInput, err: Option<Error>)
      modifies this
      ensures input.artifactId == old(id) && input.productId == old(productId)
      ensures input.description == if descriptionChanged then Some(old(name)) else None
      ensures input.active == if activeChanged then Some(old(active)) else None
      ensures (Record(), err) == ReadOutcome(old(Record()), readBack)
    {
      input := UpdateInput(id, productId, None, None);
      if descriptionChanged {
        input := input.(description := Some(name));
      }
      if activeChanged {
        input := input.(active := Some(active));
      }
      err := Read(readBack);
    }

    /** Delete: asks the service to delete the artifact; a refusal is reported with the ID. */
    method Delete(failure: Option<Error>) returns (input: DeleteInput, err: Option<Error>)
      ensures input == DeleteInput(id, productId)
      ensures err.None? <==> failure.None?
      ensures failure.Some? ==>
        err == Some(Message("deleting ServiceCatalog Provisioning Artifact '" + id + "' failed: " + ErrorText(failure.value)))
    {
      input := DeleteInput(id, productId);
      if failure.Some? {
        return input, Some(Message("deleting ServiceCatalog Provisioning Artifact '" + input.artifactId
                                   + "' failed: " + ErrorText(failure.value)));
      }
      err := None;
    }
  }
}
