/**
 * The decisions of the Beanstalk elastigroup resource: the maintenance-mode state machine over
 * (operation, status), the retry classification of a failed create, the not-found handling of read
 * and import, and the gating of the remote update.
 *
 * The vendor SDK's calls are inputs: the status lookup's answer, the start/finish call's error as a
 * function of the call, and each response. One attempt of a retried closure is an `Attempt`;
 * `resource.RetryContext` repeats the retryable ones until its time budget runs out.
 */
module ElastigroupAwsBeanstalk {
  import opened Common
  import opened Terraform
  import Strings

  /** The SDK error code for a missing group, assumed to be the upstream value. */
  const ErrCodeGroupNotFound := "GROUP_DOESNT_EXIST"
  const OpStart := "START"
  const OpEnd := "END"
  const OpStatus := "STATUS"
  const StatusActive := "ACTIVE"
  const StatusAwaitUserUpdate := "AWAIT_USER_UPDATE"
  const EnvironmentId := "beanstalk_environment_id"
  const EnvironmentName := "beanstalk_environment_name"
  const RegionField := "region"

  /** What one run of a retried closure returns: nil, `RetryableError` or `NonRetryableError`. */
  datatype Attempt = Succeeded | Retryable(err: Error) | NonRetryable(err: Error)

  datatype MaintenanceCall = StartMaintenance | FinishMaintenance

  /** One attempt of `toggleMaintenanceMode`: the maintenance call it issued, if any, and its result. */
  datatype MaintenanceStep = MaintenanceStep(call: Option<MaintenanceCall>, result: Attempt)

  const AlreadyInMaintenance := Message("===> Unable to start maintenance, already in maintenance mode")
  const AlreadyActive := Message("===> Unable to end maintenance, your beanstalk elastigroup is already active")

  function CannotStart(status: string): Error {
    Message("===> Unable to start maintenance, group status is: " + status + " <===")
  }

  function CannotEnd(status: string): Error {
    Message("===> Unable to end Maintenance state, group status is: " + status + " <===")
  }

  /** The call's own result: a failed call is not retried. */
  function Issue(call: MaintenanceCall, callResult: MaintenanceCall -> Option<Error>): (r: MaintenanceStep)
    ensures r.call == Some(call)
    ensures r.result == Succeeded <==> callResult(call).None?
    ensures r.result.NonRetryable? <==> callResult(call).Some?
  {
    var e := callResult(call);
    MaintenanceStep(Some(call), if e.Some? then NonRetryable(e.value) else Succeeded)
  }

  /**
   * One attempt of the closure `toggleMaintenanceMode` retries. `status` is the status lookup's answer,
   * `None` when the lookup failed; `callResult` is what the start or finish call would return.
   */
  function MaintenanceAttempt(op: string, status: Option<string>, callResult: MaintenanceCall -> Option<Error>): (r: MaintenanceStep)
    // A failed lookup, STATUS and any unknown operation succeed without a call.
    ensures status.None? || (op != OpStart && op != OpEnd) ==> r == MaintenanceStep(None, Succeeded)
    // START: only an ACTIVE group gets the start call; AWAIT_USER_UPDATE stops, anything else is retried.
    ensures op == OpStart && status.Some? ==>
      (r.call.Some? <==> status.value == StatusActive) &&
      (r.call.Some? ==> r == Issue(StartMaintenance, callResult)) &&
      (status.value == StatusAwaitUserUpdate ==> r == MaintenanceStep(None, NonRetryable(AlreadyInMaintenance))) &&
      (r.result.Retryable? <==> status.value != StatusActive && status.value != StatusAwaitUserUpdate)
    // END: only a group awaiting the user's update gets the finish call; ACTIVE stops, anything else is retried.
    ensures op == OpEnd && status.Some? ==>
      (r.call.Some? <==> status.value == StatusAwaitUserUpdate) &&
      (r.call.Some? ==> r == Issue(FinishMaintenance, callResult)) &&
      (status.value == StatusActive ==> r == MaintenanceStep(None, NonRetryable(AlreadyActive))) &&
      (r.result.Retryable? <==> status.value != StatusActive && status.value != StatusAwaitUserUpdate)
  {
    if status.None? then MaintenanceStep(None, Succeeded)
    else
      var s := status.value;
      if op == OpStart then
        if s == StatusAwaitUserUpdate then MaintenanceStep(None, NonRetryable(AlreadyInMaintenance))
        else if s == StatusActive then Issue(StartMaintenance, callResult)
        else MaintenanceStep(None, Retryable(CannotStart(s)))
      else if op == OpEnd then
        if s == StatusActive then MaintenanceStep(None, NonRetryable(AlreadyActive))
        else if s == StatusAwaitUserUpdate then Issue(FinishMaintenance, callResult)
        else MaintenanceStep(None, Retryable(CannotEnd(s)))
      else MaintenanceStep(None, Succeeded)
  }

  /** A start call is issued only for START, a finish call only for END, and each at most once per attempt. */
  lemma CallsMatchOperation(op: string, status: Option<string>, callResult: MaintenanceCall -> Option<Error>)
    ensures MaintenanceAttempt(op, status, callResult).call == Some(StartMaintenance) ==> op == OpStart && status == Some(StatusActive)
    ensures MaintenanceAttempt(op, status, callResult).call == Some(FinishMaintenance) ==> op == OpEnd && status == Some(StatusAwaitUserUpdate)
  {
  }

  /** A failed status lookup is a success: nothing is retried and no error is reported. */
  lemma FailedLookupSucceeds(op: string, callResult: MaintenanceCall -> Option<Error>)
    ensures ToggleResult(MaintenanceAttempt(op, None, callResult).result).None?
  {
  }

  /** What `toggleMaintenanceMode` returns once the retrying ends on `last`. */
  function ToggleResult(last: Attempt): (r: Option<Error>)
    ensures r.None? <==> last.Succeeded?
    ensures r.Some? ==> r == Some(Wrapped("BEANSTALK:MaintenanceMode failed to resolve Maintenance Mode", last.err))
  {
    if last.Succeeded? then None else Some(Wrapped("BEANSTALK:MaintenanceMode failed to resolve Maintenance Mode", last.err))
  }

  // ---------------------------------------------------------------------------------------------
  // Error classification

  /** The one create error worth another try: an IAM instance profile the cloud has not propagated yet. */
  predicate IsIamProfileError(e: Error) {
    e.Api? && e.code == "InvalidParameterValue" && Strings.Contains(e.message, "Invalid IAM Instance Profile")
  }

  predicate IsGroupNotFound(e: Error) {
    e.Api? && e.code == ErrCodeGroupNotFound
  }

  /** The first element of `list` that satisfies `p`, as the source's early-returning loops find it. */
  function FirstSuch(list: seq<Error>, p: Error -> bool): (r: Option<nat>)
    ensures r.None? <==> forall i :: 0 <= i < |list| ==> !p(list[i])
    ensures r.Some? ==> r.value < |list| && p(list[r.value]) && forall i :: 0 <= i < r.value ==> !p(list[i])
  {
    if list == [] then None
    else if p(list[0]) then Some(0)
    else
      var rest := FirstSuch(list[1..], p);
      if rest.Some? then
        assert forall i :: 1 <= i <= rest.value ==> list[i] == list[1..][i - 1];
        Some(rest.value + 1)
      else None
  }

  /** The element a `client.Errors` answer carries that satisfies `p`, if the answer is one and has such an element. */
  function Matching(err: Error, p: Error -> bool): (r: Option<Error>)
    ensures r.Some? <==> err.Errors? && exists i :: 0 <= i < |err.list| && p(err.list[i])
    ensures r.Some? ==> p(r.value) && r.value in err.list
  {
    if err.Errors? then
      var i := FirstSuch(err.list, p);
      if i.Some? then Some(err.list[i.value]) else None
    else None
  }

  /** One attempt of the closure `createBeanstalkGroup` retries, given the create call's error. */
  function CreateAttempt(err: Option<Error>): (r: Attempt)
    ensures r == Succeeded <==> err.None?
    ensures r.Retryable? <==> (err.Some? && err.value.Errors? &&
      exists i :: 0 <= i < |err.value.list| && IsIamProfileError(err.value.list[i]))
    ensures r.Retryable? ==> IsIamProfileError(r.err) && r.err in err.value.list
    ensures r.NonRetryable? ==> r.err == err.value
  {
    if err.None? then Succeeded
    else
      var iam := Matching(err.value, IsIamProfileError);
      if iam.Some? then Retryable(iam.value) else NonRetryable(err.value)
  }

  /** An IAM error hidden among others still makes the create retry; any single other error does not. */
  lemma IamProfileAmongOthersRetries(before: seq<Error>, message: string, after: seq<Error>)
    requires Strings.Contains(message, "Invalid IAM Instance Profile")
    ensures CreateAttempt(Some(Errors(before + [Api("InvalidParameterValue", message)] + after))).Retryable?
  {
    var list := before + [Api("InvalidParameterValue", message)] + after;
    assert IsIamProfileError(list[|before|]);
  }

  lemma OtherCodeDoesNotRetry(code: string, message: string)
    requires code != "InvalidParameterValue"
    ensures CreateAttempt(Some(Errors([Api(code, message)]))) == NonRetryable(Errors([Api(code, message)]))
  {
  }

  // ---------------------------------------------------------------------------------------------
  // Handlers

  /** The answer of the group read call: an error, or the group (`found` is false for a nil group). */
  datatype ReadResponse = ReadFailed(err: Error) | ReadAnswered(found: bool)

  /**
   * `resourceSpotinstAWSBeanstalkGroupRead`: a not-found error or a nil group clears the id and
   * reports nothing; any other error is reported; a found group goes to the fields' read callbacks,
   * whose error is `onRead`.
   */
  method ReadBeanstalkGroup(rd: ResourceData, response: ReadResponse, onRead: Option<Error>) returns (err: Option<Error>)
    modifies rd`id
    ensures response.ReadFailed? && Matching(response.err, IsGroupNotFound).Some? ==> rd.id == "" && err.None?
    ensures response.ReadFailed? && Matching(response.err, IsGroupNotFound).None? ==>
      rd.id == old(rd.id) && err == Some(Wrapped("BEANSTALK:READ failed to read group:", response.err))
    ensures response == ReadAnswered(false) ==> rd.id == "" && err.None?
    ensures response == ReadAnswered(true) ==> rd.id == old(rd.id) && err == onRead
  {
    if response.ReadFailed? {
      if Matching(response.err, IsGroupNotFound).Some? {
        rd.id := "";
        return None;
      }
      return Some(Wrapped("BEANSTALK:READ failed to read group:", response.err));
    }
    if !response.found {
      rd.id := "";
      return None;
    }
    err := onRead;
  }

  /** The environment to import, by id when one is set and otherwise by name; nil when neither is. */
  datatype ImportInput = ImportInput(environmentId: Option<string>, environmentName: Option<string>, region: string)

  predicate ImportConfigShaped(d: Snapshot) {
    HoldsString(d, EnvironmentId) && HoldsString(d, EnvironmentName) && HoldsString(d, RegionField)
  }

  function ImportInputOf(d: Snapshot): (r: Option<ImportInput>)
    requires ImportConfigShaped(d)
    ensures GetOk(d, EnvironmentId).Some? ==> r == Some(ImportInput(Some(GetString(d, EnvironmentId)), None, GetString(d, RegionField)))
    ensures GetOk(d, EnvironmentId).None? && GetOk(d, EnvironmentName).Some? ==>
      r == Some(ImportInput(None, Some(GetString(d, EnvironmentName)), GetString(d, RegionField)))
    ensures r.None? <==> GetOk(d, EnvironmentId).None? && GetOk(d, EnvironmentName).None?
    ensures r.Some? ==> ((r.value.environmentId.Some? ==> r.value.environmentId.value != "") &&
      (r.value.environmentName.Some? ==> r.value.environmentName.value != ""))
  {
    if GetOk(d, EnvironmentId).Some? then Some(ImportInput(Some(GetString(d, EnvironmentId)), None, GetString(d, RegionField)))
    else if GetOk(d, EnvironmentName).Some? then Some(ImportInput(None, Some(GetString(d, EnvironmentName)), GetString(d, RegionField)))
    else None
  }

  /** Both an id and a name are configured: the id wins and the name is not sent. */
  lemma ImportPrefersEnvironmentId(d: Snapshot)
    requires ImportConfigShaped(d) && GetOk(d, EnvironmentId).Some? && GetOk(d, EnvironmentName).Some?
    ensures ImportInputOf(d).value.environmentName.None?
  {
  }

  /**
   * `importBeanstalkGroup` given the import call's answer (`group`, nil when `None`): a not-found
   * error clears the id and is still returned, as the matching element alone; other errors are
   * reported wrapped.
   */
  method ImportBeanstalkGroup<G>(rd: ResourceData, response: Result<Option<G>, Error>) returns (group: Option<G>, err: Option<Error>)
    modifies rd`id
    ensures response.Ok? ==> group == response.value && err.None? && rd.id == old(rd.id)
    ensures response.Err? ==> group.None?
    ensures response.Err? && Matching(response.error, IsGroupNotFound).Some? ==>
      rd.id == "" && err == Matching(response.error, IsGroupNotFound)
    ensures response.Err? && Matching(response.error, IsGroupNotFound).None? ==>
      rd.id == old(rd.id) && err == Some(Wrapped("BEANSTALK:IMPORT failed to read group:", response.error))
  {
    if response.Err? {
      var notFound := Matching(response.error, IsGroupNotFound);
      if notFound.Some? {
        rd.id := "";
        return None, notFound;
      }
      return None, Some(Wrapped("BEANSTALK:IMPORT failed to read group:", response.error));
    }
    return response.value, None;
  }

  /**
   * What `resourceSpotinstAWSBeanstalkGroupUpdate` does, given its steps' answers: the fields' update
   * (`Ok(changed)` or an error), the maintenance state to toggle to, the toggle's result and the
   * remote update's error.
   */
  datatype UpdateTrace = UpdateTrace(toggled: bool, updated: bool, err: Option<Error>, readBack: bool)

  function UpdateFlow(onUpdate: Result<bool, Error>, maintenance: Result<string, Error>, toggle: Option<Error>, update: Option<Error>): (r: UpdateTrace)
    // Maintenance is toggled whether or not anything changed, once both earlier steps succeed.
    ensures r.toggled <==> onUpdate.Ok? && maintenance.Ok?
    // The remote update is sent only when the fields reported a change and the toggle succeeded.
    ensures r.updated <==> onUpdate == Ok(true) && maintenance.Ok? && toggle.None?
    ensures r.readBack <==> r.err.None?
    ensures r.err.None? <==> onUpdate.Ok? && maintenance.Ok? && toggle.None? && (onUpdate.value ==> update.None?)
  {
    if onUpdate.Err? then UpdateTrace(false, false, Some(onUpdate.error), false)
    else if maintenance.Err? then UpdateTrace(false, false, Some(maintenance.error), false)
    else if toggle.Some? then UpdateTrace(true, false, toggle, false)
    else if onUpdate.value && update.Some? then UpdateTrace(true, true, update, false)
    else UpdateTrace(true, onUpdate.value, None, true)
  }

  /** With nothing changed, the update still toggles maintenance but never reaches the remote update. */
  lemma UnchangedUpdateOnlyToggles(maintenance: string, toggle: Option<Error>, update: Option<Error>)
    ensures UpdateFlow(Ok(false), Ok(maintenance), toggle, update).toggled
    ensures !UpdateFlow(Ok(false), Ok(maintenance), toggle, update).updated
  {
  }
}
