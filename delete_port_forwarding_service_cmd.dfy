/** The `deletePortForwardingService` API command: an asynchronous deletion
    of a port forwarding service (a security group). It attributes itself
    to the group's owner and turns the Boolean outcome into a success
    response. */
module DeletePortForwardingService {

  import opened Wrappers
  import opened ApiCommon
  import Decimal

  /** `getName()`: the key of the response. */
  const Name := "deleteportforwardingserviceresponse"
  /** `getEventType()`: the same for every request. */
  const EventTypeOf := PortForwardingServiceDelete
  /** What the event description says before the service id. */
  const DescriptionPrefix := "deleting port forwarding service: "
  /** The message of the error raised when the deletion returned no result. */
  const FailureMessage := "Failed to delete port forwarding service"

  /** The declared `@Parameter` fields of the command. */
  const Parameters: seq<Parameter> := [
    Parameter("id", LongType, true, "ID of the port forwarding service")
  ]

  /** A bound command: the required id is never null. */
  datatype DeletePortForwardingServiceCmd = DeletePortForwardingServiceCmd(id: Long)

  /** The fields of a `SecurityGroupVO` the command reads. */
  datatype SecurityGroup = SecurityGroup(id: Long, accountId: Long)

  /** A `SuccessResponse`; every field starts unset (`null`). */
  datatype SuccessResponse = SuccessResponse(success: Option<bool>, responseName: Option<string>)

  /** `getAccountId()`: the owner of the port forwarding service when it
      exists (`findPortForwardingServiceById`), otherwise the SYSTEM account. */
  function AccountId(cmd: DeletePortForwardingServiceCmd, services: map<Long, SecurityGroup>): (r: Long)
    ensures cmd.id in services ==> r == services[cmd.id].accountId
    ensures cmd.id !in services ==> r == AccountIdSystem
  {
    if cmd.id in services then services[cmd.id].accountId else AccountIdSystem
  }

  /** `getEventDescription()`: the fixed prefix, then the id as Java prints a
      `Long`. The id can be read back from it. */
  function EventDescription(cmd: DeletePortForwardingServiceCmd): (r: string)
    ensures |r| > |DescriptionPrefix| && r[..|DescriptionPrefix|] == DescriptionPrefix
    ensures Decimal.ParseLong(r[|DescriptionPrefix|..]) == Some(cmd.id as int)
  {
    Decimal.ParseLongToString(cmd.id);
    var r := DescriptionPrefix + Decimal.LongToString(cmd.id);
    assert r[|DescriptionPrefix|..] == Decimal.LongToString(cmd.id);
    r
  }

  /** The description depends on the id only and tells services apart. */
  lemma EventDescriptionIdentifiesService(c1: DeletePortForwardingServiceCmd, c2: DeletePortForwardingServiceCmd)
    ensures EventDescription(c1) == EventDescription(c2) <==> c1.id == c2.id
  {
  }

  /** `getResponse()`: a null outcome is an error; otherwise
      the outcome, true or false, is the response's success flag. */
  method GetResponse(outcome: Option<bool>) returns (r: Result<SuccessResponse, ApiError>)
    ensures r.Failure? <==> outcome.None?
    ensures r.Failure? ==> r.error == ApiError(InternalError, "Failed to delete port forwarding service")
    ensures r.Success? ==> r.value.success == outcome && r.value.responseName == Some(Name)
  {
    var response := SuccessResponse(None, None);
    if outcome.Some? {
      response := response.(success := Some(outcome.value));
    } else {
      return Failure(ApiError(InternalError, FailureMessage));
    }
    response := response.(responseName := Some(Name));
    r := Success(response);
  }

  /** The id is the one parameter, and it is required. */
  lemma RequiredParameters()
    ensures RequiredNames(Parameters) == {"id"}
    ensures NamesUnique(Parameters)
  {
    assert Parameters[0].name in RequiredNames(Parameters);
  }
}
