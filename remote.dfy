/**
 * The carrier API as an oracle: every call is recorded in order, and its
 * reply is whatever the oracle gives for that position in the call log.
 */
module Remote {
  import opened Responses

  /**
   * The remote calls whose arguments and replies the model follows. The
   * catalog reads (service types, package categories, required fields,
   * packages, service information) are not among them: their decoded
   * payloads are inputs of the commands that read them.
   */
  datatype Call =
    | GetVerificationCode(phoneNum: string, deviceId: string)
    | VerifyPhoneNum(otp: string, phoneNum: string, deviceId: string)
    | Signup(phoneNum: string, deviceId: string)
    | GetToken(clientId: string, clientSecret: string, phoneNum: string, deviceId: string)
    | ValidateToken(token: string)
    | RefreshOldToken(refreshToken: string, clientId: string, clientSecret: string)
    | DeleteAccount(token: string)
    | AddService(serviceTypeId: string, name: string, credentials: map<string, string>, token: string)
    | DeleteService(serviceId: string, token: string)
    | UpdateFriendlyName(newName: string, serviceId: string, token: string)
    | SubscribeToPackage(packageId: string, credentials: map<string, string>, serviceId: string, token: string)
    | RechargeVoucher(voucher: string, credentials: map<string, string>, serviceId: string, token: string)
    | GetAutoRechargeStatus(serviceId: string, token: string)
    | ToggleAutoRechargeStatus(serviceId: string, token: string)

  class MyLtt {
    /** The reply to the call made at a given position of the log. */
    const reply: (nat, Call) -> Response
    var calls: seq<Call>

    constructor (reply: (nat, Call) -> Response)
      ensures this.reply == reply && calls == []
    {
      this.reply := reply;
      calls := [];
    }

    method Send(c: Call) returns (resp: Response)
      modifies this
      ensures calls == old(calls) + [c]
      ensures resp == reply(|old(calls)|, c)
    {
      resp := reply(|calls|, c);
      calls := calls + [c];
    }
  }
}
