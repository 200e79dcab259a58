/**
 * The password-reset request handlers: each sets `loading` and clears
 * `error`, checks its client-side precondition, sends one request to the
 * auth service, and records the reply in `result` or `error`.
 */
module Auth {
  import opened Wrappers

  /** The page's URL query: parameter name to value. */
  type Query = map<string, string>

  /** `urlParams.get(key) || ""`: an absent parameter reads as "". */
  function Param(q: Query, key: string): (r: string)
    ensures key in q ==> r == q[key]
    ensures key !in q ==> r == ""
  {
    if key in q then q[key] else ""
  }

  /** A response body, kept as received; nothing here inspects it. */
  type Json = string

  /** A service reply: `{success: true, data}` or `{success: false, message}`. */
  datatype Response = Success(data: Json) | Failure(message: string)

  /** The requests the auth service sends to the backend. */
  datatype Request =
    | ForgotPassword(email: string)
    | VerifyCode(otp: string, email: string)
    | ResendOtp(token: string)
    | ResetPassword(email: string, newPassword: string)

  const GenericError: string := "Something went wrong"

  /** `res.message || "Something went wrong"`: never an empty error. */
  function ErrorText(message: string): (r: string)
    ensures r != ""
    ensures message != "" ==> r == message
    ensures message == "" ==> r == GenericError
  {
    if message != "" then message else GenericError
  }

  /** The handler's state after a reply (`res`) arrives: only the reply's field changes. */
  function AfterReply(result: Option<Json>, error: Option<string>, res: Response)
    : (r: (Option<Json>, Option<string>))
    ensures res.Success? ==> r.0 == Some(res.data) && r.1 == error
    ensures res.Failure? ==> r.0 == result && r.1.Some? && r.1.value != ""
    ensures res.Failure? && res.message != "" ==> r.1 == Some(res.message)
    ensures res.Failure? && res.message == "" ==> r.1 == Some(GenericError)
  {
    match res
    case Success(data) => (Some(data), error)
    case Failure(message) => (result, Some(ErrorText(message)))
  }

  class AuthHook {
    var loading: bool
    var result: Option<Json>
    var error: Option<string>
    /** Every request handed to the auth service, in order. */
    var sent: seq<Request>
    /** Requests whose replies have not arrived yet. */
    var pending: seq<Request>

    constructor ()
      ensures !loading && result.None? && error.None?
      ensures sent == [] && pending == []
    {
      loading := false;
      result := None;
      error := None;
      sent := [];
      pending := [];
    }

    /** The first two steps of every handler. */
    method Begin()
      modifies this`loading, this`error
      ensures loading && error.None?
    {
      loading := true;
      error := None;
    }

    /** Hand a request to the service and wait for its reply. */
    method Send(req: Request)
      modifies this`sent, this`pending
      ensures sent == old(sent) + [req]
      ensures pending == old(pending) + [req]
    {
      sent := sent + [req];
      pending := pending + [req];
    }

    /** The reply to `pending[i]` arrives: record it, stop loading, hand it back. */
    method Settle(i: nat, reply: Response) returns (res: Response)
      requires i < |pending|
      modifies this`loading, this`result, this`error, this`pending
      ensures res == reply && !loading
      ensures (result, error) == AfterReply(old(result), old(error), reply)
      ensures pending == old(pending[..i] + pending[i + 1..])
    {
      match reply {
        case Success(data) =>
          result := Some(data);
        case Failure(message) =>
          error := Some(ErrorText(message));
      }
      loading := false;
      pending := pending[..i] + pending[i + 1..];
      res := reply;
    }

    /** `handleForgotPassword(email)`, with `reply` the service's answer. */
    method HandleForgotPassword(email: string, reply: Response) returns (res: Response)
      modifies this
      ensures sent == old(sent) + [ForgotPassword(email)] && pending == old(pending)
      ensures res == reply && !loading
      ensures (result, error) == AfterReply(old(result), None, reply)
    {
      Begin();
      Send(ForgotPassword(email));
      assert pending[..|pending| - 1] == old(pending);
      res := Settle(|pending| - 1, reply);
    }

    /** `handleVerifyOtp(otp, email)`: the code and email are sent as given. */
    method HandleVerifyOtp(otp: string, email: string, reply: Response) returns (res: Response)
      modifies this
      ensures sent == old(sent) + [VerifyCode(otp, email)] && pending == old(pending)
      ensures res == reply && !loading
      ensures (result, error) == AfterReply(old(result), None, reply)
    {
      Begin();
      Send(VerifyCode(otp, email));
      assert pending[..|pending| - 1] == old(pending);
      res := Settle(|pending| - 1, reply);
    }

    /**
     * `handleResendOtp()`: without a non-empty `token` in the URL it fails
     * on the client and sends nothing; otherwise it sends the token.
     */
    method HandleResendOtp(query: Query, reply: Response) returns (res: Response)
      modifies this
      ensures !loading && pending == old(pending)
      ensures Param(query, "token") == "" ==>
                sent == old(sent) && result == old(result) &&
                error == Some("Invalid or missing token") &&
                res == Failure("No token found in URL")
      ensures Param(query, "token") != "" ==>
                sent == old(sent) + [ResendOtp(Param(query, "token"))] && res == reply &&
                (result, error) == AfterReply(old(result), None, reply)
    {
      Begin();
      var tokenFromURL := Param(query, "token");
      if tokenFromURL == "" {
        error := Some("Invalid or missing token");
        loading := false;
        return Failure("No token found in URL");
      }
      Send(ResendOtp(tokenFromURL));
      assert pending[..|pending| - 1] == old(pending);
      res := Settle(|pending| - 1, reply);
    }

    /**
     * `handleResetPassword(newPassword)`: without a non-empty `email` in the
     * URL it fails on the client and sends nothing; otherwise it sends
     * exactly that email and the new password.
     */
    method HandleResetPassword(query: Query, newPassword: string, reply: Response)
      returns (res: Response)
      modifies this
      ensures !loading && pending == old(pending)
      ensures Param(query, "email") == "" ==>
                sent == old(sent) && result == old(result) &&
                error == Some("Email not found") &&
                res == Failure("Email not found in URL")
      ensures Param(query, "email") != "" ==>
                sent == old(sent) + [ResetPassword(Param(query, "email"), newPassword)] &&
                res == reply && (result, error) == AfterReply(old(result), None, reply)
    {
      Begin();
      var email := Param(query, "email");
      if email == "" {
        error := Some("Email not found");
        loading := false;
        return Failure("Email not found in URL");
      }
      Send(ResetPassword(email, newPassword));
      assert pending[..|pending| - 1] == old(pending);
      res := Settle(|pending| - 1, reply);
    }
  }
}
