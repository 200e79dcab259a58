/**
 * The OTP verification page: six one-character input boxes, a countdown
 * that gates resending, and the verify step that joins the boxes into the
 * submitted code and decides where to go next.
 */
module VerifyOtp {
  import opened Wrappers
  import Auth

  /** Number of OTP input boxes. */
  const Slots: nat := 6

  /**
   * JavaScript's `length` of a string: UTF-16 code units, so a character
   * above U+FFFF counts twice.
   */
  function Utf16Length(s: string): (r: nat)
    ensures |s| <= r <= 2 * |s|
    ensures (forall k :: 0 <= k < |s| ==> s[k] as int < 0x1_0000) ==> r == |s|
    ensures r <= 1 <==> s == "" || (|s| == 1 && s[0] as int < 0x1_0000)
  {
    if s == [] then 0
    else (if s[0] as int >= 0x1_0000 then 2 else 1) + Utf16Length(s[1..])
  }

  /** Every box holds at most one code unit, and there are exactly six. */
  ghost predicate WellFormed(otp: seq<string>)
  {
    |otp| == Slots && forall i :: 0 <= i < |otp| ==> Utf16Length(otp[i]) <= 1
  }

  /** `otp.join("")`: the boxes' contents in order, with no separator. */
  function Join(slots: seq<string>): (r: string)
    ensures (forall i :: 0 <= i < |slots| ==> |slots[i]| <= 1) ==> |r| <= |slots|
    ensures (forall i :: 0 <= i < |slots| ==> |slots[i]| == 1) ==>
              |r| == |slots| && forall k :: 0 <= k < |r| ==> r[k] == slots[k][0]
    ensures |slots| == 1 ==> r == slots[0]
  {
    if slots == [] then "" else slots[0] + Join(slots[1..])
  }

  /** Joining splits over concatenation of the boxes. */
  lemma {:induction false} JoinAppend(a: seq<string>, b: seq<string>)
    ensures Join(a + b) == Join(a) + Join(b)
  {
    if a == [] {
      assert a + b == b;
    } else {
      assert (a + b)[1..] == a[1..] + b;
      JoinAppend(a[1..], b);
    }
  }

  /** Boxes 4 2 0 1 9 9 submit the code "420199". */
  lemma JoinExample()
    ensures Join(["4", "2", "0", "1", "9", "9"]) == "420199"
  {
  }

  /**
   * The boxes after typing `value` into box `index`: a value longer than
   * one character is refused whole (not truncated); otherwise only that
   * box changes.
   */
  function UpdateSlot(otp: seq<string>, value: string, index: nat): (r: seq<string>)
    requires index < |otp|
    ensures |r| == |otp|
    ensures Utf16Length(value) > 1 ==> r == otp
    ensures Utf16Length(value) <= 1 ==> r[index] == value
    ensures forall j :: 0 <= j < |otp| && j != index ==> r[j] == otp[j]
    ensures WellFormed(otp) ==> WellFormed(r)
  {
    if Utf16Length(value) > 1 then otp else otp[index := value]
  }

  /**
   * The box that receives focus after typing `value` into box `index`: the
   * next one exactly when one character was typed and this is not the last box.
   */
  function NextFocus(value: string, index: nat): (r: Option<nat>)
    ensures r.Some? <==> Utf16Length(value) == 1 && index < Slots - 1
    ensures r.Some? ==> r.value == index + 1 && r.value < Slots
  {
    if Utf16Length(value) > 1 then None
    else if value != "" && index < 5 then Some(index + 1)
    else None
  }

  /**
   * A character outside the Basic Multilingual Plane is two code units
   * long, so typing it is refused: no box changes and no focus moves.
   */
  lemma AstralCharRefused(otp: seq<string>, index: nat)
    requires index < |otp|
    ensures Utf16Length("\U{1F600}") == 2
    ensures UpdateSlot(otp, "\U{1F600}", index) == otp
    ensures NextFocus("\U{1F600}", index) == None
  {
  }

  /** Where a successful verification leads: `/reset-password?token=…&email=…`. */
  datatype Route = ResetPasswordPage(token: string, email: string)

  /** What the page does when the verification reply arrives. */
  datatype Outcome =
    | Verified(next: Route)        // success toast, then navigate to `next`
    | Rejected(message: string)    // error toast

  const VerifyFailed: string := "Failed to verify OTP"

  /**
   * Success leads to the reset page carrying the URL's token ("" when
   * absent) and email; failure shows the reply's message, or a fixed
   * fallback when it is empty.
   */
  function VerifyOutcome(res: Auth.Response, query: Auth.Query): (r: Outcome)
    ensures r.Verified? <==> res.Success?
    ensures r.Verified? ==>
              r.next.email == Auth.Param(query, "email") &&
              r.next.token == (if "token" in query then query["token"] else "")
    ensures r.Rejected? ==> r.message != ""
    ensures r.Rejected? && res.message != "" ==> r.message == res.message
    ensures r.Rejected? && res.message == "" ==> r.message == VerifyFailed
  {
    match res
    case Success(_) => Verified(ResetPasswordPage(Auth.Param(query, "token"), Auth.Param(query, "email")))
    case Failure(m) => Rejected(if m != "" then m else VerifyFailed)
  }

  class OtpForm {
    var otp: seq<string>
    /** Seconds left before a new code may be requested. */
    var timer: nat
    var canResend: bool

    ghost predicate Valid()
      reads this
    {
      WellFormed(otp) && canResend == (timer == 0)
    }

    /** Mounting: six empty boxes, no countdown, so resending is allowed. */
    constructor ()
      ensures Valid()
      ensures otp == ["", "", "", "", "", ""] && timer == 0 && canResend
    {
      otp := ["", "", "", "", "", ""];
      timer := 0;
      canResend := true;
    }

    /** `handleChange(value, index)` for box `index`; returns the box focused next. */
    method HandleChange(value: string, index: nat) returns (focus: Option<nat>)
      requires Valid() && index < Slots
      modifies this`otp
      ensures Valid()
      ensures otp == UpdateSlot(old(otp), value, index)
      ensures focus == NextFocus(value, index)
    {
      if Utf16Length(value) > 1 {
        return None;
      }
      var newOtp := otp;
      newOtp := newOtp[index := value];
      otp := newOtp;
      if value != "" && index < 5 {
        focus := Some(index + 1);
      } else {
        focus := None;
      }
    }

    /** One second of the countdown: it stops at zero, where resending opens. */
    method Tick()
      requires Valid()
      modifies this`timer, this`canResend
      ensures Valid()
      ensures timer == if old(timer) > 0 then old(timer) - 1 else 0
      ensures canResend <==> timer == 0
    {
      if timer > 0 {
        timer := timer - 1;
      }
      canResend := timer == 0;
    }

    /**
     * `handleVerify()`: sends the joined code with the URL's email ("" when
     * absent, with no guard) and decides the outcome from the reply.
     */
    method HandleVerify(query: Auth.Query, auth: Auth.AuthHook, reply: Auth.Response)
      returns (outcome: Outcome)
      requires Valid()
      modifies auth
      ensures auth.sent == old(auth.sent) + [Auth.VerifyCode(Join(otp), Auth.Param(query, "email"))]
      ensures outcome == VerifyOutcome(reply, query)
      ensures !auth.loading
    {
      var otpCode := Join(otp);
      var email := Auth.Param(query, "email");
      var res := auth.HandleVerifyOtp(otpCode, email, reply);
      outcome := VerifyOutcome(res, query);
    }
  }
}
