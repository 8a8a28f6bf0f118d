/**
  The phone sign-in flow (src/components/Auth/PhoneInputForm.js together with
  the OTP step of src/components/Auth/OTPForm.js). The form holds three string
  fields and a step; the two simulated network delays (3 s for sending the
  code, 2 s for checking it) are timers whose firing is an explicit event.
*/
module Auth {
  import opened Wrappers
  import opened Store
  import opened Validation

  datatype Step = PhoneStep | OtpStep

  /** The one code the simulated server accepts. */
  const AcceptedOtp: string := "123456"
  const UserName: string := "User"

  /** The schema the form's resolver validates with: the phone schema in the phone step, the OTP schema otherwise. */
  function CurrentSchema(step: Step): (s: Schema)
    ensures s == PhoneNumberSchema <==> step == PhoneStep
    ensures s == OtpSchema <==> step.OtpStep?
  {
    if step == PhoneStep then PhoneNumberSchema else OtpSchema
  }

  /** The verdict of `handleVerifyOTP` on a submitted code. */
  predicate OtpAccepted(otp: string): (b: bool)
    ensures b ==> ValidOtp(otp)
  {
    assert forall i :: 0 <= i < |AcceptedOtp| ==> AcceptedOtp[i] in "123456";
    otp == AcceptedOtp
  }

  /** The accepted code passes the OTP schema, so the form can submit it; every accepted code is valid. */
  lemma AcceptedOtpReachable(otp: string)
    ensures ValidOtp(AcceptedOtp)
    ensures OtpAccepted(otp) ==> ValidOtp(otp)
  {
    assert forall i :: 0 <= i < |AcceptedOtp| ==> AcceptedOtp[i] in "123456";
  }

  /** Some code that passes the schema is still refused by the check. */
  lemma ValidOtpMayBeRefused()
    ensures ValidOtp("654321") && !OtpAccepted("654321")
  {
    assert forall i :: 0 <= i < 6 ==> "654321"[i] in "654321";
  }

  /** The patch `handleSuccessfulVerification` applies to the global auth state. */
  function LoginPatch(fullPhoneNumber: string): (p: AuthPatch)
    ensures MergeAuth(AuthState(false, None), p) == AuthState(true, Some(UserInfo(fullPhoneNumber, UserName)))
  {
    AuthPatch(Some(true), Some(Some(UserInfo(fullPhoneNumber, UserName))))
  }

  /** A login replaces whatever auth state there was with the logged-in user. */
  lemma LoginOverridesEverything(s: AuthState, full: string)
    ensures MergeAuth(s, LoginPatch(full)) == AuthState(true, Some(UserInfo(full, UserName)))
  {
  }

  /** The sign-in form: the step, the form fields, and the timers still running. */
  class PhoneSignIn {
    var step: Step
    var phoneNumber: string
    var fullPhoneNumber: string
    var otp: string
    /** Send-code timers started and not yet fired. */
    var pendingSends: nat
    /** The codes of verification timers started and not yet fired. */
    var pendingVerifications: seq<string>

    function Fields(): FormData
      reads this
    {
      FormData(phoneNumber, fullPhoneNumber, otp)
    }

    /** The form starts in the phone step with every field empty. */
    constructor()
      ensures step == PhoneStep && Fields() == FormData("", "", "")
      ensures pendingSends == 0 && pendingVerifications == []
    {
      step := PhoneStep;
      phoneNumber, fullPhoneNumber, otp := "", "", "";
      pendingSends := 0;
      pendingVerifications := [];
    }

    /** Typing in the phone input: the national number and the combined number with its dial code. */
    method EditPhone(national: string, full: string)
      modifies this`phoneNumber, this`fullPhoneNumber
      ensures phoneNumber == national && fullPhoneNumber == full
    {
      phoneNumber, fullPhoneNumber := national, full;
    }

    /** Typing in the OTP input: the code becomes what was typed; nothing else changes. */
    method EditOtp(code: string)
      modifies this`otp
      ensures otp == code
    {
      otp := code;
    }

    /**
      Submitting the phone form: the resolver validates the fields with the
      current schema, and only data it accepts reaches `handleSendOTP`, which
      starts the send timer. The form exists only in the phone step.
    */
    method SubmitPhone() returns (sent: bool)
      requires step == PhoneStep
      modifies this`pendingSends
      ensures sent <==> SchemaIssues(CurrentSchema(step), Fields()) == []
      ensures sent <==> ValidPhoneNumber(phoneNumber)
      ensures pendingSends == old(pendingSends) + (if sent then 1 else 0)
    {
      sent := SchemaIssues(CurrentSchema(step), Fields()) == [];
      if sent {
        pendingSends := pendingSends + 1;
      }
    }

    /** The send timer firing: the form moves to the OTP step. No branch of it fails. */
    method FireSendTimer()
      requires pendingSends > 0
      modifies this`step, this`pendingSends
      ensures step == OtpStep && pendingSends == old(pendingSends) - 1
    {
      step := OtpStep;
      pendingSends := pendingSends - 1;
    }

    /** "Change number": back to the phone step, with every field reset to its default. */
    method ChangeNumber()
      requires step == OtpStep
      modifies this`step, this`phoneNumber, this`fullPhoneNumber, this`otp
      ensures step == PhoneStep && Fields() == FormData("", "", "")
    {
      step := PhoneStep;
      phoneNumber, fullPhoneNumber, otp := "", "", "";
    }

    /**
      Submitting the OTP form: the resolver runs the current schema (the OTP
      schema in this step), and only an accepted code starts the verification
      timer with that code.
    */
    method SubmitOtp() returns (started: bool)
      requires step == OtpStep
      modifies this`pendingVerifications
      ensures started <==> ValidOtp(otp)
      ensures pendingVerifications == old(pendingVerifications) + (if started then [otp] else [])
    {
      started := SchemaIssues(CurrentSchema(step), Fields()) == [];
      if started {
        pendingVerifications := pendingVerifications + [otp];
      }
    }

    /**
      Verification timer `i` firing. The code "123456" calls `onVerify` once,
      which logs in with the combined number the form holds now; any other code
      leaves the auth state alone. Either way the timer's promise resolves, so
      the timer is gone.
    */
    method FireVerifyTimer(store: AppStore, i: nat) returns (verified: bool)
      requires i < |pendingVerifications|
      modifies this`pendingVerifications, store`authState
      ensures verified <==> OtpAccepted(old(pendingVerifications[i]))
      ensures verified ==> store.authState == AuthState(true, Some(UserInfo(fullPhoneNumber, UserName)))
      ensures !verified ==> store.authState == old(store.authState)
      ensures pendingVerifications == old(pendingVerifications[..i] + pendingVerifications[i + 1..])
    {
      verified := OtpAccepted(pendingVerifications[i]);
      if verified {
        HandleSuccessfulVerification(store);
      }
      pendingVerifications := pendingVerifications[..i] + pendingVerifications[i + 1..];
    }

    /** `handleSuccessfulVerification`: the only write this form makes to the global auth state. */
    method HandleSuccessfulVerification(store: AppStore)
      modifies store`authState
      ensures store.authState == MergeAuth(old(store.authState), LoginPatch(fullPhoneNumber))
      ensures store.authState == AuthState(true, Some(UserInfo(fullPhoneNumber, UserName)))
    {
      store.SetAuthState(LoginPatch(fullPhoneNumber));
    }
  }
}
