/** The sign-in screen: the local phone-and-password path, whose only
    effect after validation is a `loading` flag lowered by a timer and a
    success alert, and the federated sign-in chain, in which any failing
    step ends the chain with one generic error. */
module Login {
  import opened Runtime
  import SignUp

  // ---------------------------------------------------------------------
  // handleLogin

  /** The two checks of handleLogin, in order. */
  datatype Check = PhoneCheck | PasswordCheck

  function Message(c: Check): string {
    match c
    case PhoneCheck => "Enter valid 10-digit phone number"
    case PasswordCheck => "Password must be at least 6 characters"
  }

  /** The check chain: the phone is rejected when it is empty or not ten
      characters long, then the password when it is empty or shorter than
      six. The emptiness tests add nothing to the length tests. */
  function Validate(phone: string, password: string): (r: Option<Check>)
    ensures r == Some(PhoneCheck) <==> |phone| != 10
    ensures r == Some(PasswordCheck) <==> |phone| == 10 && |password| < 6
    ensures r.None? <==> |phone| == 10 && |password| >= 6
  {
    if phone == "" || |phone| != 10 then Some(PhoneCheck)
    else if password == "" || |password| < 6 then Some(PasswordCheck)
    else None
  }

  /** The login screen accepts a phone and password exactly when the
      sign-up screen's phone and password checks would. */
  lemma SameRulesAsSignUp(f: SignUp.Fields)
    ensures Validate(f.phone, f.password).None?
        <==> !SignUp.Fails(SignUp.PhoneLength, f) && !SignUp.Fails(SignUp.PasswordLength, f)
    ensures f.name != "" && f.email != "" && SignUp.ValidateEmail(f.email) ==>
        (Validate(f.phone, f.password).None? <==> SignUp.Validate(f).None?)
  {
  }

  const LoginSuccess := Alert("Success", "Login successful!", None)

  /** The state hooks of the sign-in screen. `pendingTimers` counts the
      one-second timers handleLogin has scheduled that have not fired. */
  class LoginForm {
    var phone: string
    var password: string
    var loading: bool
    ghost var pendingTimers: nat

    constructor ()
      ensures phone == "" && password == "" && !loading && pendingTimers == 0
    {
      phone, password, loading := "", "", false;
      pendingTimers := 0;
    }

    /** handleLogin: a failing check shows its message and changes nothing;
        otherwise `loading` is raised and a timer is scheduled. */
    method HandleLogin() returns (alert: Option<Alert>)
      modifies this
      ensures Validate(old(phone), old(password)).Some? ==>
        alert == Some(ErrorAlert(Message(Validate(old(phone), old(password)).value))) && unchanged(this)
      ensures Validate(old(phone), old(password)).None? ==>
        && alert.None? && loading
        && phone == old(phone) && password == old(password)
        && pendingTimers == old(pendingTimers) + 1
    {
      var check := Validate(phone, password);
      if check.Some? {
        return Some(ErrorAlert(Message(check.value)));
      }
      loading := true;
      pendingTimers := pendingTimers + 1;
      return None;
    }

    /** The timer's callback: `loading` is lowered and the login always
        reports success; nothing is verified remotely. */
    method TimerFired() returns (alert: Alert)
      requires pendingTimers > 0
      modifies this
      ensures alert == LoginSuccess
      ensures !loading && pendingTimers == old(pendingTimers) - 1
      ensures phone == old(phone) && password == old(password)
    {
      loading := false;
      pendingTimers := pendingTimers - 1;
      return LoginSuccess;
    }
  }

  // ---------------------------------------------------------------------
  // onGoogleButtonPress

  /** The steps of the federated sign-in, in order: the awaited Play
      services check, the awaited interactive Google sign-in that yields an
      id token, the synchronous building of a Firebase credential from that
      token, and the awaited Firebase sign-in with it. Any of them may
      throw; a cancellation makes the interactive step fail, so it lands in
      the same catch. */
  datatype GoogleStep = PlayServicesCheck | GoogleSignIn | BuildCredential | CredentialSignIn

  const GoogleChain := [PlayServicesCheck, GoogleSignIn, BuildCredential, CredentialSignIn]

  const GoogleSuccess := Alert("Success", "Google Sign-In successful!", None)
  const GoogleFailure := ErrorAlert("Google Sign-In failed")

  /** The steps a straight-line chain runs before it finishes or its
      first throw: every step up to and including the first that fails. */
  function Attempted(chain: seq<GoogleStep>, succeeds: GoogleStep -> bool): (r: seq<GoogleStep>)
    ensures r <= chain
    ensures forall i :: 0 <= i < |r| - 1 ==> succeeds(r[i])
    ensures |r| < |chain| ==> |r| > 0 && !succeeds(r[|r| - 1])
  {
    if chain == [] then []
    else if !succeeds(chain[0]) then [chain[0]]
    else [chain[0]] + Attempted(chain[1..], succeeds)
  }

  /** The chain succeeds when every step succeeds; the first step that
      fails is the last one run, so no later step is attempted. */
  lemma AttemptedAllSucceed(chain: seq<GoogleStep>, succeeds: GoogleStep -> bool)
    ensures (forall s :: s in Attempted(chain, succeeds) ==> succeeds(s))
        <==> (forall s :: s in chain ==> succeeds(s))
    ensures (forall s :: s in chain ==> succeeds(s)) ==> Attempted(chain, succeeds) == chain
  {
  }

  /** onGoogleButtonPress with the outcome of each step given: the steps
      it runs and the alert it shows. Any failing step gives the single
      failure message. */
  method OnGoogleButtonPress(succeeds: GoogleStep -> bool) returns (alert: Alert, ran: seq<GoogleStep>)
    ensures ran == Attempted(GoogleChain, succeeds)
    ensures alert == GoogleSuccess <==> forall s :: s in GoogleChain ==> succeeds(s)
    ensures alert != GoogleSuccess ==> alert == GoogleFailure
  {
    ghost var rest := GoogleChain;
    ran := [PlayServicesCheck];
    if !succeeds(PlayServicesCheck) {
      return GoogleFailure, ran;
    }
    rest := rest[1..];
    ran := ran + [GoogleSignIn];
    if !succeeds(GoogleSignIn) {
      assert Attempted(rest, succeeds) == [GoogleSignIn];
      return GoogleFailure, ran;
    }
    rest := rest[1..];
    ran := ran + [BuildCredential];
    if !succeeds(BuildCredential) {
      assert Attempted(rest, succeeds) == [BuildCredential];
      return GoogleFailure, ran;
    }
    rest := rest[1..];
    ran := ran + [CredentialSignIn];
    assert Attempted(rest, succeeds) == [CredentialSignIn] + Attempted(rest[1..], succeeds);
    if !succeeds(CredentialSignIn) {
      return GoogleFailure, ran;
    }
    return GoogleSuccess, ran;
  }
}
