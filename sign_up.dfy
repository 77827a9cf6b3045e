/** The account-creation screen: the email pattern, the chain of four
    form checks in which the first failure wins, and the submission that
    raises `loading`, posts the form and, on an ok response only, clears
    the form and offers navigation to the directory. */
module SignUp {
  import opened Runtime

  // ---------------------------------------------------------------------
  // The email pattern: anchored at both ends, a run of characters other
  // than whitespace and `@`, an `@`, another such run, a `.`, and a third.

  /** `[^\s@]`: a character allowed inside each of the three segments. */
  predicate SegmentChar(c: char) {
    c != '@' && !IsWhitespace(c)
  }

  /** `[^\s@]+`: a non-empty run of segment characters. */
  predicate Segment(s: string) {
    |s| > 0 && forall i :: 0 <= i < |s| ==> SegmentChar(s[i])
  }

  /** The string a segment, a literal `@`, a segment, a literal `.` and a
      segment make when written one after the other. */
  function Join(local: string, host: string, tld: string): string {
    local + "@" + host + "." + tld
  }

  /** What it means for the whole string to match the pattern: it is the
      join of three segments, with nothing before or after. */
  ghost predicate MatchesEmailPattern(s: string) {
    exists local: string, host: string, tld: string ::
      Segment(local) && Segment(host) && Segment(tld) && s == Join(local, host, tld)
  }

  /** The position of the first `c` in `s`, or `|s|` when there is none. */
  function IndexOf(s: string, c: char): (k: nat)
    ensures k <= |s|
    ensures k < |s| ==> s[k] == c
    ensures forall i :: 0 <= i < k ==> s[i] != c
  {
    if s == [] then 0
    else if s[0] == c then 0
    else 1 + IndexOf(s[1..], c)
  }

  /** The text after the `@`: segment characters only, with a `.` that
      has at least one character on each side. */
  predicate ValidDomain(d: string) {
    (forall i :: 0 <= i < |d| ==> SegmentChar(d[i]))
    && exists k :: 0 < k < |d| - 1 && d[k] == '.'
  }

  /** validateEmail, in one pass: the string up to the first `@` is a
      segment and the rest is a valid domain. Character by character: no
      whitespace, exactly one `@`, something before it, and a `.` after it
      that is neither the first nor the last character of the domain. */
  predicate ValidateEmail(email: string)
    ensures ValidateEmail(email) <==>
      && (forall i :: 0 <= i < |email| ==> !IsWhitespace(email[i]))
      && exists at :: 0 < at < |email| && email[at] == '@'
           && (forall j :: 0 <= j < |email| && email[j] == '@' ==> j == at)
           && exists k :: at + 1 < k < |email| - 1 && email[k] == '.'
  {
    var at := IndexOf(email, '@');
    at < |email| && Segment(email[..at]) && ValidDomain(email[at + 1..])
  }

  /** Every join of three segments passes the one-pass test. */
  lemma JoinPasses(local: string, host: string, tld: string)
    requires Segment(local) && Segment(host) && Segment(tld)
    ensures ValidateEmail(Join(local, host, tld))
  {
    var s := Join(local, host, tld);
    var at := |local|;
    assert s[at] == '@';
    assert forall i :: 0 <= i < at ==> s[i] == local[i];
    assert IndexOf(s, '@') == at;
    assert s[..at] == local;
    var d := s[at + 1..];
    assert d == host + "." + tld;
    assert d[|host|] == '.';
    forall i | 0 <= i < |d| ensures SegmentChar(d[i]) {
      if i < |host| {
        assert d[i] == host[i];
      } else if i > |host| {
        assert d[i] == tld[i - |host| - 1];
      }
    }
  }

  /** Every string that passes the one-pass test is such a join: cut it at
      its `@` and at a `.` inside the domain. */
  lemma PassesIsJoin(s: string)
    requires ValidateEmail(s)
    ensures MatchesEmailPattern(s)
  {
    var at := IndexOf(s, '@');
    var d := s[at + 1..];
    var k :| 0 < k < |d| - 1 && d[k] == '.';
    var local, host, tld := s[..at], d[..k], d[k + 1..];
    assert Segment(host) && Segment(tld);
    assert d == host + "." + tld;
    assert s == local + "@" + d;
    assert s == Join(local, host, tld);
  }

  /** The one-pass test agrees with the regular expression on every string. */
  lemma ValidateEmailMatchesPattern(s: string)
    ensures ValidateEmail(s) <==> MatchesEmailPattern(s)
  {
    if ValidateEmail(s) {
      PassesIsJoin(s);
    }
    if MatchesEmailPattern(s) {
      var local, host, tld :| Segment(local) && Segment(host) && Segment(tld)
                              && s == Join(local, host, tld);
      JoinPasses(local, host, tld);
    }
  }

  /** Examples of the pattern: "a@b.c" and "a.b@c.d.e" match. */
  lemma EmailExamplesMatch()
    ensures MatchesEmailPattern("a@b.c") && MatchesEmailPattern("a.b@c.d.e")
  {
    assert Segment("a") && Segment("b") && Segment("c");
    assert "a@b.c" == Join("a", "b", "c");
    assert Segment("a.b") && Segment("d.e");
    assert "a.b@c.d.e" == Join("a.b", "c", "d.e");
  }

  /** Examples of the pattern: "a@b", "abc" and "a@.c" do not match. */
  lemma EmailExamplesFail()
    ensures !MatchesEmailPattern("a@b") && !MatchesEmailPattern("abc") && !MatchesEmailPattern("a@.c")
  {
  }

  // ---------------------------------------------------------------------
  // The check chain of handleSubmit

  /** The four form fields, in the shape they are posted. */
  datatype Fields = Fields(name: string, phone: string, email: string, password: string)

  const EmptyFields := Fields("", "", "", "")

  /** The checks, in the order handleSubmit makes them. */
  datatype Check = Required | PhoneLength | EmailFormat | PasswordLength

  function Rank(c: Check): nat {
    match c
    case Required => 0
    case PhoneLength => 1
    case EmailFormat => 2
    case PasswordLength => 3
  }

  /** Whether a check, taken on its own, rejects the form. */
  predicate Fails(c: Check, f: Fields) {
    match c
    case Required => f.name == "" || f.phone == "" || f.email == "" || f.password == ""
    case PhoneLength => |f.phone| != 10
    case EmailFormat => !ValidateEmail(f.email)
    case PasswordLength => |f.password| < 6
  }

  function Message(c: Check): string {
    match c
    case Required => "All fields are required"
    case PhoneLength => "Phone must be 10 digits"
    case EmailFormat => "Invalid email format"
    case PasswordLength => "Password must be 6+ characters"
  }

  /** The chain of early returns: None when every check passes, otherwise
      the check whose message is shown. It is the earliest check that
      fails; no check is reported when all pass. */
  function Validate(f: Fields): (r: Option<Check>)
    ensures r.Some? ==> Fails(r.value, f) && forall c :: Rank(c) < Rank(r.value) ==> !Fails(c, f)
    ensures r.None? ==> forall c :: !Fails(c, f)
  {
    if f.name == "" || f.phone == "" || f.email == "" || f.password == "" then Some(Required)
    else if |f.phone| != 10 then Some(PhoneLength)
    else if !ValidateEmail(f.email) then Some(EmailFormat)
    else if |f.password| < 6 then Some(PasswordLength)
    else None
  }

  /** Later checks are not consulted: two forms that agree on every check
      up to the reported one get the same report. */
  lemma LaterChecksNotConsulted(f: Fields, g: Fields)
    requires Validate(f).Some?
    requires forall c :: Rank(c) <= Rank(Validate(f).value) ==> (Fails(c, f) <==> Fails(c, g))
    ensures Validate(g) == Validate(f)
  {
  }

  // ---------------------------------------------------------------------
  // The response to the POST request

  /** How the request ended: `response.ok` true or false, or `fetch` threw. */
  datatype PostOutcome = Ok | NotOk | Threw

  const SuccessAlert := Alert("Success", "Account created!", Some("UserList"))

  /** The alert shown once the request settles. Only an ok response offers
      the navigation to the user list; the two failures differ only in
      their message. */
  function ResponseAlert(outcome: PostOutcome): (a: Alert)
    ensures a.okRoute.Some? <==> outcome == Ok
    ensures a.okRoute.Some? ==> a.okRoute.value == "UserList"
    ensures a.title == "Error" <==> outcome != Ok
    ensures outcome == Ok ==> a == SuccessAlert
    ensures outcome == NotOk ==> a.message == "Failed to create account"
    ensures outcome == Threw ==> a.message == "Network error"
  {
    match outcome
    case Ok => SuccessAlert
    case NotOk => ErrorAlert("Failed to create account")
    case Threw => ErrorAlert("Network error")
  }

  // ---------------------------------------------------------------------
  // The screen's state

  /** The state hooks of the sign-up screen. `inFlight` counts the POST
      requests handleSubmit has started whose response is still awaited. */
  class SignUpForm {
    var name: string
    var phone: string
    var email: string
    var password: string
    var loading: bool
    ghost var inFlight: nat

    /** The form as first shown: four empty fields, not loading. */
    constructor ()
      ensures Contents() == EmptyFields && !loading && inFlight == 0
    {
      name, phone, email, password := "", "", "", "";
      loading := false;
      inFlight := 0;
    }

    function Contents(): Fields
      reads this
    {
      Fields(name, phone, email, password)
    }

    /** handleSubmit up to its await: a failing check shows its message and
        changes nothing; otherwise `loading` is raised and the request body
        is the four fields. */
    method HandleSubmit() returns (alert: Option<Alert>, request: Option<Fields>)
      modifies this
      ensures Validate(old(Contents())).Some? ==>
        && alert == Some(ErrorAlert(Message(Validate(old(Contents())).value)))
        && request.None?
        && unchanged(this)
      ensures Validate(old(Contents())).None? ==>
        && alert.None?
        && request == Some(old(Contents()))
        && loading
        && Contents() == old(Contents())
        && inFlight == old(inFlight) + 1
    {
      var check := Validate(Contents());
      if check.Some? {
        return Some(ErrorAlert(Message(check.value))), None;
      }
      loading := true;
      inFlight := inFlight + 1;
      return None, Some(Contents());
    }

    /** handleSubmit after its await: an ok response clears all four fields;
        either way `loading` is lowered in the finally block. */
    method ResponseArrived(outcome: PostOutcome) returns (alert: Alert)
      requires inFlight > 0
      modifies this
      ensures alert == ResponseAlert(outcome)
      ensures Contents() == if outcome == Ok then EmptyFields else old(Contents())
      ensures !loading && inFlight == old(inFlight) - 1
    {
      alert := ResponseAlert(outcome);
      if outcome == Ok {
        name, phone, email, password := "", "", "", "";
      }
      loading := false;
      inFlight := inFlight - 1;
    }

    /** A whole submission whose request settles with `outcome` before
        anything else happens: once a request was sent, `loading` ends up
        false whatever the outcome, and the fields end up empty exactly
        when the response was ok. */
    method Submit(outcome: PostOutcome) returns (alerts: seq<Alert>, request: Option<Fields>)
      modifies this
      ensures request.None? <==> Validate(old(Contents())).Some?
      ensures request.None? ==>
        alerts == [ErrorAlert(Message(Validate(old(Contents())).value))] && unchanged(this)
      ensures request.Some? ==>
        && request.value == old(Contents())
        && alerts == [ResponseAlert(outcome)]
        && !loading
        && inFlight == old(inFlight)
        && (Contents() == EmptyFields <==> outcome == Ok)
        && (outcome != Ok ==> Contents() == old(Contents()))
    {
      var first;
      first, request := HandleSubmit();
      if request.None? {
        return [first.value], request;
      }
      var last := ResponseArrived(outcome);
      alerts := [last];
    }
  }
}
