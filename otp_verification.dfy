/** The email-code page (src/pages/OTPVerificationPage.tsx): six one-digit cells, the check
    that the code is complete before anything is sent, the outcomes of verifying and of
    asking for a new code, and the resend countdown. The backend's answers are parameters;
    the interval timer is modelled by its updater, one call per tick. */
module OtpVerification {
  import opened Common

  const CodeLength: int := 6
  const CountdownStart: int := 30

  /** `/^[0-9]*$/`: the value is digits only (the empty value passes). */
  predicate AllDigits(s: string) {
    forall k :: 0 <= k < |s| ==> '0' <= s[k] <= '9'
  }

  /** `value.slice(-1)`: the last character, or the empty string. */
  function LastChar(s: string): (r: string)
    ensures |r| <= 1
    ensures s == "" <==> r == ""
    ensures s != "" ==> r == [s[|s| - 1]]
  {
    if s == "" then "" else s[|s| - 1..]
  }

  /** `otp.join('')`. */
  function Join(cells: seq<string>): string {
    if cells == [] then "" else cells[0] + Join(cells[1..])
  }

  /** Each cell holds at most one digit. */
  predicate CellsWellFormed(cells: seq<string>) {
    forall i :: 0 <= i < |cells| ==> |cells[i]| <= 1 && AllDigits(cells[i])
  }

  /** With cells of at most one character, the joined code is as long as the list of cells
      exactly when no cell is empty. */
  lemma {:induction false} JoinFullIffNoEmptyCell(cells: seq<string>)
    requires forall i :: 0 <= i < |cells| ==> |cells[i]| <= 1
    ensures |Join(cells)| <= |cells|
    ensures |Join(cells)| == |cells| <==> forall i :: 0 <= i < |cells| ==> cells[i] != ""
  {
    if cells != [] {
      JoinFullIffNoEmptyCell(cells[1..]);
      assert forall i :: 1 <= i < |cells| ==> cells[i] == cells[1..][i - 1];
    }
  }

  /** One call of the countdown updater: at 1 or below the timer stops, the count shows 0 and
      resending is allowed; otherwise the count goes down by one. */
  function CountdownStep(prev: int): (r: (int, bool))
    ensures prev <= 1 ==> r == (0, true)
    ensures prev > 1 ==> r == (prev - 1, false)
  {
    if prev <= 1 then (0, true) else (prev - 1, false)
  }

  /** The count and whether the last tick allowed resending, after n ticks from `start`. */
  function AfterTicks(start: int, n: nat): (int, bool)
    decreases n
  {
    if n == 0 then (start, false)
    else
      var (c, _) := AfterTicks(start, n - 1);
      CountdownStep(c)
  }

  /** From a count c of at least 1, the first c - 1 ticks count down without allowing a
      resend, and the c-th tick shows 0 and allows it. */
  lemma {:induction false} CountdownReachesZero(c: int, n: nat)
    requires 1 <= c && n <= c
    ensures n < c ==> AfterTicks(c, n) == (c - n, false)
    ensures n == c ==> AfterTicks(c, n) == (0, true)
    decreases n
  {
    if n > 0 {
      CountdownReachesZero(c, n - 1);
    }
  }

  /** Thirty seconds after the page starts its countdown, a new code may be asked for. */
  lemma ThirtyTicksAllowResend()
    ensures AfterTicks(CountdownStart, 30) == (0, true)
    ensures AfterTicks(CountdownStart, 29).1 == false
  {
    CountdownReachesZero(CountdownStart, 30);
    CountdownReachesZero(CountdownStart, 29);
  }

  /** The navigation state the sign-up page passes. */
  datatype NavState = NavState(email: string, password: string, hasUserData: bool)

  /** Without a state, an email, a password or the user data, the page sends the visitor back
      to /register. */
  predicate MustRedirect(state: Option<NavState>) {
    state.None? || state.value.email == "" || state.value.password == "" || !state.value.hasUserData
  }

  /** What the backend answers to verifying the code and creating the profile. */
  datatype VerifyOutcome =
    | CodeRejected(message: string)
    | ProfileInsertFailed
    | Verified

  /** What the backend answers to asking for a new code. */
  datatype ResendOutcome = ResendFailed(message: string) | ResendSent

  class OtpPage {
    var otp: seq<string>
    var countdown: int
    var canResend: bool
    var error: Option<string>

    predicate Valid()
      reads this
    {
      |otp| == CodeLength && CellsWellFormed(otp)
    }

    /** Six empty cells, no message, and a countdown of 30 with resending not yet allowed. */
    constructor()
      ensures Valid()
      ensures otp == ["", "", "", "", "", ""] && countdown == CountdownStart
      ensures !canResend && error == None
    {
      otp := ["", "", "", "", "", ""];
      countdown := CountdownStart;
      canResend := false;
      error := None;
    }

    /** The code is complete: the joined cells have length 6. */
    predicate CodeComplete()
      reads this
    {
      |Join(otp)| == CodeLength
    }

    /** The Verify button is disabled while the code is incomplete (and while a request runs). */
    predicate VerifyEnabled()
      reads this
    {
      CodeComplete()
    }

    /** The code is complete exactly when no cell is empty. */
    lemma CompleteIffAllCellsFilled()
      requires Valid()
      ensures CodeComplete() <==> forall i :: 0 <= i < |otp| ==> otp[i] != ""
    {
      JoinFullIffNoEmptyCell(otp);
    }

    /** `handleInputChange(index, value)`: a value with a non-digit changes nothing; otherwise
        the cell takes the value's last character and no other cell changes. */
    method InputChange(index: int, value: string)
      requires Valid() && 0 <= index < CodeLength
      modifies this
      ensures Valid()
      ensures !AllDigits(value) ==> otp == old(otp)
      ensures AllDigits(value) ==> otp == old(otp)[index := LastChar(value)]
      ensures forall i :: 0 <= i < CodeLength && i != index ==> otp[i] == old(otp)[i]
      ensures countdown == old(countdown) && canResend == old(canResend) && error == old(error)
    {
      if AllDigits(value) {
        var cell := LastChar(value);
        assert AllDigits(cell);
        otp := otp[index := cell];
      }
    }

    /** `verifyAndCreateAccount`: an incomplete code only sets the message and returns false
        (no request); otherwise the backend's answer decides. A rejected code shows its
        message, or 'Failed to verify code' when it has none; a failed profile insert shows
        'Failed to create user profile'; success clears the message and goes to /login. */
    method Verify(outcome: VerifyOutcome) returns (requested: bool, navigateTo: Option<string>)
      requires Valid()
      modifies this
      ensures Valid() && otp == old(otp)
      ensures requested <==> old(CodeComplete())
      ensures !requested ==> error == Some("Please enter the complete 6-digit code.") && navigateTo == None
      ensures requested && outcome.CodeRejected? ==>
                (navigateTo == None &&
                 error == Some(if outcome.message != "" then outcome.message else "Failed to verify code"))
      ensures requested && outcome.ProfileInsertFailed? ==>
                (navigateTo == None && error == Some("Failed to create user profile"))
      ensures requested && outcome.Verified? ==> navigateTo == Some("/login") && error == None
      ensures navigateTo.Some? ==> requested && outcome.Verified?
      ensures countdown == old(countdown) && canResend == old(canResend)
    {
      if |Join(otp)| != CodeLength {
        error := Some("Please enter the complete 6-digit code.");
        return false, None;
      }
      requested := true;
      error := None;
      match outcome
      case CodeRejected(message) =>
        error := Some(if message != "" then message else "Failed to verify code");
        navigateTo := None;
      case ProfileInsertFailed =>
        error := Some("Failed to create user profile");
        navigateTo := None;
      case Verified =>
        navigateTo := Some("/login");
    }

    /** One tick of the countdown timer. */
    method Tick()
      modifies this
      ensures (countdown, old(canResend) || CountdownStep(old(countdown)).1) ==
              (CountdownStep(old(countdown)).0, canResend)
      ensures old(countdown) <= 1 ==> countdown == 0 && canResend
      ensures old(countdown) > 1 ==> countdown == old(countdown) - 1 && canResend == old(canResend)
      ensures otp == old(otp) && error == old(error)
    {
      var (next, allow) := CountdownStep(countdown);
      countdown := next;
      if allow {
        canResend := true;
      }
    }

    /** `resendOTP`: ignored while resending is not allowed; a sent code restarts the
        countdown and shows 'New verification code sent!'; a failure shows its message, or
        'Failed to resend code'. */
    method Resend(outcome: ResendOutcome) returns (requested: bool)
      modifies this
      ensures requested <==> old(canResend)
      ensures !requested ==> countdown == old(countdown) && canResend == old(canResend) && error == old(error)
      ensures requested && outcome.ResendSent? ==>
                countdown == CountdownStart && !canResend && error == Some("New verification code sent!")
      ensures requested && outcome.ResendFailed? ==>
                countdown == old(countdown) && canResend == old(canResend) &&
                error == Some(if outcome.message != "" then outcome.message else "Failed to resend code")
      ensures otp == old(otp)
    {
      if !canResend {
        return false;
      }
      requested := true;
      error := None;
      match outcome
      case ResendSent =>
        canResend := false;
        countdown := CountdownStart;
        error := Some("New verification code sent!");
      case ResendFailed(message) =>
        error := Some(if message != "" then message else "Failed to resend code");
    }
  }
}
