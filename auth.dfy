/**
 * The sign-in / sign-up page's demonstration phone check: a six-digit code
 * is generated locally, a resend cooldown counts down once per second, and
 * the phone counts as verified once the typed code equals the generated one.
 */
module Auth {
  import opened Wrappers
  import Text

  datatype Mode = SignIn | SignUp

  /** The page opens in sign-up mode exactly when `?mode=signup` is given. */
  function InitialMode(modeParam: Option<string>): (m: Mode)
    ensures m == SignUp <==> modeParam == Some("signup")
  {
    if modeParam == Some("signup") then SignUp else SignIn
  }

  const MinPhoneLength: nat := 10
  const OtpLength: nat := 6
  const ResendCooldown: nat := 30

  /** `!phone || phone.length < 10`: an empty number is also too short. */
  predicate PhoneRejected(phone: string) {
    phone == "" || |phone| < MinPhoneLength
  }

  /** One firing of the cooldown timer. */
  function CooldownTick(c: nat): nat {
    if c > 0 then c - 1 else c
  }

  /** The cooldown left after `n` timer firings. */
  function CooldownAfter(c: nat, n: nat): nat {
    if n == 0 then c else CooldownAfter(CooldownTick(c), n - 1)
  }

  /** The countdown loses one second per firing and stops at zero. */
  lemma {:induction false} CooldownCountsDown(c: nat, n: nat)
    ensures CooldownAfter(c, n) == if n <= c then c - n else 0
  {
    if n > 0 {
      CooldownCountsDown(CooldownTick(c), n - 1);
    }
  }

  /** Thirty seconds after a send, the button can be used again; not a second earlier. */
  lemma ResendAfterThirtySeconds(n: nat)
    ensures CooldownAfter(ResendCooldown, n) == 0 <==> n >= ResendCooldown
  {
    CooldownCountsDown(ResendCooldown, n);
  }

  /** The send button's condition (`phone.length < 10 || resendCooldown > 0` disables it). */
  predicate SendAllowed(phone: string, cooldown: nat) {
    !PhoneRejected(phone) && cooldown == 0
  }

  /**
   * After a send, the button stays disabled for the next 29 firings of the
   * timer and is usable again from the 30th on, for any valid number.
   */
  lemma SendBlockedDuringCooldown(phone: string, n: nat)
    requires !PhoneRejected(phone)
    ensures SendAllowed(phone, CooldownAfter(ResendCooldown, n)) <==> n >= ResendCooldown
  {
    CooldownCountsDown(ResendCooldown, n);
  }

  datatype OtpCheck = IncompleteOtp | WrongOtp | PhoneVerified

  /**
   * `handleVerifyOtp`: a code of the wrong length is refused before it is
   * compared; since the generated code starts out empty, nothing verifies
   * before a code was generated.
   */
  function CheckOtp(otp: string, generatedOtp: string): (r: OtpCheck)
    ensures r == IncompleteOtp <==> |otp| != OtpLength
    ensures r == PhoneVerified <==> |otp| == OtpLength && otp == generatedOtp
    ensures r == PhoneVerified ==> generatedOtp != ""
  {
    if |otp| != OtpLength then IncompleteOtp
    else if otp == generatedOtp then PhoneVerified
    else WrongOtp
  }

  /** The text fields of the form; `handleInputChange` dispatches on the input's name. */
  datatype Field = NameField | EmailField | PasswordField | PhoneField

  /** The form and the phone-check state of the page. */
  class AuthForm {
    var mode: Mode
    var name: string
    var email: string
    var password: string
    var phone: string
    var otpSent: bool
    var otp: string
    var isPhoneVerified: bool
    var generatedOtp: string
    var resendCooldown: nat

    /**
     * A code is pending exactly when one was generated, generated codes are
     * six-digit numbers, the OTP input holds at most six characters, a
     * verified phone has been sent a code, and the cooldown never exceeds 30.
     */
    predicate Valid()
      reads this
    {
      (otpSent <==> generatedOtp != "") &&
      (generatedOtp != "" ==> |generatedOtp| == OtpLength && Text.AllDigits(generatedOtp)) &&
      |otp| <= OtpLength &&
      (isPhoneVerified ==> otpSent) &&
      resendCooldown <= ResendCooldown
    }

    constructor (modeParam: Option<string>)
      ensures Valid() && mode == InitialMode(modeParam)
      ensures name == "" && email == "" && password == "" && phone == ""
      ensures !otpSent && otp == "" && !isPhoneVerified && generatedOtp == "" && resendCooldown == 0
    {
      mode := InitialMode(modeParam);
      name, email, password, phone := "", "", "", "";
      otpSent, otp, isPhoneVerified, generatedOtp, resendCooldown := false, "", false, "", 0;
    }

    /** The "Send OTP" button is usable: a long enough number and no cooldown running. */
    function SendEnabled(): (enabled: bool)
      reads this
      ensures enabled <==> SendAllowed(phone, resendCooldown)
      ensures enabled ==> |phone| >= MinPhoneLength
    {
      !(phone == "" || |phone| < MinPhoneLength || resendCooldown > 0)
    }

    /** The code input is shown: a code was sent and the phone is not yet verified. */
    function OtpInputShown(): (shown: bool)
      reads this
      ensures shown <==> otpSent && !isPhoneVerified
      ensures Valid() && shown ==> |generatedOtp| == OtpLength && Text.AllDigits(generatedOtp)
    {
      otpSent && !isPhoneVerified
    }

    /** `handleInputChange`: a new phone number forgets the code and the verification. */
    method InputChange(f: Field, value: string)
      requires Valid()
      modifies this
      ensures Valid() && mode == old(mode) && resendCooldown == old(resendCooldown)
      ensures name == (if f == NameField then value else old(name))
      ensures email == (if f == EmailField then value else old(email))
      ensures password == (if f == PasswordField then value else old(password))
      ensures phone == (if f == PhoneField then value else old(phone))
      ensures f == PhoneField ==> !otpSent && !isPhoneVerified && otp == "" && generatedOtp == ""
      ensures f != PhoneField ==> (otpSent == old(otpSent) && isPhoneVerified == old(isPhoneVerified) &&
        otp == old(otp) && generatedOtp == old(generatedOtp))
    {
      match f
      case NameField => name := value;
      case EmailField => email := value;
      case PasswordField => password := value;
      case PhoneField =>
        phone := value;
        otpSent, isPhoneVerified, otp, generatedOtp := false, false, "", "";
    }

    /**
     * `handleSendOtp`: a short number is refused; otherwise the code of the
     * random draw `draw = floor(Math.random() * 900000)` becomes the pending
     * code and the 30-second cooldown starts.
     */
    method SendOtp(draw: nat) returns (sent: bool)
      requires Valid() && draw < 900000
      modifies this
      ensures Valid() && (sent <==> !PhoneRejected(old(phone)))
      ensures phone == old(phone) && otp == old(otp) && isPhoneVerified == old(isPhoneVerified)
      ensures sent ==> otpSent && generatedOtp == Text.SixDigitCode(draw) && resendCooldown == ResendCooldown
      ensures sent ==> 100000 <= Text.DecimalValue(generatedOtp) <= 999999
      ensures !sent ==> otpSent == old(otpSent) && generatedOtp == old(generatedOtp) && resendCooldown == old(resendCooldown)
    {
      if phone == "" || |phone| < MinPhoneLength {
        return false;
      }
      generatedOtp := Text.SixDigitCode(draw);
      otpSent := true;
      resendCooldown := ResendCooldown;
      sent := true;
    }

    /** One firing of the cooldown effect's timer. */
    method Tick()
      requires Valid()
      modifies this
      ensures Valid() && resendCooldown == CooldownTick(old(resendCooldown))
      ensures otpSent == old(otpSent) && otp == old(otp) && isPhoneVerified == old(isPhoneVerified)
      ensures generatedOtp == old(generatedOtp) && phone == old(phone)
    {
      if resendCooldown > 0 {
        resendCooldown := resendCooldown - 1;
      }
    }

    /** The code input (`maxLength={6}`), shown only while a code is pending. */
    method TypeOtp(s: string)
      requires Valid() && OtpInputShown() && |s| <= OtpLength
      modifies this
      ensures Valid() && otp == s
      ensures otpSent == old(otpSent) && isPhoneVerified == old(isPhoneVerified)
      ensures generatedOtp == old(generatedOtp) && resendCooldown == old(resendCooldown)
    {
      otp := s;
    }

    /** `handleVerifyOtp`: only the matching six-character code verifies the phone. */
    method VerifyOtp() returns (r: OtpCheck)
      requires Valid()
      modifies this
      ensures Valid() && r == CheckOtp(old(otp), old(generatedOtp))
      ensures isPhoneVerified == (old(isPhoneVerified) || r == PhoneVerified)
      ensures r == PhoneVerified ==> old(otpSent)
      ensures otpSent == old(otpSent) && otp == old(otp) && generatedOtp == old(generatedOtp)
    {
      if |otp| != OtpLength {
        return IncompleteOtp;
      }
      if otp == generatedOtp {
        isPhoneVerified := true;
        r := PhoneVerified;
      } else {
        r := WrongOtp;
      }
    }

    /** The "Sign up" / "Sign in" links switch the mode. */
    method SetMode(m: Mode)
      requires Valid()
      modifies this
      ensures Valid() && mode == m
      ensures name == old(name) && email == old(email) && password == old(password) && phone == old(phone)
      ensures otpSent == old(otpSent) && otp == old(otp) && isPhoneVerified == old(isPhoneVerified)
      ensures generatedOtp == old(generatedOtp) && resendCooldown == old(resendCooldown)
    {
      mode := m;
    }
  }
}
