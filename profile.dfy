/**
 * The profile page's security and account rules: the PIN setup flow with
 * e-mail verification of a PIN change, the PIN switch, the password and
 * avatar checks and the display-name fallback.
 */
module Profile {
  import opened Wrappers
  import opened Files
  import Text
  import Vault

  // ---------------------------------------------------------------------------
  // Plain rules

  /** `handleVerifyAndSave`'s condition: a first PIN needs no code, a new one needs the sent code. */
  predicate MayReplacePin(hasPin: bool, enteredCode: string, generatedCode: string) {
    !hasPin || enteredCode == generatedCode
  }

  datatype PasswordCheck = PasswordMismatch | PasswordTooShort | PasswordAccepted

  /** `handlePasswordChange`: the mismatch is reported before the length. */
  function CheckPassword(newPassword: string, confirmPassword: string): (r: PasswordCheck)
    ensures r == PasswordAccepted <==> newPassword == confirmPassword && |newPassword| >= 6
    ensures r == PasswordMismatch <==> newPassword != confirmPassword
  {
    if newPassword != confirmPassword then PasswordMismatch
    else if |newPassword| < 6 then PasswordTooShort
    else PasswordAccepted
  }

  const AvatarTypes: seq<string> := ["image/png", "image/jpeg", "image/jpg", "image/webp"]
  const MaxAvatarSize: nat := 2 * MiB

  /** `handleAvatarUpload`'s checks, type first. */
  function CheckAvatar(f: FileInfo): (r: FileCheck)
    ensures r == FileAccepted <==> f.mime in AvatarTypes && f.size <= MaxAvatarSize
    ensures r == InvalidType <==> f.mime !in AvatarTypes
  {
    if f.mime !in AvatarTypes then InvalidType
    else if f.size > MaxAvatarSize then TooLarge
    else FileAccepted
  }

  /** `${user.id}/avatar.${fileExt}`: one avatar per user, overwritten on each upload. */
  function AvatarPath(userId: string, fileName: string): (path: string)
    ensures Text.IsPrefix(userId + "/avatar.", path)
    ensures Text.FileExtension(path) == Text.FileExtension(fileName)
  {
    var ext := Text.FileExtension(fileName);
    Text.SplitLastPiece(userId + "/avatar", ".", ext);
    assert userId + "/avatar" + "." + ext == userId + "/avatar." + ext;
    userId + "/avatar." + ext
  }

  /** A JavaScript `||` operand: present and not the empty string. */
  predicate Truthy(v: Option<string>) {
    v.Some? && v.value != ""
  }

  /** `full_name || name || email?.split("@")[0] || ""` over the user's metadata. */
  function DisplayName(fullName: Option<string>, name: Option<string>, email: Option<string>): (r: string)
    ensures Truthy(fullName) ==> r == fullName.value
    ensures !Truthy(fullName) && Truthy(name) ==> r == name.value
    ensures !Truthy(fullName) && !Truthy(name) && email.None? ==> r == ""
    ensures !Truthy(fullName) && !Truthy(name) && email.Some? ==>
      Text.IsPrefix(r, email.value) && !Text.Contains(r, "@")
    ensures !Truthy(fullName) && !Truthy(name) && email.Some? ==>
      r == (if Text.IndexOf(email.value, "@").Some? then email.value[..Text.IndexOf(email.value, "@").value] else email.value)
  {
    if Truthy(fullName) then fullName.value
    else if Truthy(name) then name.value
    else match email
      case None => ""
      case Some(e) =>
        Text.FirstPiece(e, "@");
        Text.Split(e, "@")[0]
  }

  /** Without a name, the address up to its first "@" is shown. */
  lemma NameFromEmail(local: string, domain: string)
    requires !Text.Contains(local, "@")
    ensures DisplayName(None, None, Some(local + "@" + domain)) == local
  {
    var e := local + "@" + domain;
    assert Text.OccursAt(e, "@", |local|) by {
      assert e[|local|..|local| + 1] == "@";
    }
    forall j: nat | j < |local|
      ensures !Text.OccursAt(e, "@", j)
    {
      assert !Text.OccursAt(local, "@", j);
      assert e[j..j + 1] == local[j..j + 1];
    }
    Text.IndexOfUnique(e, "@", |local|);
    Text.FirstPiece(e, "@");
    assert e[..|local|] == local;
  }

  // ---------------------------------------------------------------------------
  // The PIN setup flow

  const CodeLength: nat := 6

  /** The integer part of `Math.random() * 900000`, the random part of a generated code. */
  type Draw = d: nat | d < 900000

  /** The card's form state: which step is open, the two inputs and the last generated code. */
  datatype PinForm = PinForm(isSettingPin: bool, isVerifying: bool, newPin: string,
                             verificationCode: string, generatedCode: string)

  const InitialPinForm := PinForm(false, false, "", "", "")

  /** Step 1 (choose the PIN) is shown. */
  predicate StepOneOpen(f: PinForm) {
    f.isSettingPin && !f.isVerifying
  }

  /**
   * `handleSendVerificationCode` on the form: without an e-mail address
   * nothing happens; otherwise the code is generated and kept, and Step 2
   * opens only if the mail was sent.
   */
  function SendCodeStep(f: PinForm, hasEmail: bool, draw: Draw, sent: bool): (g: PinForm)
    ensures !hasEmail ==> g == f
    ensures hasEmail ==> g.generatedCode == Text.SixDigitCode(draw) && g.isVerifying == (f.isVerifying || sent)
    ensures (g.isSettingPin, g.newPin, g.verificationCode) == (f.isSettingPin, f.newPin, f.verificationCode)
  {
    if !hasEmail then f
    else f.(generatedCode := Text.SixDigitCode(draw), isVerifying := f.isVerifying || sent)
  }

  /**
   * `handleVerifyAndSave` on the form: whether the PIN is saved, and the
   * form afterwards (reset on success, untouched on refusal).
   */
  function SaveStep(f: PinForm, hasPin: bool): (r: (bool, PinForm))
    ensures r.0 <==> MayReplacePin(hasPin, f.verificationCode, f.generatedCode)
    ensures r.0 ==> r.1 == PinForm(false, false, "", "", f.generatedCode)
    ensures !r.0 ==> r.1 == f
  {
    if MayReplacePin(hasPin, f.verificationCode, f.generatedCode) then
      (true, f.(isSettingPin := false, isVerifying := false, newPin := "", verificationCode := ""))
    else (false, f)
  }

  /** What the user can do on the card; `hasEmail`, `draw` and `sent` are the environment of a send. */
  datatype PinAction =
    | OpenSetup
    | EnterPin(pin: string)
    | EnterCode(code: string)
    | SubmitPin(hasEmail: bool, draw: Draw, sent: bool)
    | SubmitCode
    | ResendCode(hasEmail: bool, draw: Draw, sent: bool)
    | CancelSetup
    | CancelVerify

  /** An action that e-mails a freshly generated code. */
  predicate DeliversCode(a: PinAction) {
    (a.SubmitPin? || a.ResendCode?) && a.hasEmail && a.sent
  }

  /**
   * One action on the card, for a user whose PIN flag is `hasPin`: the new
   * form and whether a PIN was saved. A control that is hidden or disabled
   * does nothing: the inputs and Step 1's button live in Step 1, the code
   * input, "Verify & Save PIN" and "Resend" in Step 2, the buttons need six
   * characters and the inputs take at most six.
   */
  function Act(f: PinForm, hasPin: bool, a: PinAction): (r: (PinForm, bool))
  {
    match a
    case OpenSetup => (f.(isSettingPin := true), false)
    case EnterPin(s) =>
      if StepOneOpen(f) && |s| <= CodeLength then (f.(newPin := s), false) else (f, false)
    case EnterCode(s) =>
      if f.isVerifying && |s| <= CodeLength then (f.(verificationCode := s), false) else (f, false)
    case SubmitPin(e, d, sent) =>
      if !StepOneOpen(f) || |f.newPin| != CodeLength then (f, false)
      else if hasPin then (SendCodeStep(f, e, d, sent), false)
      else (SaveStep(f, hasPin).1, SaveStep(f, hasPin).0)
    case SubmitCode =>
      if !f.isVerifying || |f.verificationCode| != CodeLength then (f, false)
      else (SaveStep(f, hasPin).1, SaveStep(f, hasPin).0)
    case ResendCode(e, d, sent) =>
      if f.isVerifying then (SendCodeStep(f, e, d, sent), false) else (f, false)
    case CancelSetup =>
      if StepOneOpen(f) then (f.(isSettingPin := false, newPin := ""), false) else (f, false)
    case CancelVerify =>
      if f.isVerifying then (f.(isVerifying := false, verificationCode := ""), false) else (f, false)
  }

  /** A sequence of actions: the final form and whether any of them saved a PIN. */
  function Run(f: PinForm, hasPin: bool, actions: seq<PinAction>): (PinForm, bool)
    decreases |actions|
  {
    if actions == [] then (f, false)
    else
      var step := Act(f, hasPin, actions[0]);
      var rest := Run(step.0, hasPin, actions[1..]);
      (rest.0, step.1 || rest.1)
  }

  /**
   * With a PIN in place and Step 2 closed, no sequence of clicks and typing
   * on the setup steps replaces the PIN unless one of the actions e-mailed a
   * code, as long as the PIN switch is not turned off (see
   * `SwitchOffReplacesWithoutCode`).
   */
  lemma {:induction false} NoReplacementWithoutMailedCode(f: PinForm, actions: seq<PinAction>)
    requires !f.isVerifying
    ensures Run(f, true, actions).1 ==> exists i :: 0 <= i < |actions| && DeliversCode(actions[i])
    decreases |actions|
  {
    if actions != [] {
      var step := Act(f, true, actions[0]);
      if !DeliversCode(actions[0]) {
        assert !step.0.isVerifying && !step.1;
        NoReplacementWithoutMailedCode(step.0, actions[1..]);
        if Run(f, true, actions).1 {
          var i :| 0 <= i < |actions[1..]| && DeliversCode(actions[1..][i]);
          assert DeliversCode(actions[i + 1]);
        }
      }
    }
  }

  /**
   * The PIN switch needs no code: turning it off clears the PIN, and then
   * "Save PIN Now" stores a new one at once, so an existing PIN is replaced
   * although no action e-mailed a code.
   */
  lemma SwitchOffReplacesWithoutCode(s: Vault.VaultState, id: Vault.UserId, f: PinForm, pin: string)
    requires s.hasPin && !f.isVerifying && |pin| == CodeLength
    ensures var off := Vault.SetPinStep(s, Some(id), "");
      var actions := [OpenSetup, EnterPin(pin), SubmitPin(false, 0, false)];
      !off.hasPin && Run(f, off.hasPin, actions).1 &&
      (forall i :: 0 <= i < |actions| ==> !DeliversCode(actions[i])) &&
      Vault.GetItem(Vault.SetPinStep(off, Some(id), pin).local, Vault.PinKey(id)) == Some(pin)
  {
    var actions := [OpenSetup, EnterPin(pin), SubmitPin(false, 0, false)];
    var f2 := f.(isSettingPin := true, newPin := pin);
    assert actions[2..][1..] == [];
    assert Run(f2, false, actions[2..]).1;
    assert Run(f.(isSettingPin := true), false, actions[1..]).1 by { assert actions[1..][1..] == actions[2..]; }
  }

  /**
   * Changing a PIN: open Step 1, type the PIN, have the code mailed, type a
   * code and submit it. The PIN is saved iff the typed code is the mailed
   * one, and a success resets the form. A first PIN is saved at once.
   */
  lemma ChangePinScenario(pin: string, d: Draw, typed: string)
    requires |pin| == CodeLength && |typed| == CodeLength
    ensures var r := Run(InitialPinForm, true,
                         [OpenSetup, EnterPin(pin), SubmitPin(true, d, true), EnterCode(typed), SubmitCode]);
      (r.1 <==> typed == Text.SixDigitCode(d)) &&
      (r.1 ==> r.0 == InitialPinForm.(generatedCode := Text.SixDigitCode(d)))
    ensures Run(InitialPinForm, false, [OpenSetup, EnterPin(pin), SubmitPin(true, d, true)]).1
  {
    var actions := [OpenSetup, EnterPin(pin), SubmitPin(true, d, true), EnterCode(typed), SubmitCode];
    var f1 := InitialPinForm.(isSettingPin := true);
    var f2 := f1.(newPin := pin);
    var f3 := SendCodeStep(f2, true, d, true);
    var f4 := f3.(verificationCode := typed);
    var saved := SaveStep(f4, true);
    assert actions[4..][1..] == [];
    assert Run(f4, true, actions[4..]) == (saved.1, saved.0);
    assert Run(f3, true, actions[3..]) == (saved.1, saved.0) by { assert actions[3..][1..] == actions[4..]; }
    assert Run(f2, true, actions[2..]) == (saved.1, saved.0) by { assert actions[2..][1..] == actions[3..]; }
    assert Run(f1, true, actions[1..]) == (saved.1, saved.0) by { assert actions[1..][1..] == actions[2..]; }
    var first := [OpenSetup, EnterPin(pin), SubmitPin(true, d, true)];
    var g2 := InitialPinForm.(isSettingPin := true, newPin := pin);
    assert first[2..][1..] == [];
    assert Run(g2, false, first[2..]).1;
    assert Run(f1, false, first[1..]).1 by { assert first[1..][1..] == first[2..]; }
  }

  /** The vault-security card of the profile page, over the vault it configures. */
  class PinSettings {
    const vault: Vault.VaultLock
    var isSettingPin: bool
    var isVerifying: bool
    var newPin: string
    var verificationCode: string
    var generatedCode: string

    /** The inputs hold at most six characters, and a generated code is a six-digit number. */
    predicate Valid()
      reads this
    {
      |newPin| <= CodeLength && |verificationCode| <= CodeLength &&
      (generatedCode == "" || (|generatedCode| == CodeLength && Text.AllDigits(generatedCode)))
    }

    constructor (vault: Vault.VaultLock)
      ensures this.vault == vault && Valid()
      ensures !isSettingPin && !isVerifying && newPin == "" && verificationCode == "" && generatedCode == ""
    {
      this.vault := vault;
      isSettingPin, isVerifying := false, false;
      newPin, verificationCode, generatedCode := "", "", "";
    }

    /** The fields as a form value. */
    function Form(): PinForm
      reads this
    {
      PinForm(isSettingPin, isVerifying, newPin, verificationCode, generatedCode)
    }

    /** Step 1 (choose the PIN) is shown. */
    function StepOneShown(): bool
      reads this
    {
      StepOneOpen(Form())
    }

    /** "Save PIN Now" / "Continue to Email Verification" is enabled exactly with six characters typed. */
    function StepOneEnabled(): (enabled: bool)
      reads this
      ensures enabled <==> |newPin| == CodeLength
    {
      |newPin| == CodeLength
    }

    /** "Verify & Save PIN" is enabled exactly with six characters typed. */
    function StepTwoEnabled(): (enabled: bool)
      reads this
      ensures enabled <==> |verificationCode| == CodeLength
    {
      |verificationCode| == CodeLength
    }

    /** The PIN input (`maxLength={6}`). */
    method TypePin(s: string)
      requires Valid() && |s| <= CodeLength
      modifies this
      ensures Valid() && newPin == s
      ensures StepOneShown() ==> (Form(), false) == Act(old(Form()), vault.hasPin, EnterPin(s))
      ensures isSettingPin == old(isSettingPin) && isVerifying == old(isVerifying)
      ensures verificationCode == old(verificationCode) && generatedCode == old(generatedCode)
    {
      newPin := s;
    }

    /** The code input (`maxLength={6}`). */
    method TypeCode(s: string)
      requires Valid() && |s| <= CodeLength
      modifies this
      ensures Valid() && verificationCode == s
      ensures isVerifying ==> (Form(), false) == Act(old(Form()), vault.hasPin, EnterCode(s))
      ensures isSettingPin == old(isSettingPin) && isVerifying == old(isVerifying)
      ensures newPin == old(newPin) && generatedCode == old(generatedCode)
    {
      verificationCode := s;
    }

    /** The "Enable PIN" switch: turning it off clears the PIN, turning it on opens Step 1. */
    method TogglePin(checked: bool)
      requires Valid()
      modifies this, vault
      ensures Valid() && vault.user == old(vault.user)
      ensures !checked ==> vault.State() == Vault.SetPinStep(old(vault.State()), vault.user, "") && isSettingPin == old(isSettingPin)
      ensures checked ==> vault.State() == old(vault.State()) && isSettingPin
      ensures isVerifying == old(isVerifying) && newPin == old(newPin)
      ensures verificationCode == old(verificationCode) && generatedCode == old(generatedCode)
    {
      if !checked {
        vault.SetPin("");
      } else {
        isSettingPin := true;
      }
    }

    /** The "Biometric Unlock" switch, shown while a PIN is set. */
    method ToggleBiometrics(checked: bool)
      requires Valid()
      modifies vault
      ensures vault.user == old(vault.user)
      ensures vault.State() == Vault.SetBiometricsStep(old(vault.State()), vault.user, checked)
    {
      vault.SetBiometricsEnabled(checked);
    }

    /** "Change 6-Digit PIN" */
    method StartChange()
      requires Valid()
      modifies this
      ensures Valid() && isSettingPin
      ensures (Form(), false) == Act(old(Form()), vault.hasPin, OpenSetup)
      ensures isVerifying == old(isVerifying) && newPin == old(newPin)
      ensures verificationCode == old(verificationCode) && generatedCode == old(generatedCode)
    {
      isSettingPin := true;
    }

    /** Cancelling Step 1 closes it and forgets the typed PIN. */
    method CancelStepOne()
      requires Valid()
      modifies this
      ensures Valid() && !isSettingPin && newPin == ""
      ensures old(StepOneShown()) ==> (Form(), false) == Act(old(Form()), vault.hasPin, CancelSetup)
      ensures isVerifying == old(isVerifying) && verificationCode == old(verificationCode) && generatedCode == old(generatedCode)
    {
      isSettingPin := false;
      newPin := "";
    }

    /** Cancelling Step 2 closes it and forgets the typed code. */
    method CancelStepTwo()
      requires Valid()
      modifies this
      ensures Valid() && !isVerifying && verificationCode == ""
      ensures old(isVerifying) ==> (Form(), false) == Act(old(Form()), vault.hasPin, CancelVerify)
      ensures isSettingPin == old(isSettingPin) && newPin == old(newPin) && generatedCode == old(generatedCode)
    {
      isVerifying := false;
      verificationCode := "";
    }

    /**
     * `handleSendVerificationCode`: without an e-mail address nothing
     * happens; otherwise a code is generated and kept even if sending it
     * fails, and Step 2 opens only once it was sent. `draw` is the random
     * draw, `sent` whether the mail function succeeded.
     */
    method SendVerificationCode(hasEmail: bool, draw: Draw, sent: bool)
      requires Valid()
      modifies this
      ensures Valid() && Form() == SendCodeStep(old(Form()), hasEmail, draw, sent)
      ensures !hasEmail ==> generatedCode == old(generatedCode) && isVerifying == old(isVerifying)
      ensures hasEmail ==> generatedCode == Text.SixDigitCode(draw) && isVerifying == (old(isVerifying) || sent)
      ensures isSettingPin == old(isSettingPin) && newPin == old(newPin) && verificationCode == old(verificationCode)
    {
      if !hasEmail {
        return;
      }
      var code := Text.SixDigitCode(draw);
      generatedCode := code;
      if sent {
        isVerifying := true;
      }
    }

    /** `handleVerifyAndSave`: on success the PIN is stored and the whole flow is reset. */
    method VerifyAndSave() returns (saved: bool)
      requires Valid()
      modifies this, vault
      ensures Valid() && vault.user == old(vault.user)
      ensures saved <==> MayReplacePin(old(vault.hasPin), old(verificationCode), old(generatedCode))
      ensures (saved, Form()) == SaveStep(old(Form()), old(vault.hasPin))
      ensures saved ==>
        vault.State() == Vault.SetPinStep(old(vault.State()), vault.user, old(newPin)) &&
        !isSettingPin && !isVerifying && newPin == "" && verificationCode == "" && generatedCode == old(generatedCode)
      ensures !saved ==>
        vault.State() == old(vault.State()) && isSettingPin == old(isSettingPin) && isVerifying == old(isVerifying) &&
        newPin == old(newPin) && verificationCode == old(verificationCode) && generatedCode == old(generatedCode)
    {
      if !vault.hasPin || verificationCode == generatedCode {
        vault.SetPin(newPin);
        isSettingPin := false;
        isVerifying := false;
        newPin := "";
        verificationCode := "";
        saved := true;
      } else {
        saved := false;
      }
    }

    /**
     * Step 1's button: with a PIN in place it asks for e-mail verification,
     * otherwise it saves the PIN right away.
     */
    method SubmitStepOne(hasEmail: bool, draw: Draw, sent: bool) returns (saved: bool)
      requires Valid() && StepOneShown() && StepOneEnabled()
      modifies this, vault
      ensures Valid() && vault.user == old(vault.user)
      ensures (Form(), saved) == Act(old(Form()), old(vault.hasPin), SubmitPin(hasEmail, draw, sent))
      ensures old(vault.hasPin) ==> (!saved && vault.State() == old(vault.State()) &&
        generatedCode == (if hasEmail then Text.SixDigitCode(draw) else old(generatedCode)) &&
        isVerifying == (hasEmail && sent) && newPin == old(newPin))
      ensures !old(vault.hasPin) ==> (saved &&
        vault.State() == Vault.SetPinStep(old(vault.State()), vault.user, old(newPin)) &&
        !isSettingPin && !isVerifying && newPin == "")
    {
      if vault.hasPin {
        SendVerificationCode(hasEmail, draw, sent);
        saved := false;
      } else {
        saved := VerifyAndSave();
      }
    }

    /** Step 2's button: the typed code must match the generated one. */
    method SubmitStepTwo() returns (saved: bool)
      requires Valid() && isVerifying && StepTwoEnabled()
      modifies this, vault
      ensures Valid() && vault.user == old(vault.user)
      ensures (Form(), saved) == Act(old(Form()), old(vault.hasPin), SubmitCode)
      ensures saved <==> !old(vault.hasPin) || old(verificationCode) == old(generatedCode)
      ensures saved && old(vault.hasPin) ==> old(generatedCode) != "" && Text.AllDigits(old(verificationCode))
      ensures saved ==> vault.State() == Vault.SetPinStep(old(vault.State()), vault.user, old(newPin))
      ensures !saved ==> vault.State() == old(vault.State()) && isVerifying
    {
      saved := VerifyAndSave();
    }
  }
}
