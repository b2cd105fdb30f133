/**
 * The lock screen: a keypad that collects at most six digits into a buffer
 * and asks the vault to unlock with the buffer once it is six long. A failed
 * attempt empties the buffer and raises the error flag.
 *
 * The pure part (`Pad`, `Press`, `Erase`, `Settle`, `Run`) carries the lemmas;
 * the class `LockScreen` updates its fields and the vault's in place.
 */
module LockPad {
  import opened Wrappers
  import opened Vault
  import Text

  const PinLength: nat := 6

  /** What the keypad can emit: the buttons are labelled "0" to "9". */
  type Digit = c: char | '0' <= c <= '9' witness '0'

  /** The buffer and the error flag of the lock screen. */
  datatype Pad = Pad(pin: string, error: bool)

  const EmptyPad := Pad("", false)

  /** The buffer is a bounded string of digits. */
  predicate WellFormed(p: Pad) {
    |p.pin| <= PinLength && Text.AllDigits(p.pin)
  }

  /** `handleNumberClick(num)`: append only while the buffer is short, and clear the error. */
  function Press(p: Pad, d: Digit): (r: Pad)
    ensures WellFormed(p) ==> WellFormed(r)
    ensures |p.pin| < PinLength ==> |r.pin| == |p.pin| + 1 && r.pin[..|p.pin|] == p.pin && r.pin[|p.pin|] == d && !r.error
    ensures |p.pin| >= PinLength ==> r == p
  {
    if |p.pin| < PinLength then Pad(p.pin + [d], false) else p
  }

  /** `prev.slice(0, -1)`: the buffer without its last character. */
  function DropLast(s: string): (r: string)
    ensures s == [] ==> r == []
    ensures s != [] ==> r + [s[|s| - 1]] == s
  {
    if s == [] then [] else s[..|s| - 1]
  }

  /** `handleDelete`: drop the last digit, clear the error. */
  function Erase(p: Pad): (r: Pad)
    ensures WellFormed(p) ==> WellFormed(r)
    ensures !r.error
    ensures |r.pin| == if p.pin == [] then 0 else |p.pin| - 1
  {
    Pad(DropLast(p.pin), false)
  }

  /**
   * The effect that runs after the buffer changed: with six digits it calls
   * `unlock`; a rejection raises the error and empties the buffer. The third
   * component is the PIN handed to `unlock`, if it was called.
   */
  function Settle(p: Pad, vs: VaultState, user: Option<UserId>): (r: (Pad, VaultState, Option<string>))
    ensures r.2 == (if |p.pin| == PinLength then Some(p.pin) else None)
    ensures r.2.None? ==> r.0 == p && r.1 == vs
    ensures r.2.Some? ==> r.1 == UnlockStep(vs, user, p.pin).1
    ensures r.2.Some? && !UnlockStep(vs, user, p.pin).0 ==> r.0 == Pad("", true)
    ensures r.2.Some? && UnlockStep(vs, user, p.pin).0 ==> r.0 == p
  {
    if |p.pin| == PinLength then
      var (ok, vs') := UnlockStep(vs, user, p.pin);
      if ok then (p, vs', Some(p.pin)) else (Pad("", true), vs', Some(p.pin))
    else (p, vs, None)
  }

  /** A key of the pad: a digit button or the delete button. */
  datatype Key = DigitKey(d: Digit) | DeleteKey

  /** One key press; the effect runs only when the buffer actually changed. */
  function Step(p: Pad, vs: VaultState, user: Option<UserId>, k: Key): (Pad, VaultState, Option<string>) {
    var p' := match k case DigitKey(d) => Press(p, d) case DeleteKey => Erase(p);
    if p'.pin != p.pin then Settle(p', vs, user) else (p', vs, None)
  }

  /**
   * A sequence of key presses from pad `p`: the final pad, the final vault
   * state and the PINs handed to `unlock`, in order.
   */
  function Run(p: Pad, vs: VaultState, user: Option<UserId>, keys: seq<Key>): (Pad, VaultState, seq<string>)
    decreases |keys|
  {
    if keys == [] then (p, vs, [])
    else
      var (p1, vs1, attempt) := Step(p, vs, user, keys[0]);
      var (p2, vs2, attempts) := Run(p1, vs1, user, keys[1..]);
      (p2, vs2, (if attempt.Some? then [attempt.value] else []) + attempts)
  }

  /**
   * Whatever keys are pressed, the buffer stays a string of at most six
   * digits, and `unlock` is only ever called with exactly six digits.
   */
  lemma {:induction false} RunKeepsBuffer(p: Pad, vs: VaultState, user: Option<UserId>, keys: seq<Key>)
    requires WellFormed(p)
    ensures WellFormed(Run(p, vs, user, keys).0)
    ensures forall a :: a in Run(p, vs, user, keys).2 ==> |a| == PinLength && Text.AllDigits(a)
    decreases |keys|
  {
    if keys != [] {
      var (p1, vs1, attempt) := Step(p, vs, user, keys[0]);
      RunKeepsBuffer(p1, vs1, user, keys[1..]);
    }
  }

  /** Key presses change the vault only through `unlock`: storage keeps every key but this tab's marker. */
  lemma {:induction false} RunOnlyUnlocks(p: Pad, vs: VaultState, user: Option<UserId>, keys: seq<Key>)
    ensures var vs' := Run(p, vs, user, keys).1;
      vs'.local == vs.local && vs'.hasPin == vs.hasPin && vs'.biometrics == vs.biometrics &&
      (vs'.isLocked ==> vs.isLocked)
    decreases |keys|
  {
    if keys != [] {
      var (p1, vs1, attempt) := Step(p, vs, user, keys[0]);
      RunOnlyUnlocks(p1, vs1, user, keys[1..]);
    }
  }

  /** The keys for typing the digits `ds`. */
  function DigitKeys(ds: seq<Digit>): (keys: seq<Key>)
    ensures |keys| == |ds| && forall i :: 0 <= i < |ds| ==> keys[i] == DigitKey(ds[i])
  {
    seq(|ds|, i requires 0 <= i < |ds| => DigitKey(ds[i]))
  }

  /**
   * Typing the digits that complete the buffer makes exactly one unlock
   * attempt, with the whole six-digit buffer, and none before it.
   */
  lemma {:induction false} CompletingBufferMakesOneAttempt(p: Pad, vs: VaultState, user: Option<UserId>, ds: seq<Digit>)
    requires |ds| >= 1 && |p.pin| + |ds| == PinLength
    ensures Run(p, vs, user, DigitKeys(ds)).2 == [p.pin + ds]
    decreases |ds|
  {
    var keys := DigitKeys(ds);
    var p1 := Press(p, ds[0]);
    assert p1.pin == p.pin + [ds[0]];
    assert keys[1..] == DigitKeys(ds[1..]);
    if |ds| > 1 {
      CompletingBufferMakesOneAttempt(p1, vs, user, ds[1..]);
      assert p1.pin + ds[1..] == p.pin + ds;
    } else {
      assert ds == [ds[0]];
    }
  }

  /** Number of the six PIN indicators shown filled: indicator `i` is filled iff `|pin| > i`. */
  function FilledIndicators(len: nat, slots: nat): (n: nat)
    ensures n <= slots
  {
    if slots == 0 then 0 else FilledIndicators(len, slots - 1) + (if len > slots - 1 then 1 else 0)
  }

  /** The filled indicators count the buffered digits. */
  lemma {:induction false} FilledIndicatorsCount(len: nat, slots: nat)
    ensures FilledIndicators(len, slots) == if len < slots then len else slots
  {
    if slots > 0 {
      FilledIndicatorsCount(len, slots - 1);
    }
  }

  /**
   * The fingerprint button follows the user's stored setting: after
   * `setBiometricsEnabled(enabled)` a lock screen in any later session shows
   * it enabled exactly when `enabled` is true, and typing never changes it.
   */
  lemma BiometricButtonFollowsSetting(s: VaultState, id: UserId, enabled: bool,
                                      session: map<string, string>, p: Pad, keys: seq<Key>)
    ensures var later := InitStep(Mounted(SetBiometricsStep(s, Some(id), enabled).local, session), Some(id));
      later.biometrics == enabled && Run(p, later, Some(id), keys).1.biometrics == enabled
  {
    var later := InitStep(Mounted(SetBiometricsStep(s, Some(id), enabled).local, session), Some(id));
    KindsDiffer(id, id);
    RunOnlyUnlocks(p, later, Some(id), keys);
  }

  class LockScreen {
    const vault: VaultLock
    var pin: string
    var error: bool

    function PadState(): Pad
      reads this
    {
      Pad(pin, error)
    }

    constructor (vault: VaultLock)
      ensures this.vault == vault && PadState() == EmptyPad
    {
      this.vault := vault;
      pin, error := "", false;
    }

    /** The fingerprint button is enabled exactly when biometrics is on. */
    function BiometricButtonEnabled(): (enabled: bool)
      reads this, vault
      ensures enabled <==> vault.isBiometricsEnabled
    {
      vault.isBiometricsEnabled
    }

    /** Indicator `i` is drawn filled. */
    function IndicatorFilled(i: nat): (filled: bool)
      reads this
      ensures filled <==> i < |pin|
    {
      |pin| > i
    }

    /** The effect on `pin`: unlock once six digits are in. */
    method SettleBuffer() returns (attempt: Option<string>)
      modifies this, vault
      ensures vault.user == old(vault.user)
      ensures (PadState(), vault.State(), attempt) == Settle(old(PadState()), old(vault.State()), vault.user)
    {
      attempt := None;
      if |pin| == PinLength {
        attempt := Some(pin);
        var ok := vault.Unlock(pin);
        if !ok {
          error := true;
          pin := "";
        }
      }
    }

    method NumberClick(d: Digit) returns (attempt: Option<string>)
      modifies this, vault
      ensures vault.user == old(vault.user)
      ensures (PadState(), vault.State(), attempt) == Step(old(PadState()), old(vault.State()), vault.user, DigitKey(d))
    {
      attempt := None;
      if |pin| < PinLength {
        pin := pin + [d];
        error := false;
        attempt := SettleBuffer();
      }
    }

    method DeleteClick() returns (attempt: Option<string>)
      modifies this, vault
      ensures vault.user == old(vault.user)
      ensures (PadState(), vault.State(), attempt) == Step(old(PadState()), old(vault.State()), vault.user, DeleteKey)
    {
      var before := pin;
      pin := DropLast(pin);
      error := false;
      attempt := None;
      if pin != before {
        attempt := SettleBuffer();
      }
    }
  }
}
