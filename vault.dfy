/**
 * The vault PIN lock of `SecurityProvider`: three flags (`isLocked`, `hasPin`,
 * `isBiometricsEnabled`) and two per-user string stores, the persistent one
 * (`localStorage`, holding `sd_pin_<id>` and `sd_bio_<id>`) and the tab-scoped
 * one (`sessionStorage`, holding `sd_unlocked_<id>`).
 *
 * Each operation is given twice: as a step function on a `VaultState` value,
 * about which the lemmas below speak, and as a method of the class `VaultLock`,
 * which updates its fields in place and is specified by the step function.
 */
module Vault {
  import opened Wrappers

  type UserId = string

  function PinKey(id: UserId): string { "sd_pin_" + id }
  function BioKey(id: UserId): string { "sd_bio_" + id }
  function UnlockedKey(id: UserId): string { "sd_unlocked_" + id }

  /** The storage keys that belong to user `id`. */
  function UserKeys(id: UserId): set<string> {
    {PinKey(id), BioKey(id), UnlockedKey(id)}
  }

  /** `storage.getItem(k)`: `null` becomes `None`. */
  function GetItem(m: map<string, string>, k: string): Option<string> {
    if k in m then Some(m[k]) else None
  }

  /** JavaScript truthiness of a `string | null`: present and non-empty. */
  predicate Truthy(v: Option<string>) {
    v.Some? && v.value != ""
  }

  /** `String(enabled)` */
  function BoolString(b: bool): string {
    if b then "true" else "false"
  }

  /** A PIN is stored for `id` (the value `!!savedPin` tests). */
  predicate PinStored(local: map<string, string>, id: UserId) {
    Truthy(GetItem(local, PinKey(id)))
  }

  /** The biometrics flag stored for `id` is exactly `"true"`. */
  predicate BiometricsStored(local: map<string, string>, id: UserId) {
    GetItem(local, BioKey(id)) == Some("true")
  }

  /** This tab has already been unlocked by `id`. */
  predicate UnlockedInSession(session: map<string, string>, id: UserId) {
    GetItem(session, UnlockedKey(id)) == Some("true")
  }

  datatype VaultState = VaultState(
    isLocked: bool,
    hasPin: bool,
    biometrics: bool,
    local: map<string, string>,
    session: map<string, string>)

  /** The provider as mounted: every flag starts `false` (`useState(false)`). */
  function Mounted(local: map<string, string>, session: map<string, string>): VaultState {
    VaultState(false, false, false, local, session)
  }

  /** Nothing outside user `id`'s keys differs between `s` and `r`. */
  predicate OnlyOwnKeys(s: VaultState, r: VaultState, id: UserId) {
    r.local - UserKeys(id) == s.local - UserKeys(id) &&
    r.session - UserKeys(id) == s.session - UserKeys(id)
  }

  /** The effect that runs whenever the user changes. */
  function InitStep(s: VaultState, user: Option<UserId>): (r: VaultState)
    ensures user.None? ==> r == s
    ensures r.local == s.local && r.session == s.session
    ensures user.Some? ==> (r.hasPin <==> PinStored(s.local, user.value))
    ensures user.Some? ==> (r.biometrics <==> BiometricsStored(s.local, user.value))
    ensures user.Some? ==> (r.isLocked <==>
      s.isLocked || (PinStored(s.local, user.value) && !UnlockedInSession(s.session, user.value)))
  {
    match user
    case None => s
    case Some(id) =>
      var savedPin := GetItem(s.local, PinKey(id));
      var bioEnabled := GetItem(s.local, BioKey(id)) == Some("true");
      var isUnlockedInSession := GetItem(s.session, UnlockedKey(id)) == Some("true");
      var s1 := s.(hasPin := Truthy(savedPin), biometrics := bioEnabled);
      if Truthy(savedPin) && !isUnlockedInSession then s1.(isLocked := true) else s1
  }

  /** `lock()` */
  function LockStep(s: VaultState, user: Option<UserId>): (r: VaultState)
    ensures user.None? || !s.hasPin ==> r == s
    ensures user.Some? && s.hasPin ==>
      r == s.(isLocked := true, session := s.session - {UnlockedKey(user.value)})
  {
    if user.Some? && s.hasPin then
      s.(isLocked := true, session := s.session - {UnlockedKey(user.value)})
    else s
  }

  /** `unlock(pin)`: whether it succeeded, and the new state. */
  function UnlockStep(s: VaultState, user: Option<UserId>, pin: string): (r: (bool, VaultState))
    ensures r.0 <==> user.Some? && GetItem(s.local, PinKey(user.value)) == Some(pin)
    ensures r.0 ==> r.1 == s.(isLocked := false, session := s.session[UnlockedKey(user.value) := "true"])
    ensures !r.0 ==> r.1 == s
  {
    match user
    case None => (false, s)
    case Some(id) =>
      var savedPin := GetItem(s.local, PinKey(id));
      if savedPin == Some(pin) then
        (true, s.(isLocked := false, session := s.session[UnlockedKey(id) := "true"]))
      else (false, s)
  }

  /** `setPin(pin)`: a non-empty PIN is stored, the empty one removes the lock. */
  function SetPinStep(s: VaultState, user: Option<UserId>, pin: string): (r: VaultState)
    ensures user.None? ==> r == s
    ensures user.Some? && pin != "" ==>
      r == s.(local := s.local[PinKey(user.value) := pin],
               session := s.session[UnlockedKey(user.value) := "true"],
               hasPin := true)
    ensures user.Some? && pin == "" ==>
      r == s.(local := s.local - {PinKey(user.value)},
               session := s.session - {UnlockedKey(user.value)},
               hasPin := false, isLocked := false)
  {
    match user
    case None => s
    case Some(id) =>
      if pin != "" then
        s.(local := s.local[PinKey(id) := pin], session := s.session[UnlockedKey(id) := "true"], hasPin := true)
      else
        s.(local := s.local - {PinKey(id)}, session := s.session - {UnlockedKey(id)},
           hasPin := false, isLocked := false)
  }

  /** `setBiometricsEnabled(enabled)` */
  function SetBiometricsStep(s: VaultState, user: Option<UserId>, enabled: bool): (r: VaultState)
    ensures user.None? ==> r == s
    ensures user.Some? ==>
      r == s.(local := s.local[BioKey(user.value) := BoolString(enabled)], biometrics := enabled)
  {
    match user
    case None => s
    case Some(id) => s.(local := s.local[BioKey(id) := BoolString(enabled)], biometrics := enabled)
  }

  /** The lock screen is shown over the (blurred) content exactly while locked. */
  function OverlayShown(s: VaultState): (shown: bool)
    ensures shown <==> s.isLocked
  {
    s.isLocked
  }

  // ---------------------------------------------------------------------------
  // Properties of the step functions

  /** Biometrics round trip: the flag written is the flag a later init reads. */
  lemma BiometricsRoundTrip(s: VaultState, id: UserId, enabled: bool)
    ensures InitStep(SetBiometricsStep(s, Some(id), enabled), Some(id)).biometrics == enabled
  {
  }

  /** Unlocking accepts only the stored PIN; with no stored PIN it always fails. */
  lemma UnlockNeedsStoredPin(s: VaultState, user: Option<UserId>, pin: string)
    requires user.None? || PinKey(user.value) !in s.local
    ensures !UnlockStep(s, user, pin).0 && UnlockStep(s, user, pin).1 == s
  {
  }

  /** `lock` is idempotent. */
  lemma LockIdempotent(s: VaultState, user: Option<UserId>)
    ensures LockStep(LockStep(s, user), user) == LockStep(s, user)
  {
  }

  /** No operation touches a key that is not suffixed with the current user's id. */
  lemma OperationsTouchOnlyOwnKeys(s: VaultState, id: UserId, pin: string, enabled: bool)
    ensures OnlyOwnKeys(s, InitStep(s, Some(id)), id)
    ensures OnlyOwnKeys(s, LockStep(s, Some(id)), id)
    ensures OnlyOwnKeys(s, UnlockStep(s, Some(id), pin).1, id)
    ensures OnlyOwnKeys(s, SetPinStep(s, Some(id), pin), id)
    ensures OnlyOwnKeys(s, SetBiometricsStep(s, Some(id), enabled), id)
  {
  }

  /** The keys of two different users are different keys. */
  lemma {:induction false} KeysOfOthersDisjoint(a: UserId, b: UserId)
    requires a != b
    ensures UserKeys(a) !! UserKeys(b)
  {
    PrefixCancel("sd_pin_", a, b);
    PrefixCancel("sd_bio_", a, b);
    PrefixCancel("sd_unlocked_", a, b);
    KindsDiffer(a, b);
    KindsDiffer(b, a);
  }

  lemma PrefixCancel(p: string, a: string, b: string)
    requires a != b
    ensures p + a != p + b
  {
    assert (p + a)[|p|..] == a && (p + b)[|p|..] == b;
  }

  /** Keys of different kinds never coincide: they differ at index 3. */
  lemma KindsDiffer(a: UserId, b: UserId)
    ensures PinKey(a) != BioKey(b) && PinKey(a) != UnlockedKey(b) && BioKey(a) != UnlockedKey(b)
  {
    assert PinKey(a)[3] == 'p' && BioKey(b)[3] == 'b' && UnlockedKey(b)[3] == 'u';
    assert BioKey(a)[3] == 'b';
  }

  /** What init reads for user `b` from the two stores. */
  function Observed(s: VaultState, b: UserId): (bool, bool, bool) {
    (PinStored(s.local, b), BiometricsStored(s.local, b), UnlockedInSession(s.session, b))
  }

  /** Operations performed for user `a` leave everything user `b` observes unchanged. */
  lemma {:induction false} OtherUsersUnaffected(s: VaultState, a: UserId, b: UserId, pin: string, enabled: bool)
    requires a != b
    ensures Observed(LockStep(s, Some(a)), b) == Observed(s, b)
    ensures Observed(UnlockStep(s, Some(a), pin).1, b) == Observed(s, b)
    ensures Observed(SetPinStep(s, Some(a), pin), b) == Observed(s, b)
    ensures Observed(SetBiometricsStep(s, Some(a), enabled), b) == Observed(s, b)
  {
    KeysOfOthersDisjoint(a, b);
  }

  /** A successful unlock survives a re-run of init in the same tab. */
  lemma UnlockSurvivesReinit(s: VaultState, id: UserId, pin: string)
    requires UnlockStep(s, Some(id), pin).0
    ensures !InitStep(UnlockStep(s, Some(id), pin).1, Some(id)).isLocked
  {
  }

  /** A freshly set PIN leaves this tab unlocked but locks the next fresh session. */
  lemma SetPinLocksNextSession(s: VaultState, id: UserId, pin: string)
    requires pin != "" && !s.isLocked
    ensures !InitStep(SetPinStep(s, Some(id), pin), Some(id)).isLocked
    ensures InitStep(Mounted(SetPinStep(s, Some(id), pin).local, map[]), Some(id)).isLocked
  {
  }

  /** Disabling the PIN unlocks now and in every later session of that user. */
  lemma ClearPinUnlocksForGood(s: VaultState, id: UserId, session: map<string, string>)
    ensures var r := InitStep(Mounted(SetPinStep(s, Some(id), "").local, session), Some(id));
            !r.isLocked && !r.hasPin
  {
  }

  /**
   * For a fixed user, `hasPin` and `isBiometricsEnabled` mirror the persistent
   * store and the vault is locked only while a PIN exists.
   */
  predicate Coherent(s: VaultState, id: UserId) {
    (s.hasPin <==> PinStored(s.local, id)) &&
    (s.biometrics <==> BiometricsStored(s.local, id)) &&
    (s.isLocked ==> s.hasPin)
  }

  /** The first init establishes coherence and every operation preserves it. */
  lemma CoherenceKept(s: VaultState, id: UserId, pin: string, enabled: bool,
                      local: map<string, string>, session: map<string, string>)
    ensures Coherent(InitStep(Mounted(local, session), Some(id)), id)
    ensures Coherent(s, id) ==> Coherent(InitStep(s, Some(id)), id)
    ensures Coherent(s, id) ==> Coherent(LockStep(s, Some(id)), id)
    ensures Coherent(s, id) ==> Coherent(UnlockStep(s, Some(id), pin).1, id)
    ensures Coherent(s, id) ==> Coherent(SetPinStep(s, Some(id), pin), id)
    ensures Coherent(s, id) ==> Coherent(SetBiometricsStep(s, Some(id), enabled), id)
  {
    KindsDiffer(id, id);
  }

  /**
   * In a coherent state the lock screen covers the vault only while a PIN is
   * stored; the right PIN and disabling the PIN both take it away.
   */
  lemma OverlayShownOnlyWithPin(s: VaultState, id: UserId, pin: string)
    requires Coherent(s, id)
    ensures OverlayShown(s) ==> PinStored(s.local, id) && s.hasPin
    ensures UnlockStep(s, Some(id), pin).0 ==> !OverlayShown(UnlockStep(s, Some(id), pin).1)
    ensures !OverlayShown(SetPinStep(s, Some(id), ""))
    ensures OverlayShown(LockStep(s, Some(id))) <==> PinStored(s.local, id)
  {
  }

  /** lock, a wrong PIN, and the right PIN, in that order. */
  lemma {:induction false} LockUnlockScenario(local: map<string, string>, session: map<string, string>)
    ensures
      var id := "A";
      var s0 := InitStep(Mounted(local, session), Some(id));
      var s1 := SetPinStep(s0, Some(id), "482913");
      var (ok1, s2) := UnlockStep(s1, Some(id), "482913");
      var s3 := LockStep(s2, Some(id));
      var (ok2, s4) := UnlockStep(s3, Some(id), "000000");
      var (ok3, s5) := UnlockStep(s4, Some(id), "482913");
      ok1 && !s2.isLocked && s3.isLocked && !ok2 && s4.isLocked && ok3 && !s5.isLocked
  {
    var id := "A";
    var s0 := InitStep(Mounted(local, session), Some(id));
    var s1 := SetPinStep(s0, Some(id), "482913");
    assert GetItem(s1.local, PinKey(id)) == Some("482913");
    assert "000000" != "482913" by { assert "000000"[0] != "482913"[0]; }
  }

  // ---------------------------------------------------------------------------
  // The provider as an object

  class VaultLock {
    var user: Option<UserId>
    var isLocked: bool
    var hasPin: bool
    var isBiometricsEnabled: bool
    var local: map<string, string>
    var session: map<string, string>

    function State(): VaultState
      reads this
    {
      VaultState(isLocked, hasPin, isBiometricsEnabled, local, session)
    }

    /** Mounting the provider: flags start false, then the init effect runs. */
    constructor (user: Option<UserId>, local: map<string, string>, session: map<string, string>)
      ensures this.user == user
      ensures State() == InitStep(Mounted(local, session), user)
    {
      this.user := user;
      this.isLocked, this.hasPin, this.isBiometricsEnabled := false, false, false;
      this.local, this.session := local, session;
      new;
      Init();
    }

    /** The init effect, run on mount and whenever `user` changes. */
    method Init()
      modifies this
      ensures user == old(user)
      ensures State() == InitStep(old(State()), user)
      ensures old(isLocked) ==> isLocked
    {
      if user.Some? {
        var id := user.value;
        var savedPin := GetItem(local, PinKey(id));
        var bioEnabled := GetItem(local, BioKey(id)) == Some("true");
        var isUnlockedInSession := GetItem(session, UnlockedKey(id)) == Some("true");
        hasPin := Truthy(savedPin);
        isBiometricsEnabled := bioEnabled;
        if Truthy(savedPin) && !isUnlockedInSession {
          isLocked := true;
        }
      }
    }

    /** The user query produced a different user: the init effect re-runs. */
    method ChangeUser(u: Option<UserId>)
      modifies this
      ensures user == u
      ensures State() == InitStep(old(State()), u)
    {
      user := u;
      Init();
    }

    method Lock()
      modifies this
      ensures user == old(user)
      ensures State() == LockStep(old(State()), user)
    {
      if user.Some? && hasPin {
        session := session - {UnlockedKey(user.value)};
        isLocked := true;
      }
    }

    method Unlock(pin: string) returns (ok: bool)
      modifies this
      ensures user == old(user)
      ensures ok <==> user.Some? && GetItem(old(local), PinKey(user.value)) == Some(pin)
      ensures (ok, State()) == UnlockStep(old(State()), user, pin)
    {
      if user.None? {
        return false;
      }
      var savedPin := GetItem(local, PinKey(user.value));
      if savedPin == Some(pin) {
        session := session[UnlockedKey(user.value) := "true"];
        isLocked := false;
        return true;
      }
      return false;
    }

    method SetPin(pin: string)
      modifies this
      ensures user == old(user)
      ensures State() == SetPinStep(old(State()), user, pin)
    {
      if user.None? {
        return;
      }
      if pin != "" {
        local := local[PinKey(user.value) := pin];
        session := session[UnlockedKey(user.value) := "true"];
        hasPin := true;
      } else {
        local := local - {PinKey(user.value)};
        session := session - {UnlockedKey(user.value)};
        hasPin := false;
        isLocked := false;
      }
    }

    method SetBiometricsEnabled(enabled: bool)
      modifies this
      ensures user == old(user)
      ensures State() == SetBiometricsStep(old(State()), user, enabled)
    {
      if user.None? {
        return;
      }
      local := local[BioKey(user.value) := BoolString(enabled)];
      isBiometricsEnabled := enabled;
    }
  }
}
