/**
 * Kiosk mode: an optional unlock code gates leaving the mode, an active flag records whether the
 * mode is on, and while it is on the system keys HOME, APP_SWITCH and MENU are swallowed.
 *
 * The platform calls the service makes (starting and stopping lock-task mode, window flags, the
 * `ActivityManager` query) are inputs: `LockTaskStart` says how `startLockTask` ended, and the
 * lock-task query is an `Option<bool>` that is `None` when the platform is too old for it or the
 * query throws. Blocks posted with `runOnUiThread` run at once.
 */
module KioskService {
  import opened KotlinTypes

  /** Android's `KeyEvent.KEYCODE_HOME`, `KEYCODE_MENU` and `KEYCODE_APP_SWITCH`. */
  const KeyCodeHome: Int32 := 3
  const KeyCodeMenu: Int32 := 82
  const KeyCodeAppSwitch: Int32 := 187

  /** The keys kiosk mode swallows. */
  predicate IsSystemKey(keyCode: Int32) {
    keyCode == KeyCodeHome || keyCode == KeyCodeAppSwitch || keyCode == KeyCodeMenu
  }

  /** How `activity.startLockTask()` ended: it started, it threw `SecurityException`, or it threw anything else. */
  datatype LockTaskStart = Started | Refused | Failed

  /** The service's two fields. */
  datatype KioskState = KioskState(unlockCode: Option<string>, active: bool)

  /** A new or disposed service: no code, not active. */
  const Idle := KioskState(None, false)

  /**
   * The state `enable` leaves: the code is always replaced first; the mode ends active unless
   * screen pinning was asked for and `startLockTask` threw something other than a
   * `SecurityException`, which propagates before the flag is set.
   */
  function EnableStep(s: KioskState, unlockCode: Option<string>, enableScreenPinning: bool, start: LockTaskStart): (r: KioskState)
    ensures r.unlockCode == unlockCode
    ensures !(enableScreenPinning && start == Failed) ==> r.active
    ensures enableScreenPinning && start == Failed ==> r.active == s.active
  {
    if enableScreenPinning && start == Failed then s.(unlockCode := unlockCode) else KioskState(unlockCode, true)
  }

  /** Whether `disable` lets the caller out: no code was configured, or the given one matches it. */
  predicate Unlocks(s: KioskState, providedCode: Option<string>) {
    s.unlockCode == None || s.unlockCode == providedCode
  }

  /** The state `disable` leaves: unchanged when refused, otherwise inactive with the code cleared. */
  function DisableStep(s: KioskState, providedCode: Option<string>): (r: KioskState)
    ensures !Unlocks(s, providedCode) ==> r == s
    ensures Unlocks(s, providedCode) ==> r == Idle
  {
    if Unlocks(s, providedCode) then Idle else s
  }

  /** `isActive()`: the platform's lock-task answer when there is one, otherwise the stored flag. */
  function ActiveNow(s: KioskState, lockTaskMode: Option<bool>): (r: bool)
    ensures lockTaskMode.Some? ==> r == lockTaskMode.value
    ensures lockTaskMode.None? ==> r == s.active
  {
    lockTaskMode.GetOr(s.active)
  }

  /** `shouldBlockKey`: only while kiosk mode is on, and then only the system keys. */
  function BlocksKey(s: KioskState, lockTaskMode: Option<bool>, keyCode: Int32): (r: bool)
    ensures !ActiveNow(s, lockTaskMode) ==> !r
    ensures ActiveNow(s, lockTaskMode) ==> (r <==> keyCode in {KeyCodeHome, KeyCodeAppSwitch, KeyCodeMenu})
  {
    if !ActiveNow(s, lockTaskMode) then false
    else keyCode == KeyCodeHome || keyCode == KeyCodeAppSwitch || keyCode == KeyCodeMenu
  }

  /** The wrong code changes nothing: a configured code refuses any other value, `null` included. */
  lemma WrongCodeKeepsKiosk(s: KioskState, providedCode: Option<string>)
    requires s.unlockCode.Some? && providedCode != s.unlockCode
    ensures !Unlocks(s, providedCode) && DisableStep(s, providedCode) == s
  {
  }

  /** Without a configured code, any value unlocks, `null` included. */
  lemma NoCodeAlwaysUnlocks(s: KioskState, providedCode: Option<string>)
    requires s.unlockCode.None?
    ensures Unlocks(s, providedCode) && DisableStep(s, providedCode) == Idle
  {
  }

  /**
   * Enabling with a code and disabling with the same code returns to the idle state, whatever
   * came before; disabling with another code leaves the kiosk on, holding the code.
   */
  lemma EnableThenDisable(s: KioskState, code: Option<string>, other: Option<string>, pinning: bool, start: LockTaskStart)
    requires !(pinning && start == Failed)
    ensures DisableStep(EnableStep(s, code, pinning, start), code) == Idle
    ensures code.Some? && other != code ==>
      DisableStep(EnableStep(s, code, pinning, start), other) == KioskState(code, true)
  {
  }

  /**
   * While the stored flag decides (no lock-task answer), an enabled kiosk blocks exactly the
   * system keys and a disabled or disposed one blocks none.
   */
  lemma BlockingFollowsLifecycle(s: KioskState, code: Option<string>, pinning: bool, start: LockTaskStart, keyCode: Int32)
    requires !(pinning && start == Failed)
    ensures BlocksKey(EnableStep(s, code, pinning, start), None, keyCode) <==> IsSystemKey(keyCode)
    ensures !BlocksKey(DisableStep(EnableStep(s, code, pinning, start), code), None, keyCode)
    ensures !BlocksKey(Idle, None, keyCode)
  {
  }

  /** `dispose` is idempotent: disposing an idle service leaves it idle, as does unlocking it. */
  lemma IdleIsStable(providedCode: Option<string>)
    ensures DisableStep(Idle, providedCode) == Idle
    ensures !ActiveNow(Idle, None)
  {
  }

  class KioskService {
    var unlockCode: Option<string>
    var isActive: bool

    function State(): KioskState
      reads this
    {
      KioskState(unlockCode, isActive)
    }

    constructor ()
      ensures State() == Idle
    {
      unlockCode := None;
      isActive := false;
    }

    /**
     * `enable`: stores the code, then (screen pinning asked for) tries lock-task mode, and sets
     * the flag. `threw` is the non-`SecurityException` failure of `startLockTask`, rethrown.
     */
    method Enable(unlockCode: Option<string>, enableScreenPinning: bool, start: LockTaskStart) returns (threw: bool)
      modifies this
      ensures threw <==> enableScreenPinning && start == Failed
      ensures State() == EnableStep(old(State()), unlockCode, enableScreenPinning, start)
    {
      this.unlockCode := unlockCode;
      threw := false;
      if enableScreenPinning {
        match start
        case Started =>
          isActive := true;
        case Refused =>
        case Failed =>
          threw := true;
          return;
      }
      isActive := true;
    }

    /** `disable`: refuses a wrong code; otherwise leaves lock-task mode, clears the flag and the code. */
    method Disable(providedCode: Option<string>) returns (ok: bool)
      modifies this
      ensures ok <==> Unlocks(old(State()), providedCode)
      ensures State() == DisableStep(old(State()), providedCode)
    {
      if unlockCode != None && unlockCode != providedCode {
        return false;
      }
      isActive := false;
      unlockCode := None;
      return true;
    }

    /** `isActive()`. */
    function IsActive(lockTaskMode: Option<bool>): (r: bool)
      reads this
      ensures r == ActiveNow(State(), lockTaskMode)
    {
      match lockTaskMode
      case Some(inLockTask) => inLockTask
      case None => isActive
    }

    /** `shouldBlockKey`. */
    function ShouldBlockKey(keyCode: Int32, lockTaskMode: Option<bool>): (r: bool)
      reads this
      ensures r == BlocksKey(State(), lockTaskMode, keyCode)
    {
      if !IsActive(lockTaskMode) then false
      else keyCode == KeyCodeHome || keyCode == KeyCodeAppSwitch || keyCode == KeyCodeMenu
    }

    /** `dispose`: clears the code and the flag. */
    method Dispose()
      modifies this
      ensures State() == Idle
    {
      unlockCode := None;
      isActive := false;
    }
  }
}
