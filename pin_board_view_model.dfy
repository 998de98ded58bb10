/**
 * The passcode screen's view model (MVVM/ViewModel/PinBoardViewModel.swift):
 * a buffer of at most four digits, the number pad's visibility, and the
 * calls it forwards to the authenticator.
 */
module PinBoardViewModel {
  import opened Wrappers
  import opened GlobalConstants
  import opened Interpolation
  import Auth = Authenticator
  import Service = AuthenticatorService

  /** The buffer after `onAddValue(value)`: appended only while below the length. */
  function AfterAdd(passcode: string, value: int): string
  {
    if |passcode| < PasscodeLength then passcode + Description(value) else passcode
  }

  /** The buffer after `onRemoveValue`: the last character dropped, if any. */
  function AfterRemove(passcode: string): string
  {
    if |passcode| > 0 then passcode[..|passcode| - 1] else passcode
  }

  /** A buffer the number pad can produce: at most four digits. */
  predicate IsPadBuffer(passcode: string)
  {
    |passcode| <= PasscodeLength && forall i :: 0 <= i < |passcode| ==> IsDigit(passcode[i])
  }

  /** Pad keys (0-9) keep the buffer a buffer of at most four digits, growing it by one below four. */
  lemma AddKeepsPadBuffer(passcode: string, d: int)
    requires IsPadBuffer(passcode) && 0 <= d <= 9
    ensures IsPadBuffer(AfterAdd(passcode, d))
    ensures |passcode| < PasscodeLength ==> AfterAdd(passcode, d) == passcode + [DigitChar(d)]
    ensures |passcode| == PasscodeLength ==> AfterAdd(passcode, d) == passcode
  {
    DigitDescription(d);
  }

  lemma RemoveKeepsPadBuffer(passcode: string)
    requires IsPadBuffer(passcode)
    ensures IsPadBuffer(AfterRemove(passcode))
    ensures |AfterRemove(passcode)| == if |passcode| > 0 then |passcode| - 1 else 0
  {
  }

  /** Adding a pad digit and removing it restores the buffer, below four digits. */
  lemma AddThenRemove(passcode: string, d: int)
    requires |passcode| < PasscodeLength && 0 <= d <= 9
    ensures AfterRemove(AfterAdd(passcode, d)) == passcode
  {
    DigitDescription(d);
    assert AfterAdd(passcode, d) == passcode + [DigitChar(d)];
  }

  /**
   * The length guard is checked before appending, so the bound rests on the
   * pad sending single digits: a value of two digits overshoots it.
   */
  lemma WideValueOvershoots()
    ensures |AfterAdd("123", 10)| == PasscodeLength + 1
  {
    assert Description(10) == NatDescription(1) + [DigitChar(0)];
  }

  class PinBoardViewModel {
    var passcode: string
    var hideNumberPad: bool
    const authenticator: Auth.Authenticator

    constructor(authenticator: Auth.Authenticator)
      ensures passcode == "" && hideNumberPad && this.authenticator == authenticator
    {
      passcode := "";
      hideNumberPad := true;
      this.authenticator := authenticator;
    }

    /** The forwarded `isAuthenticated` property. */
    function IsAuthenticated(): bool
      reads authenticator
    {
      authenticator.isAuthenticated
    }

    function IsBiometricLocked(): bool
      reads authenticator
    {
      authenticator.isBiometricLocked
    }

    function BiometryType(contextType: Service.LABiometryType): Service.BiometricType
    {
      Service.BiometryTypeOf(contextType)
    }

    /** `registerPasscode`: the buffer is handed on only when it holds four digits. */
    method RegisterPasscode(biometricAvailable: bool, key: string)
      requires authenticator.Valid()
      modifies authenticator
      ensures authenticator.Valid() && authenticator.Lock() == old(authenticator.Lock())
      ensures !(|passcode| == PasscodeLength && biometricAvailable) ==>
                authenticator.defaults == old(authenticator.defaults)
                && authenticator.isAuthenticated == old(authenticator.isAuthenticated)
      ensures |passcode| == PasscodeLength && biometricAvailable ==>
                authenticator.defaults == Auth.StorePasscode(authenticator.cipher, old(authenticator.defaults), passcode, key)
                && authenticator.isAuthenticated
    {
      if |passcode| != PasscodeLength {
        return;
      }
      authenticator.SetPasscodeWith(passcode, biometricAvailable, key);
    }

    /** `verifyPasscode`: false without asking the authenticator unless four digits are entered. */
    method VerifyPasscode() returns (success: bool)
      requires authenticator.Valid()
      modifies authenticator
      ensures authenticator.Valid() && authenticator.defaults == old(authenticator.defaults)
      ensures authenticator.isPassCodeSet == old(authenticator.isPassCodeSet)
      ensures |passcode| != PasscodeLength ==>
                !success && authenticator.Lock() == old(authenticator.Lock())
                && authenticator.isAuthenticated == old(authenticator.isAuthenticated)
      ensures |passcode| == PasscodeLength ==>
                (success <==> Auth.DecryptUserPasscode(authenticator.cipher, authenticator.defaults) == Some(passcode))
                && authenticator.isAuthenticated == success
      ensures |passcode| == PasscodeLength && Auth.DecryptUserPasscode(authenticator.cipher, authenticator.defaults).Some? ==>
                authenticator.Lock() == Service.Unlocked
      ensures |passcode| == PasscodeLength && Auth.DecryptUserPasscode(authenticator.cipher, authenticator.defaults).None? ==>
                authenticator.Lock() == old(authenticator.Lock())
    {
      if |passcode| != PasscodeLength {
        return false;
      }
      success := authenticator.VerifyPin(passcode);
    }

    method OnAddValue(value: int)
      modifies this
      ensures passcode == AfterAdd(old(passcode), value) && hideNumberPad == old(hideNumberPad)
    {
      if |passcode| < PasscodeLength {
        passcode := passcode + Description(value);
      }
    }

    method OnRemoveValue()
      modifies this
      ensures passcode == AfterRemove(old(passcode)) && hideNumberPad == old(hideNumberPad)
    {
      if |passcode| > 0 {
        passcode := passcode[..|passcode| - 1];
      }
    }

    /** `onDissmis`: the pad is hidden. */
    method OnDismiss()
      modifies this
      ensures hideNumberPad && passcode == old(passcode)
    {
      hideNumberPad := true;
    }

    method ShowNumPad()
      modifies this
      ensures !hideNumberPad && passcode == old(passcode)
    {
      hideNumberPad := false;
    }

    /**
     * `unlockWithFaceId`, forwarded: nothing happens without biometrics, when
     * they cannot be evaluated, or once they are locked; a successful
     * evaluation signs in exactly when the stored passcode decrypts, and a
     * failed one counts as a failed attempt.
     */
    method UnlockWithFaceId(available: bool, canEvaluate: bool, error: Option<Service.PolicyError>, success: bool)
      requires authenticator.Valid()
      modifies authenticator
      ensures authenticator.Valid() && authenticator.defaults == old(authenticator.defaults)
      ensures authenticator.isPassCodeSet == old(authenticator.isPassCodeSet)
      ensures !available || old(authenticator.isBiometricLocked) || !canEvaluate ==>
                authenticator.Lock() == old(authenticator.Lock())
                && authenticator.isAuthenticated == old(authenticator.isAuthenticated)
      ensures available && !old(authenticator.isBiometricLocked) && canEvaluate && success ==>
                authenticator.Lock() == old(authenticator.Lock())
                && (authenticator.isAuthenticated <==>
                      Auth.DecryptUserPasscode(authenticator.cipher, authenticator.defaults).Some?)
      ensures available && !old(authenticator.isBiometricLocked) && canEvaluate && !success ==>
                authenticator.Lock() == Auth.AttemptFailed(old(authenticator.Lock()))
                && authenticator.isAuthenticated == old(authenticator.isAuthenticated)
    {
      var _ := authenticator.UnlockWithFaceId(available, canEvaluate, error, success);
    }

    /** The buffer emptied, the pad hidden and the user signed out. */
    method ResetAuthenticationState()
      modifies this, authenticator
      ensures passcode == "" && hideNumberPad && !authenticator.isAuthenticated
      ensures authenticator.Lock() == old(authenticator.Lock()) && authenticator.defaults == old(authenticator.defaults)
    {
      passcode := "";
      hideNumberPad := true;
      authenticator.isAuthenticated := false;
    }
  }
}
