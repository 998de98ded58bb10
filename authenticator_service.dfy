/**
 * The passcode and biometric authenticator of Services/AuthenticatorService.swift.
 * LocalAuthentication's answers and the UUID and nonce the service draws
 * are inputs; the preference store is a map from key to string.
 */
module AuthenticatorService {
  import opened Wrappers
  import opened Utf8
  import opened Crypto
  import opened AESEncryptionService
  import opened GlobalConstants

  datatype BiometricType = NoBiometry | TouchID | FaceID | OpticID

  /** `LAContext.biometryType`; `LAUnknown` stands for any case added later. */
  datatype LABiometryType = LANone | LATouchID | LAFaceID | LAOpticID | LAUnknown

  /** The `biometryType` property: each known kind maps to itself, all else to none. */
  function BiometryTypeOf(t: LABiometryType): (r: BiometricType)
    ensures r.NoBiometry? <==> (t.LANone? || t.LAUnknown?)
    ensures r.TouchID? <==> t.LATouchID?
    ensures r.FaceID? <==> t.LAFaceID?
    ensures r.OpticID? <==> t.LAOpticID?
  {
    match t
    case LATouchID => TouchID
    case LAFaceID => FaceID
    case LAOpticID => OpticID
    case _ => NoBiometry
  }

  datatype LAErrorCode = BiometryNotAvailable | BiometryNotEnrolled | BiometryLockout | OtherLAError(code: int)

  /** The error `canEvaluatePolicy` fills in: an `LAError` or an error of another domain. */
  datatype PolicyError = LAError(code: LAErrorCode) | ForeignError

  const UnidentifiedErrorMessage: string := "Unidentified error"

  /** The message `handleLaError` reports for an `LAError` code. */
  function ErrorMessage(code: LAErrorCode): string
  {
    match code
    case BiometryNotAvailable => "Your device does not supported biometric"
    case BiometryNotEnrolled => "Biometric lock is not set please set it first."
    case BiometryLockout => "Biometric is locked try entering passcode manually."
    case OtherLAError(_) => UnidentifiedErrorMessage
  }

  /** Each of the three known codes has its own message, and only other codes are unidentified. */
  lemma ErrorMessageIdentifiesCode(a: LAErrorCode, b: LAErrorCode)
    ensures ErrorMessage(a) == ErrorMessage(b) ==> a == b || (a.OtherLAError? && b.OtherLAError?)
    ensures ErrorMessage(a) == UnidentifiedErrorMessage <==> a.OtherLAError?
  {
  }

  /** What `handleLaError` hands the delegate: nothing for an error that is not an `LAError`. */
  function ReportedFailure(error: PolicyError): (r: Option<string>)
    ensures r.Some? <==> error.LAError?
    ensures r.Some? ==> r.value == ErrorMessage(error.code)
  {
    match error
    case LAError(code) => Some(ErrorMessage(code))
    case ForeignError => None
  }

  /** This version's preference key for the encryption key. */
  const UserDefaultSecretKey: string := "secret key"
  const MaxFailedAttemptAllowed: nat := 3

  /** `UserDefaults.setValue(_:forKey:)`: a nil value removes the key. */
  function SetValue(defaults: map<string, string>, key: string, value: Option<string>): (r: map<string, string>)
    ensures key in r <==> value.Some?
    ensures value.Some? ==> r[key] == value.value
    ensures forall k :: k != key ==> (k in r <==> k in defaults)
    ensures forall k :: k != key && k in r ==> r[k] == defaults[k]
  {
    match value
    case Some(v) => defaults[key := v]
    case None => defaults - {key}
  }

  /**
   * `decryptUserPasscode`: the stored ciphertext decrypted with the stored
   * key, where both entries are present.
   */
  function DecryptUserPasscode(p: Primitives, defaults: map<string, string>, secretKey: string): (r: Option<string>)
    ensures UserDefaultPasscodeKey !in defaults || secretKey !in defaults ==> r.None?
  {
    if UserDefaultPasscodeKey !in defaults then None
    else if secretKey !in defaults then None
    else Decrypt(p, defaults[UserDefaultPasscodeKey], defaults[secretKey])
  }

  /** The store after `setPasscodeWith` writes the ciphertext and the key. */
  function StorePasscode(p: Primitives, defaults: map<string, string>, code: string, key: string, nonce: Bytes, secretKey: string): (r: map<string, string>)
    ensures secretKey in r && r[secretKey] == key
    ensures secretKey != UserDefaultPasscodeKey ==> UserDefaultPasscodeKey in r
    ensures forall k :: k != UserDefaultPasscodeKey && k != secretKey ==>
              (k in r <==> k in defaults) && (k in r ==> r[k] == defaults[k])
  {
    SetValue(SetValue(defaults, UserDefaultPasscodeKey, Encrypt(p, code, key, nonce)), secretKey, Some(key))
  }

  /** A passcode just stored decrypts back to itself, whatever key was drawn. */
  lemma DecryptStoredPasscode(p: Primitives, defaults: map<string, string>, code: string, key: string, nonce: Bytes, secretKey: string)
    requires Lawful(p) && secretKey != UserDefaultPasscodeKey
    ensures DecryptUserPasscode(p, StorePasscode(p, defaults, code, key, nonce, secretKey), secretKey) == Some(code)
  {
    DefaultKeySizeIsAes();
    DecryptEncrypt(p, code, key, nonce, DefaultKeySize);
  }

  /** After both entries are removed there is nothing to decrypt. */
  lemma NothingStoredAfterRemoval(p: Primitives, defaults: map<string, string>, secretKey: string)
    ensures DecryptUserPasscode(p, defaults - {UserDefaultPasscodeKey, secretKey}, secretKey).None?
  {
  }

  /** The counter and the lock flag. */
  datatype Lockout = Lockout(failedAttempt: nat, isBiometricLocked: bool)

  const Unlocked := Lockout(0, false)

  /** The lock flag says whether the counter has reached the maximum. */
  predicate Consistent(s: Lockout)
  {
    s.isBiometricLocked <==> s.failedAttempt >= MaxFailedAttemptAllowed
  }

  /** A failed biometric evaluation: one more attempt, locked from the third on. */
  function Failed(s: Lockout): (r: Lockout)
    ensures r.failedAttempt == s.failedAttempt + 1 && Consistent(r)
  {
    Lockout(s.failedAttempt + 1, s.failedAttempt + 1 >= MaxFailedAttemptAllowed)
  }

  function FailedTimes(s: Lockout, n: nat): Lockout
  {
    if n == 0 then s else Failed(FailedTimes(s, n - 1))
  }

  /** From the reset state, `n` failures leave the counter at `n`, locked from the third on. */
  lemma {:induction false} FailuresFromUnlocked(n: nat)
    ensures FailedTimes(Unlocked, n) == Lockout(n, n >= MaxFailedAttemptAllowed)
  {
    if n > 0 {
      FailuresFromUnlocked(n - 1);
    }
  }

  /** Once locked, further failures keep it locked. */
  lemma {:induction false} LockStaysOn(s: Lockout, n: nat)
    requires Consistent(s) && s.isBiometricLocked
    ensures FailedTimes(s, n).isBiometricLocked && FailedTimes(s, n).failedAttempt == s.failedAttempt + n
  {
    if n > 0 {
      LockStaysOn(s, n - 1);
    }
  }

  class Authenticator {
    const primitives: Primitives
    var isAuthenticated: bool
    var isPassCodeSet: bool
    var isBiometricLocked: bool
    var failedAttempt: nat
    /** How many times the `LAContext` has been replaced by a fresh one. */
    var contextGeneration: nat
    /** The standard `UserDefaults`, string values only. */
    var defaults: map<string, string>

    function Lock(): Lockout
      reads this
    {
      Lockout(failedAttempt, isBiometricLocked)
    }

    predicate Valid()
      reads this
    {
      Consistent(Lock())
    }

    /** `init`: `credentialSet` is the context's answer for the application password. */
    constructor(primitives: Primitives, defaults: map<string, string>, credentialSet: bool)
      ensures Valid() && Lock() == Unlocked && !isAuthenticated && isPassCodeSet == !credentialSet
      ensures this.primitives == primitives && this.defaults == defaults && contextGeneration == 0
    {
      this.primitives := primitives;
      this.defaults := defaults;
      isAuthenticated := false;
      isBiometricLocked := false;
      failedAttempt := 0;
      contextGeneration := 0;
      isPassCodeSet := !credentialSet;
    }

    /** `resetFailCount`: counter and lock cleared, and a fresh context. */
    method ResetFailCount()
      modifies this
      ensures Valid() && Lock() == Unlocked && contextGeneration == old(contextGeneration) + 1
      ensures isAuthenticated == old(isAuthenticated) && defaults == old(defaults) && isPassCodeSet == old(isPassCodeSet)
    {
      failedAttempt := 0;
      isBiometricLocked := false;
      contextGeneration := contextGeneration + 1;
    }

    method LogOut()
      modifies this
      ensures Valid() && Lock() == Unlocked && !isAuthenticated
      ensures defaults == old(defaults) && isPassCodeSet == old(isPassCodeSet)
    {
      isAuthenticated := false;
      ResetFailCount();
    }

    /**
     * `setPasscodeWith`: when biometrics are available, the passcode
     * encrypted under a fresh UUID `key` is stored with that key, and the
     * user counts as authenticated.
     */
    method SetPasscodeWith(code: string, biometricAvailable: bool, key: string, nonce: Bytes)
      requires Valid()
      modifies this
      ensures Valid() && Lock() == old(Lock()) && isPassCodeSet == old(isPassCodeSet)
      ensures !biometricAvailable ==> defaults == old(defaults) && isAuthenticated == old(isAuthenticated)
      ensures biometricAvailable ==> defaults == StorePasscode(primitives, old(defaults), code, key, nonce, UserDefaultSecretKey)
                                     && isAuthenticated
    {
      if !biometricAvailable {
        return;
      }
      var encryptedPasscode := Encrypt(primitives, code, key, nonce);
      defaults := SetValue(defaults, UserDefaultPasscodeKey, encryptedPasscode);
      defaults := SetValue(defaults, UserDefaultSecretKey, Some(key));
      isAuthenticated := true;
    }

    /**
     * `verifyPin`: false when nothing decrypts; otherwise whether the
     * stored passcode is `pin`, and the counter is reset.
     */
    method VerifyPin(pin: string) returns (success: bool)
      requires Valid()
      modifies this
      ensures Valid() && defaults == old(defaults) && isPassCodeSet == old(isPassCodeSet)
      ensures success <==> DecryptUserPasscode(primitives, defaults, UserDefaultSecretKey) == Some(pin)
      ensures isAuthenticated == success
      ensures DecryptUserPasscode(primitives, defaults, UserDefaultSecretKey).None? ==> Lock() == old(Lock())
      ensures DecryptUserPasscode(primitives, defaults, UserDefaultSecretKey).Some? ==> Lock() == Unlocked
    {
      var storedPasscode := DecryptUserPasscode(primitives, defaults, UserDefaultSecretKey);
      if storedPasscode.None? {
        isAuthenticated := false;
        return false;
      }
      success := storedPasscode.value == pin;
      isAuthenticated := success;
      ResetFailCount();
    }

    /** `onResetPin`: both entries removed and the counter reset. */
    method OnResetPin()
      modifies this
      ensures Valid() && Lock() == Unlocked
      ensures defaults == old(defaults) - {UserDefaultPasscodeKey, UserDefaultSecretKey}
      ensures DecryptUserPasscode(primitives, defaults, UserDefaultSecretKey).None?
      ensures isAuthenticated == old(isAuthenticated)
    {
      defaults := defaults - {UserDefaultPasscodeKey};
      defaults := defaults - {UserDefaultSecretKey};
      ResetFailCount();
    }

    /**
     * `unlockBiometry`, that is `authenticate`. `available` and
     * `canEvaluate` are the context's two answers for the owner policy,
     * `error` the error the second one fills in, and `success` the
     * evaluation's outcome; `failure` is what reaches the delegate.
     */
    method UnlockBiometry(available: bool, canEvaluate: bool, error: Option<PolicyError>, success: bool)
      returns (failure: Option<string>)
      requires Valid()
      modifies this
      ensures Valid() && defaults == old(defaults) && isPassCodeSet == old(isPassCodeSet)
      ensures contextGeneration == old(contextGeneration)
      ensures !(available && canEvaluate) ==> Lock() == old(Lock()) && isAuthenticated == old(isAuthenticated)
      ensures !available ==> failure.None?
      ensures available && !canEvaluate ==> failure == (if error.Some? then ReportedFailure(error.value) else None)
      ensures available && canEvaluate ==> failure.None?
      ensures available && canEvaluate && success ==>
                Lock() == old(Lock()) && (isAuthenticated <==> DecryptUserPasscode(primitives, defaults, UserDefaultSecretKey).Some?)
      ensures available && canEvaluate && !success ==> Lock() == Failed(old(Lock())) && isAuthenticated == old(isAuthenticated)
    {
      failure := None;
      if !available {
        return;
      }
      if canEvaluate {
        if success {
          var passcode := DecryptUserPasscode(primitives, defaults, UserDefaultSecretKey);
          isAuthenticated := passcode.Some?;
        } else {
          failedAttempt := failedAttempt + 1;
          isBiometricLocked := failedAttempt >= MaxFailedAttemptAllowed;
        }
      } else if error.Some? {
        failure := ReportedFailure(error.value);
      }
    }

    /** The `biometryType` property for the context's current answer. */
    function BiometryType(contextType: LABiometryType): BiometricType
    {
      BiometryTypeOf(contextType)
    }
  }

  /** Storing a passcode and then verifying the same digits succeeds. */
  method SetThenVerify(a: Authenticator, code: string, key: string, nonce: Bytes) returns (success: bool)
    requires a.Valid() && Lawful(a.primitives)
    modifies a
    ensures success && a.isAuthenticated && a.Lock() == Unlocked
  {
    a.SetPasscodeWith(code, true, key, nonce);
    DecryptStoredPasscode(a.primitives, old(a.defaults), code, key, nonce, UserDefaultSecretKey);
    success := a.VerifyPin(code);
  }

  /** After `onResetPin` no pin verifies. */
  method ResetThenVerify(a: Authenticator, pin: string) returns (success: bool)
    requires a.Valid()
    modifies a
    ensures !success && !a.isAuthenticated && a.Lock() == Unlocked
  {
    a.OnResetPin();
    success := a.VerifyPin(pin);
  }
}
