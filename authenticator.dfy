/**
 * The earlier authenticator of Service/Authenticator.swift, the one the view
 * model drives. It differs from the later one in three ways: `authenticate`
 * does nothing once biometrics are locked, the evaluation uses the
 * biometrics-only policy, and the cipher is `AESEncryptionManager`, whose
 * source is not part of this model and which is therefore a parameter.
 */
module Authenticator {
  import opened Wrappers
  import opened Utf8
  import opened Crypto
  import opened GlobalConstants
  import AESEncryptionService
  import Service = AuthenticatorService

  /** `AESEncryptionManager.encrypt(plainText:key:)` and `decrypt(encryptedText:key:)`. */
  datatype Cipher = Cipher(encrypt: (string, string) -> Option<string>, decrypt: (string, string) -> Option<string>)

  /** What the authenticator relies on: decrypting with the same key undoes encrypting. */
  ghost predicate RoundTrips(c: Cipher)
  {
    forall text, key :: c.encrypt(text, key).Some? ==> c.decrypt(c.encrypt(text, key).value, key) == Some(text)
  }

  /** The later encryption service, with the nonce fixed, is such a cipher. */
  function ServiceCipher(p: Primitives, nonce: Bytes): Cipher
  {
    Cipher((text, key) => AESEncryptionService.Encrypt(p, text, key, nonce),
           (text, key) => AESEncryptionService.Decrypt(p, text, key))
  }

  lemma ServiceCipherRoundTrips(p: Primitives, nonce: Bytes)
    requires Lawful(p)
    ensures RoundTrips(ServiceCipher(p, nonce))
  {
    var c := ServiceCipher(p, nonce);
    forall text, key | c.encrypt(text, key).Some?
      ensures c.decrypt(c.encrypt(text, key).value, key) == Some(text)
    {
      AESEncryptionService.DecryptEncrypt(p, text, key, nonce, AESEncryptionService.DefaultKeySize);
    }
  }

  /** This version's preference key for the encryption key. */
  const UserDefaultSecretKey: string := "secret_key"

  function DecryptUserPasscode(c: Cipher, defaults: map<string, string>): (r: Option<string>)
    ensures UserDefaultPasscodeKey !in defaults || UserDefaultSecretKey !in defaults ==> r.None?
  {
    if UserDefaultPasscodeKey !in defaults then None
    else if UserDefaultSecretKey !in defaults then None
    else c.decrypt(defaults[UserDefaultPasscodeKey], defaults[UserDefaultSecretKey])
  }

  function StorePasscode(c: Cipher, defaults: map<string, string>, code: string, key: string): (r: map<string, string>)
    ensures UserDefaultSecretKey in r && r[UserDefaultSecretKey] == key
    ensures UserDefaultPasscodeKey in r <==> c.encrypt(code, key).Some?
    ensures forall k :: k != UserDefaultPasscodeKey && k != UserDefaultSecretKey ==>
              (k in r <==> k in defaults) && (k in r ==> r[k] == defaults[k])
  {
    Service.SetValue(Service.SetValue(defaults, UserDefaultPasscodeKey, c.encrypt(code, key)), UserDefaultSecretKey, Some(key))
  }

  /** A stored passcode decrypts back to itself when the cipher encrypted it. */
  lemma DecryptStoredPasscode(c: Cipher, defaults: map<string, string>, code: string, key: string)
    requires RoundTrips(c) && c.encrypt(code, key).Some?
    ensures DecryptUserPasscode(c, StorePasscode(c, defaults, code, key)) == Some(code)
  {
  }

  /** A failed evaluation as this version sees it: none is attempted once locked. */
  function AttemptFailed(s: Service.Lockout): (r: Service.Lockout)
    requires Service.Consistent(s)
    ensures Service.Consistent(r)
  {
    if s.isBiometricLocked then s else Service.Failed(s)
  }

  function AttemptsFailed(s: Service.Lockout, n: nat): (r: Service.Lockout)
    requires Service.Consistent(s)
    ensures Service.Consistent(r)
  {
    if n == 0 then s else AttemptFailed(AttemptsFailed(s, n - 1))
  }

  /** The counter saturates: from the reset state, `n` failures count min(n, 3). */
  lemma {:induction false} AttemptsSaturate(n: nat)
    ensures AttemptsFailed(Service.Unlocked, n) == Service.Lockout(if n < Service.MaxFailedAttemptAllowed then n else Service.MaxFailedAttemptAllowed, n >= Service.MaxFailedAttemptAllowed)
  {
    if n > 0 {
      AttemptsSaturate(n - 1);
    }
  }

  /** The counter never passes the maximum. */
  predicate Bounded(s: Service.Lockout)
  {
    s.failedAttempt <= Service.MaxFailedAttemptAllowed
  }

  lemma AttemptFailedStaysBounded(s: Service.Lockout)
    requires Service.Consistent(s) && Bounded(s)
    ensures Bounded(AttemptFailed(s))
  {
  }

  class Authenticator {
    const cipher: Cipher
    var isAuthenticated: bool
    var isPassCodeSet: bool
    var isBiometricLocked: bool
    var failedAttempt: nat
    var defaults: map<string, string>

    function Lock(): Service.Lockout
      reads this
    {
      Service.Lockout(failedAttempt, isBiometricLocked)
    }

    /** Locked exactly at the maximum: the counter is at most 3 and locked iff it is 3. */
    predicate Valid()
      reads this
    {
      Service.Consistent(Lock()) && Bounded(Lock())
    }

    constructor(cipher: Cipher, defaults: map<string, string>, credentialSet: bool)
      ensures Valid() && Lock() == Service.Unlocked && !isAuthenticated && isPassCodeSet == !credentialSet
      ensures this.cipher == cipher && this.defaults == defaults
    {
      this.cipher := cipher;
      this.defaults := defaults;
      isAuthenticated := false;
      isBiometricLocked := false;
      failedAttempt := 0;
      isPassCodeSet := !credentialSet;
    }

    method ResetFailCount()
      modifies this
      ensures Valid() && Lock() == Service.Unlocked
      ensures isAuthenticated == old(isAuthenticated) && defaults == old(defaults) && isPassCodeSet == old(isPassCodeSet)
    {
      failedAttempt := 0;
      isBiometricLocked := false;
    }

    method LogOut()
      modifies this
      ensures Valid() && Lock() == Service.Unlocked && !isAuthenticated
      ensures defaults == old(defaults) && isPassCodeSet == old(isPassCodeSet)
    {
      isAuthenticated := false;
      ResetFailCount();
    }

    method SetPasscodeWith(code: string, biometricAvailable: bool, key: string)
      requires Valid()
      modifies this
      ensures Valid() && Lock() == old(Lock()) && isPassCodeSet == old(isPassCodeSet)
      ensures !biometricAvailable ==> defaults == old(defaults) && isAuthenticated == old(isAuthenticated)
      ensures biometricAvailable ==> defaults == StorePasscode(cipher, old(defaults), code, key) && isAuthenticated
    {
      if !biometricAvailable {
        return;
      }
      var encryptedPasscode := cipher.encrypt(code, key);
      defaults := Service.SetValue(defaults, UserDefaultPasscodeKey, encryptedPasscode);
      defaults := Service.SetValue(defaults, UserDefaultSecretKey, Some(key));
      isAuthenticated := true;
    }

    method VerifyPin(pin: string) returns (success: bool)
      requires Valid()
      modifies this
      ensures Valid() && defaults == old(defaults) && isPassCodeSet == old(isPassCodeSet)
      ensures success <==> DecryptUserPasscode(cipher, defaults) == Some(pin)
      ensures isAuthenticated == success
      ensures DecryptUserPasscode(cipher, defaults).None? ==> Lock() == old(Lock())
      ensures DecryptUserPasscode(cipher, defaults).Some? ==> Lock() == Service.Unlocked
    {
      var storedPasscode := DecryptUserPasscode(cipher, defaults);
      if storedPasscode.None? {
        isAuthenticated := false;
        return false;
      }
      success := storedPasscode.value == pin;
      isAuthenticated := success;
      ResetFailCount();
    }

    method OnResetPin()
      modifies this
      ensures Valid() && Lock() == Service.Unlocked
      ensures defaults == old(defaults) - {UserDefaultPasscodeKey, UserDefaultSecretKey}
      ensures DecryptUserPasscode(cipher, defaults).None?
      ensures isAuthenticated == old(isAuthenticated)
    {
      defaults := defaults - {UserDefaultPasscodeKey};
      defaults := defaults - {UserDefaultSecretKey};
      ResetFailCount();
    }

    /**
     * `unlockWithFaceId`, that is `authenticate`: `available` answers the
     * owner policy, `canEvaluate` and `error` the biometrics policy,
     * `success` is the evaluation's outcome; `logged` is the message
     * `handleLaError` prints.
     */
    method UnlockWithFaceId(available: bool, canEvaluate: bool, error: Option<Service.PolicyError>, success: bool)
      returns (logged: Option<string>)
      requires Valid()
      modifies this
      ensures Valid() && defaults == old(defaults) && isPassCodeSet == old(isPassCodeSet)
      ensures !available || old(isBiometricLocked) ==>
                Lock() == old(Lock()) && isAuthenticated == old(isAuthenticated) && logged.None?
      ensures available && !old(isBiometricLocked) && !canEvaluate ==>
                Lock() == old(Lock()) && isAuthenticated == old(isAuthenticated)
                && logged == (if error.Some? then Service.ReportedFailure(error.value) else None)
      ensures available && !old(isBiometricLocked) && canEvaluate && success ==>
                Lock() == old(Lock()) && (isAuthenticated <==> DecryptUserPasscode(cipher, defaults).Some?) && logged.None?
      ensures available && !old(isBiometricLocked) && canEvaluate && !success ==>
                Lock() == AttemptFailed(old(Lock())) && isAuthenticated == old(isAuthenticated) && logged.None?
    {
      logged := None;
      if !available || isBiometricLocked {
        return;
      }
      if canEvaluate {
        if success {
          var passcode := DecryptUserPasscode(cipher, defaults);
          isAuthenticated := passcode.Some?;
        } else {
          failedAttempt := failedAttempt + 1;
          isBiometricLocked := failedAttempt >= Service.MaxFailedAttemptAllowed;
        }
      } else if error.Some? {
        logged := Service.ReportedFailure(error.value);
      }
    }
  }
}
