/** The app-wide constants of GlobalConstants.swift that the modelled core reads. */
module GlobalConstants {

  /** Number of digits of the app passcode. */
  const PasscodeLength: nat := 4

  /** Preference key under which the encrypted passcode is stored. */
  const UserDefaultPasscodeKey: string := "passcode"
}
