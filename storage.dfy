/**
 * The layered persistence gateway. Three tiers, each a key/value map: the secure credential
 * tier (one credential pair per keychain service), the encrypted tier (user record and session
 * token) and the plain tier (draft, failed-attempt count, lockout time). Every backend call
 * takes a `fails` flag that says whether that call throws; a call that throws changes nothing.
 */
module Storage {
  import opened Types
  import opened Constants

  /** What a tier holds under a key, standing for its serialised text. */
  datatype Value =
    | StoredText(text: string)
    | StoredUser(user: User)
    | StoredDraft(draft: FormData)
    | StoredNumber(number: int)

  const CREDENTIALS_ERROR: string := "Failed to store credentials securely"
  const USER_DATA_ERROR: string := "Failed to store user data"
  const SESSION_TOKEN_ERROR: string := "Failed to store session token"

  /** The keys `clearAllData` removes from the plain tier. */
  const PLAIN_KEYS: set<string> := {REGISTRATION_DRAFT_KEY, FAILED_ATTEMPTS_KEY, LOCKOUT_TIME_KEY}

  class StorageService {
    var secure: map<string, Credentials>
    var encrypted: map<string, Value>
    var plain: map<string, Value>

    /** A gateway over tiers that already hold whatever the device has kept. */
    constructor (secure: map<string, Credentials>, encrypted: map<string, Value>, plain: map<string, Value>)
      ensures this.secure == secure && this.encrypted == encrypted && this.plain == plain
    {
      this.secure := secure;
      this.encrypted := encrypted;
      this.plain := plain;
    }

    // Secure credential tier: writes raise, reads and removal fail soft.

    method StoreCredentials(credentials: Credentials, fails: bool) returns (outcome: Outcome)
      modifies this
      ensures outcome == if fails then Fail(CREDENTIALS_ERROR) else Pass
      ensures secure == if fails then old(secure) else old(secure)[KEYCHAIN_SERVICE := credentials]
      ensures encrypted == old(encrypted) && plain == old(plain)
      ensures !fails ==> GetCredentials(false) == Some(credentials)
    {
      if fails {
        return Fail(CREDENTIALS_ERROR);
      }
      secure := secure[KEYCHAIN_SERVICE := credentials];
      outcome := Pass;
    }

    /** `getCredentials`: the stored pair, or null when none is stored or the read fails. */
    function GetCredentials(fails: bool): Option<Credentials>
      reads this
    {
      if fails || KEYCHAIN_SERVICE !in secure then None else Some(secure[KEYCHAIN_SERVICE])
    }

    /** Never raises: a failed removal is only logged. */
    method RemoveCredentials(fails: bool)
      modifies this
      ensures secure == if fails then old(secure) else old(secure) - {KEYCHAIN_SERVICE}
      ensures encrypted == old(encrypted) && plain == old(plain)
      ensures !fails ==> GetCredentials(false) == None
    {
      if !fails {
        secure := secure - {KEYCHAIN_SERVICE};
      }
    }

    // Encrypted tier: writes raise, reads fail soft.

    method StoreUserData(user: User, fails: bool) returns (outcome: Outcome)
      modifies this
      ensures outcome == if fails then Fail(USER_DATA_ERROR) else Pass
      ensures encrypted == if fails then old(encrypted) else old(encrypted)[USER_DATA_KEY := StoredUser(user)]
      ensures secure == old(secure) && plain == old(plain)
      ensures !fails ==> GetUserData(false) == Some(user)
    {
      if fails {
        return Fail(USER_DATA_ERROR);
      }
      encrypted := encrypted[USER_DATA_KEY := StoredUser(user)];
      outcome := Pass;
    }

    /** `getUserData`: the stored user, or null when none is stored or the read fails. */
    function GetUserData(fails: bool): Option<User>
      reads this
    {
      if fails || USER_DATA_KEY !in encrypted then None
      else match encrypted[USER_DATA_KEY]
        case StoredUser(u) => Some(u)
        case _ => None
    }

    method StoreSessionToken(token: string, fails: bool) returns (outcome: Outcome)
      modifies this
      ensures outcome == if fails then Fail(SESSION_TOKEN_ERROR) else Pass
      ensures encrypted == if fails then old(encrypted) else old(encrypted)[SESSION_TOKEN_KEY := StoredText(token)]
      ensures secure == old(secure) && plain == old(plain)
      ensures !fails ==> GetSessionToken(false) == Some(token)
    {
      if fails {
        return Fail(SESSION_TOKEN_ERROR);
      }
      encrypted := encrypted[SESSION_TOKEN_KEY := StoredText(token)];
      outcome := Pass;
    }

    /** `getSessionToken`: the stored token, or null when none is stored or the read fails. */
    function GetSessionToken(fails: bool): Option<string>
      reads this
    {
      if fails || SESSION_TOKEN_KEY !in encrypted then None
      else match encrypted[SESSION_TOKEN_KEY]
        case StoredText(t) => Some(t)
        case _ => None
    }

    // Plain tier: writes, reads and removals all fail soft.

    method StoreRegistrationDraft(draft: FormData, fails: bool)
      modifies this
      ensures plain == if fails then old(plain) else old(plain)[REGISTRATION_DRAFT_KEY := StoredDraft(draft)]
      ensures secure == old(secure) && encrypted == old(encrypted)
      ensures !fails ==> GetRegistrationDraft(false) == Some(draft)
    {
      if !fails {
        plain := plain[REGISTRATION_DRAFT_KEY := StoredDraft(draft)];
      }
    }

    /** `getRegistrationDraft`: the stored draft, or null when none is stored or the read fails. */
    function GetRegistrationDraft(fails: bool): Option<FormData>
      reads this
    {
      if fails || REGISTRATION_DRAFT_KEY !in plain then None
      else match plain[REGISTRATION_DRAFT_KEY]
        case StoredDraft(d) => Some(d)
        case _ => None
    }

    method ClearRegistrationDraft(fails: bool)
      modifies this
      ensures plain == if fails then old(plain) else old(plain) - {REGISTRATION_DRAFT_KEY}
      ensures secure == old(secure) && encrypted == old(encrypted)
      ensures !fails ==> GetRegistrationDraft(false) == None
    {
      if !fails {
        plain := plain - {REGISTRATION_DRAFT_KEY};
      }
    }

    method StoreFailedAttempts(count: int, fails: bool)
      modifies this
      ensures plain == if fails then old(plain) else old(plain)[FAILED_ATTEMPTS_KEY := StoredNumber(count)]
      ensures secure == old(secure) && encrypted == old(encrypted)
      ensures !fails ==> GetFailedAttempts(false) == count
    {
      if !fails {
        plain := plain[FAILED_ATTEMPTS_KEY := StoredNumber(count)];
      }
    }

    /** The stored count, or 0 when none is stored or the read fails. */
    function GetFailedAttempts(fails: bool): int
      reads this
    {
      if fails || FAILED_ATTEMPTS_KEY !in plain then 0
      else match plain[FAILED_ATTEMPTS_KEY]
        case StoredNumber(n) => n
        case _ => 0
    }

    method StoreLockoutTime(time: int, fails: bool)
      modifies this
      ensures plain == if fails then old(plain) else old(plain)[LOCKOUT_TIME_KEY := StoredNumber(time)]
      ensures secure == old(secure) && encrypted == old(encrypted)
      ensures !fails ==> GetLockoutTime(false) == Some(time)
    {
      if !fails {
        plain := plain[LOCKOUT_TIME_KEY := StoredNumber(time)];
      }
    }

    /** The stored time, 0 included, or `None` when none is stored or the read fails. */
    function GetLockoutTime(fails: bool): Option<int>
      reads this
    {
      if fails || LOCKOUT_TIME_KEY !in plain then None
      else match plain[LOCKOUT_TIME_KEY]
        case StoredNumber(n) => Some(n)
        case _ => None
    }

    /**
     * `clearAllData`: remove the credentials (whose failure is swallowed inside), clear the
     * encrypted tier, then remove the three plain keys; a failed clear skips the removal.
     * It never raises.
     */
    method ClearAllData(removeFails: bool, clearFails: bool, multiRemoveFails: bool)
      modifies this
      ensures secure == if removeFails then old(secure) else old(secure) - {KEYCHAIN_SERVICE}
      ensures encrypted == if clearFails then old(encrypted) else map[]
      ensures plain == if clearFails || multiRemoveFails then old(plain) else old(plain) - PLAIN_KEYS
      ensures forall k | k in old(plain) && k !in PLAIN_KEYS :: k in plain && plain[k] == old(plain)[k]
    {
      RemoveCredentials(removeFails);
      if clearFails {
        return;
      }
      encrypted := map[];
      if !multiRemoveFails {
        plain := plain - PLAIN_KEYS;
      }
    }
  }

  /** `getCredentials` finds a pair exactly when one is stored and the read succeeds. */
  lemma CredentialsRead(s: StorageService, fails: bool)
    ensures s.GetCredentials(fails).Some? <==> !fails && KEYCHAIN_SERVICE in s.secure
    ensures s.GetCredentials(fails).Some? ==> s.GetCredentials(fails).value == s.secure[KEYCHAIN_SERVICE]
  {
  }

  /** `getUserData` finds a user exactly when one is stored and the read succeeds. */
  lemma UserDataRead(s: StorageService, fails: bool)
    ensures s.GetUserData(fails).Some? <==>
      !fails && USER_DATA_KEY in s.encrypted && s.encrypted[USER_DATA_KEY].StoredUser?
    ensures s.GetUserData(fails).Some? ==> s.encrypted[USER_DATA_KEY] == StoredUser(s.GetUserData(fails).value)
  {
  }

  /** `getSessionToken` finds a token exactly when one is stored and the read succeeds. */
  lemma SessionTokenRead(s: StorageService, fails: bool)
    ensures s.GetSessionToken(fails).Some? <==>
      !fails && SESSION_TOKEN_KEY in s.encrypted && s.encrypted[SESSION_TOKEN_KEY].StoredText?
    ensures s.GetSessionToken(fails).Some? ==> s.encrypted[SESSION_TOKEN_KEY] == StoredText(s.GetSessionToken(fails).value)
  {
  }

  /** `getRegistrationDraft` finds a draft exactly when one is stored and the read succeeds. */
  lemma RegistrationDraftRead(s: StorageService, fails: bool)
    ensures s.GetRegistrationDraft(fails).Some? <==>
      !fails && REGISTRATION_DRAFT_KEY in s.plain && s.plain[REGISTRATION_DRAFT_KEY].StoredDraft?
    ensures s.GetRegistrationDraft(fails).Some? ==>
      s.plain[REGISTRATION_DRAFT_KEY] == StoredDraft(s.GetRegistrationDraft(fails).value)
  {
  }

  /** `getFailedAttempts` gives the stored count, and 0 when none is stored or the read fails. */
  lemma FailedAttemptsRead(s: StorageService, fails: bool)
    ensures !fails && FAILED_ATTEMPTS_KEY in s.plain && s.plain[FAILED_ATTEMPTS_KEY].StoredNumber? ==>
      s.GetFailedAttempts(fails) == s.plain[FAILED_ATTEMPTS_KEY].number
    ensures !(!fails && FAILED_ATTEMPTS_KEY in s.plain && s.plain[FAILED_ATTEMPTS_KEY].StoredNumber?) ==>
      s.GetFailedAttempts(fails) == 0
  {
  }

  /** `getLockoutTime` finds a time, 0 included, exactly when one is stored and the read succeeds. */
  lemma LockoutTimeRead(s: StorageService, fails: bool)
    ensures s.GetLockoutTime(fails).Some? <==>
      !fails && LOCKOUT_TIME_KEY in s.plain && s.plain[LOCKOUT_TIME_KEY].StoredNumber?
    ensures s.GetLockoutTime(fails).Some? ==> s.plain[LOCKOUT_TIME_KEY] == StoredNumber(s.GetLockoutTime(fails).value)
  {
  }

  /** A key that was never stored reads as null, or as 0 for the attempts. */
  lemma AbsentKeysReadDefault(s: StorageService)
    ensures KEYCHAIN_SERVICE !in s.secure ==> s.GetCredentials(false) == None
    ensures USER_DATA_KEY !in s.encrypted ==> s.GetUserData(false) == None
    ensures SESSION_TOKEN_KEY !in s.encrypted ==> s.GetSessionToken(false) == None
    ensures REGISTRATION_DRAFT_KEY !in s.plain ==> s.GetRegistrationDraft(false) == None
    ensures FAILED_ATTEMPTS_KEY !in s.plain ==> s.GetFailedAttempts(false) == 0
    ensures LOCKOUT_TIME_KEY !in s.plain ==> s.GetLockoutTime(false) == None
  {
  }

  /** Every read of a failing backend yields the empty answer instead of raising. */
  lemma ReadsFailSoft(s: StorageService)
    ensures s.GetCredentials(true) == None && s.GetUserData(true) == None
    ensures s.GetSessionToken(true) == None && s.GetRegistrationDraft(true) == None
    ensures s.GetFailedAttempts(true) == 0 && s.GetLockoutTime(true) == None
  {
  }
}
