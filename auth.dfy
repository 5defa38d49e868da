/**
 * The credential and session manager: a process-wide user directory keyed by normalised
 * email, registration and login against it, and sessions read back from storage.
 */
module Auth {
  import opened Types
  import opened Constants
  import opened EmailKey
  import opened PasswordHash
  import opened SessionToken
  import opened Storage

  const DUPLICATE_EMAIL_ERROR: string := "User with this email already exists"
  const INVALID_LOGIN_ERROR: string := "Invalid email or password"

  /** A directory entry: the user together with the hash of their password. */
  datatype UserRecord = UserRecord(user: User, passwordHash: string)

  /** Which of the three raising storage writes of one `register` or `login` throw. */
  datatype WriteFaults = WriteFaults(credentials: bool, userData: bool, sessionToken: bool)

  const NO_FAULTS: WriteFaults := WriteFaults(false, false, false)

  /** What `checkSession` reports. */
  datatype SessionCheck = SessionCheck(valid: bool, user: Option<User>)

  /** The user `register` builds from a form: normalised email, `phoneNumber` copied from `phone`. */
  function NewUser(form: RegistrationForm, id: string, createdAt: string): User {
    User(id, form.firstName, form.lastName, Normalize(form.email), form.phone, form.phone,
         form.country, form.dateOfBirth, form.gender, form.address, form.city, form.postalCode,
         createdAt)
  }

  /** JavaScript truthiness of a stored token: present and not the empty string. */
  predicate Truthy(token: Option<string>) {
    token.Some? && token.value != ""
  }

  /** A directory whose every entry sits under its own user's email, in normal form. */
  ghost predicate WellKeyed(users: map<string, UserRecord>) {
    forall key | key in users :: IsNormal(key) && users[key].user.email == key
  }

  /** Filing a record under its own normal-form email keeps the directory well keyed. */
  lemma FilingKeepsWellKeyed(users: map<string, UserRecord>, record: UserRecord)
    requires WellKeyed(users) && IsNormal(record.user.email)
    ensures WellKeyed(users[record.user.email := record])
  {
  }

  class AuthService {
    var users: map<string, UserRecord>
    const storage: StorageService

    /** Every entry sits under its own user's email, and that email is in normal form. */
    ghost predicate Valid()
      reads this
    {
      WellKeyed(users)
    }

    constructor (storage: StorageService)
      ensures users == map[] && this.storage == storage
      ensures Valid()
    {
      this.storage := storage;
      users := map[];
    }

    /** `hashPassword`: the shift-and-subtract loop, rendered in base 16. */
    method HashPassword(password: string) returns (hash: string)
      ensures hash == HexString(RollingHash(password))
    {
      var h := 0;
      for i := 0 to |password|
        invariant h == RollingHash(password[..i])
      {
        ShiftStepIsRolling(h, password[i]);
        RollingHashSnoc(password[..i], password[i]);
        assert password[..i + 1] == password[..i] + [password[i]];
        h := ShiftStep(h, password[i]);
      }
      assert password[..|password|] == password;
      hash := HexString(h);
    }

    /** `saveUserToJSON`: file the record under its lower-cased email, replacing any entry there. */
    method SaveUserToJSON(record: UserRecord)
      modifies this
      ensures users == old(users)[ToLower(record.user.email) := record]
    {
      users := users[ToLower(record.user.email) := record];
    }

    /**
     * `register`: reject a taken email before touching anything; otherwise file the user,
     * then store credentials, user and a fresh token, then clear the draft. The directory
     * entry is made before the first write, so it stays when a later write throws.
     */
    method Register(form: RegistrationForm, idNonce: Nonce, createdAt: string,
                    tokenNonce: Nonce, later: nat, faults: WriteFaults, draftFails: bool)
      returns (r: Result<AuthResult>)
      requires Valid()
      modifies this, storage
      ensures Valid()
      ensures Normalize(form.email) in users
      ensures Normalize(form.email) in old(users) ==>
        r == Err(DUPLICATE_EMAIL_ERROR) && users == old(users) && unchanged(storage)
      ensures Normalize(form.email) !in old(users) ==>
        users == old(users)[Normalize(form.email) :=
          UserRecord(NewUser(form, GenerateUniqueId(idNonce), createdAt), HexString(RollingHash(form.password)))]
      ensures Normalize(form.email) !in old(users) ==>
        r == if faults.credentials then Err(CREDENTIALS_ERROR)
             else if faults.userData then Err(USER_DATA_ERROR)
             else if faults.sessionToken then Err(SESSION_TOKEN_ERROR)
             else Ok(AuthResult(NewUser(form, GenerateUniqueId(idNonce), createdAt),
                                GenerateSessionToken(tokenNonce, later)))
      ensures r.Ok? ==>
        storage.GetCredentials(false) == Some(Credentials(Normalize(form.email), form.password))
        && storage.GetUserData(false) == Some(r.value.user)
        && storage.GetSessionToken(false) == Some(r.value.token)
        && storage.GetRegistrationDraft(false) == if draftFails then old(storage.GetRegistrationDraft(false)) else None
      ensures r.Ok? ==>
        storage.plain == if draftFails then old(storage.plain) else old(storage.plain) - {REGISTRATION_DRAFT_KEY}
      ensures r.Err? ==> storage.plain == old(storage.plain)
    {
      var email := Normalize(form.email);
      if email in users {
        return Err(DUPLICATE_EMAIL_ERROR);
      }
      var user := NewUser(form, GenerateUniqueId(idNonce), createdAt);
      var passwordHash := HashPassword(form.password);
      NormalizeIsNormal(form.email);
      NormalizeIdempotent(form.email);
      FilingKeepsWellKeyed(users, UserRecord(user, passwordHash));
      SaveUserToJSON(UserRecord(user, passwordHash));
      assert users == old(users)[email := UserRecord(user, passwordHash)];
      assert Valid();
      var stored := storage.StoreCredentials(Credentials(email, form.password), faults.credentials);
      if stored.Pass? {
        stored := storage.StoreUserData(user, faults.userData);
      }
      var token := GenerateSessionToken(tokenNonce, later);
      if stored.Pass? {
        stored := storage.StoreSessionToken(token, faults.sessionToken);
      }
      if stored.Pass? {
        storage.ClearRegistrationDraft(draftFails);
        r := Ok(AuthResult(user, token));
      } else {
        r := Err(stored.error);
      }
    }

    /** `checkSession`: valid exactly when a non-empty token and a user are both stored. */
    function CheckSession(tokenFails: bool, userFails: bool): (r: SessionCheck)
      reads storage
      ensures r.valid <==> Truthy(storage.GetSessionToken(tokenFails)) && storage.GetUserData(userFails).Some?
      ensures r.valid ==> r.user == storage.GetUserData(userFails)
      ensures !r.valid ==> r.user == None
    {
      var token := storage.GetSessionToken(tokenFails);
      var user := storage.GetUserData(userFails);
      if Truthy(token) && user.Some? then SessionCheck(true, user) else SessionCheck(false, None)
    }

    /**
     * `login`: look the normalised email up and compare hashes, with one message for both
     * failures; then store the credentials as typed, a fresh token and the user. The
     * directory is never changed.
     */
    method Login(credentials: Credentials, tokenNonce: Nonce, later: nat, faults: WriteFaults)
      returns (r: Result<AuthResult>)
      modifies storage
      ensures var key := Normalize(credentials.email);
        !(key in users && users[key].passwordHash == HexString(RollingHash(credentials.password))) ==>
          r == Err(INVALID_LOGIN_ERROR) && unchanged(storage)
      ensures var key := Normalize(credentials.email);
        key in users && users[key].passwordHash == HexString(RollingHash(credentials.password)) ==>
          r == if faults.credentials then Err(CREDENTIALS_ERROR)
               else if faults.sessionToken then Err(SESSION_TOKEN_ERROR)
               else if faults.userData then Err(USER_DATA_ERROR)
               else Ok(AuthResult(users[key].user, GenerateSessionToken(tokenNonce, later)))
      ensures r.Ok? ==>
        r.value.token == GenerateSessionToken(tokenNonce, later)
        && storage.GetCredentials(false) == Some(credentials)
        && storage.GetSessionToken(false) == Some(r.value.token)
        && storage.GetUserData(false) == Some(r.value.user)
        && CheckSession(false, false) == SessionCheck(true, Some(r.value.user))
      ensures storage.plain == old(storage.plain)
    {
      var email := Normalize(credentials.email);
      if email !in users {
        return Err(INVALID_LOGIN_ERROR);
      }
      var record := users[email];
      var passwordHash := HashPassword(credentials.password);
      if record.passwordHash != passwordHash {
        return Err(INVALID_LOGIN_ERROR);
      }
      var stored := storage.StoreCredentials(credentials, faults.credentials);
      if stored.Fail? {
        return Err(stored.error);
      }
      var token := GenerateSessionToken(tokenNonce, later);
      stored := storage.StoreSessionToken(token, faults.sessionToken);
      if stored.Fail? {
        return Err(stored.error);
      }
      stored := storage.StoreUserData(record.user, faults.userData);
      if stored.Fail? {
        return Err(stored.error);
      }
      r := Ok(AuthResult(record.user, token));
    }

    /** `verifySession`: the stored user and token, or `None` when either is missing. */
    function VerifySession(tokenFails: bool, userFails: bool): (r: Option<AuthResult>)
      reads storage
      ensures r.Some? <==> Truthy(storage.GetSessionToken(tokenFails)) && storage.GetUserData(userFails).Some?
      ensures r.Some? ==>
        r.value.token != ""
        && storage.GetSessionToken(tokenFails) == Some(r.value.token)
        && storage.GetUserData(userFails) == Some(r.value.user)
    {
      var token := storage.GetSessionToken(tokenFails);
      var user := storage.GetUserData(userFails);
      if Truthy(token) && user.Some? then Some(AuthResult(user.value, token.value)) else None
    }

    /** `logout`: clear every tier; the clear never throws, so neither does this. */
    method Logout(removeFails: bool, clearFails: bool, multiRemoveFails: bool) returns (outcome: Outcome)
      modifies storage
      ensures outcome == Pass
      ensures storage.secure == if removeFails then old(storage.secure) else old(storage.secure) - {KEYCHAIN_SERVICE}
      ensures storage.encrypted == if clearFails then old(storage.encrypted) else map[]
      ensures storage.plain ==
        if clearFails || multiRemoveFails then old(storage.plain) else old(storage.plain) - PLAIN_KEYS
      ensures !clearFails ==> CheckSession(false, false) == SessionCheck(false, None)
    {
      storage.ClearAllData(removeFails, clearFails, multiRemoveFails);
      outcome := Pass;
    }
  }

  /** The two session probes agree: `verifySession` finds a session exactly when `checkSession` says valid. */
  lemma SessionProbesAgree(service: AuthService, tokenFails: bool, userFails: bool)
    ensures service.VerifySession(tokenFails, userFails).Some? <==> service.CheckSession(tokenFails, userFails).valid
    ensures service.VerifySession(tokenFails, userFails).Some? ==>
      service.CheckSession(tokenFails, userFails).user == Some(service.VerifySession(tokenFails, userFails).value.user)
  {
  }

  /** A read that fails makes the session invalid rather than raising. */
  lemma FailedReadMeansNoSession(service: AuthService, userFails: bool)
    ensures !service.CheckSession(true, userFails).valid && service.VerifySession(true, userFails) == None
    ensures !service.CheckSession(userFails, true).valid && service.VerifySession(userFails, true) == None
  {
    ReadsFailSoft(service.storage);
  }

  /**
   * The registration tests: a new email registers under its lower-cased form and keeps the
   * first name; the same form a second time is refused.
   */
  method DuplicateRegistrationScenario(storage: StorageService, form: RegistrationForm, idNonce: Nonce,
                                       createdAt: string, tokenNonce: Nonce, later: nat)
    returns (first: Result<AuthResult>, second: Result<AuthResult>)
    modifies storage
    ensures first.Ok? && first.value.user.email == Normalize(form.email)
    ensures first.value.user.firstName == form.firstName
    ensures second == Err(DUPLICATE_EMAIL_ERROR)
  {
    var service := new AuthService(storage);
    first := service.Register(form, idNonce, createdAt, tokenNonce, later, NO_FAULTS, false);
    second := service.Register(form, idNonce, createdAt, tokenNonce, later, NO_FAULTS, false);
  }

  /** A registration whose token write throws still files the user, so retrying reports a duplicate. */
  method RetryAfterFailedWriteScenario(storage: StorageService, form: RegistrationForm, idNonce: Nonce,
                                       createdAt: string, tokenNonce: Nonce, later: nat)
    returns (first: Result<AuthResult>, retry: Result<AuthResult>)
    modifies storage
    ensures first == Err(SESSION_TOKEN_ERROR)
    ensures retry == Err(DUPLICATE_EMAIL_ERROR)
  {
    var service := new AuthService(storage);
    first := service.Register(form, idNonce, createdAt, tokenNonce, later, WriteFaults(false, false, true), false);
    retry := service.Register(form, idNonce, createdAt, tokenNonce, later, NO_FAULTS, false);
  }

  /** A login test: the registered user signs in with the email upper-cased and gets a "session_" token. */
  method UpperCaseLoginScenario(storage: StorageService, form: RegistrationForm, idNonce: Nonce, createdAt: string,
                                tokenNonce: Nonce, later: nat)
    returns (login: Result<AuthResult>)
    modifies storage
    ensures login.Ok? && TOKEN_PREFIX <= login.value.token
  {
    var service := new AuthService(storage);
    var registered := service.Register(form, idNonce, createdAt, tokenNonce, later, NO_FAULTS, false);
    NormalizeIgnoresCase(form.email);
    login := service.Login(Credentials(ToUpper(form.email), form.password), tokenNonce, later, NO_FAULTS);
  }

  /** A login test: the password with its last character changed is refused with the same message. */
  method WrongPasswordLoginScenario(storage: StorageService, form: RegistrationForm, idNonce: Nonce,
                                    createdAt: string, tokenNonce: Nonce, later: nat, wrongLast: char)
    returns (login: Result<AuthResult>)
    requires |form.password| > 0 && form.password[|form.password| - 1] != wrongLast
    modifies storage
    ensures login == Err(INVALID_LOGIN_ERROR)
  {
    var service := new AuthService(storage);
    var registered := service.Register(form, idNonce, createdAt, tokenNonce, later, NO_FAULTS, false);
    var key := Normalize(form.email);
    assert service.users[key].passwordHash == HexString(RollingHash(form.password));
    var wrongPassword := form.password[..|form.password| - 1] + [wrongLast];
    LastCharacterChangesHash(form.password, wrongLast);
    assert service.users[key].passwordHash != HexString(RollingHash(wrongPassword));
    login := service.Login(Credentials(form.email, wrongPassword), tokenNonce, later, NO_FAULTS);
  }

  /** The login test's wrong password, "WrongPassword1!" against "Password1!", is refused. */
  method TestPasswordLoginScenario(storage: StorageService, form: RegistrationForm, idNonce: Nonce,
                                   createdAt: string, tokenNonce: Nonce, later: nat)
    returns (login: Result<AuthResult>)
    requires form.password == "Password1!"
    modifies storage
    ensures login == Err(INVALID_LOGIN_ERROR)
  {
    var service := new AuthService(storage);
    var registered := service.Register(form, idNonce, createdAt, tokenNonce, later, NO_FAULTS, false);
    var key := Normalize(form.email);
    assert service.users[key].passwordHash == HexString(RollingHash("Password1!"));
    TestPasswordsDiffer();
    login := service.Login(Credentials(form.email, "WrongPassword1!"), tokenNonce, later, NO_FAULTS);
  }

  /** Because the hash collides, a different password can sign in: "BB" opens an account made with "Aa". */
  method CollidingPasswordScenario(storage: StorageService, form: RegistrationForm, idNonce: Nonce,
                                   createdAt: string, tokenNonce: Nonce, later: nat)
    returns (login: Result<AuthResult>)
    requires form.password == "Aa"
    modifies storage
    ensures login.Ok?
  {
    var service := new AuthService(storage);
    var registered := service.Register(form, idNonce, createdAt, tokenNonce, later, NO_FAULTS, false);
    HashCollision();
    login := service.Login(Credentials(form.email, "BB"), tokenNonce, later, NO_FAULTS);
  }
}
