/**
 * The `registration` slice of the store: the multi-step form being filled in, the draft
 * persisted between sessions, and the submission flags.
 */
module Registration {
  import opened Types
  import opened Constants
  import opened EmailKey
  import opened Storage
  import opened Auth

  const INITIAL_REGISTRATION_STATE: RegistrationState := RegistrationState(map[], 0, false, None)

  const REGISTRATION_FAILED: string := "Registration failed"

  class RegistrationSlice {
    var state: RegistrationState
    const auth: AuthService
    const storage: StorageService

    /** The slice and the service share one storage gateway, and the directory is well formed. */
    ghost predicate Valid()
      reads this, auth
    {
      auth.storage == storage && auth.Valid()
    }

    constructor (auth: AuthService)
      requires auth.Valid()
      ensures state == INITIAL_REGISTRATION_STATE && this.auth == auth && storage == auth.storage
      ensures Valid()
    {
      this.auth := auth;
      storage := auth.storage;
      state := INITIAL_REGISTRATION_STATE;
    }

    /** `updateFormData`: the payload's fields overwrite, every other field of the form is kept. */
    method UpdateFormData(payload: FormData)
      modifies this
      ensures state.formData.Keys == old(state.formData).Keys + payload.Keys
      ensures forall k | k in payload :: state.formData[k] == payload[k]
      ensures forall k | k in old(state.formData) && k !in payload :: state.formData[k] == old(state.formData)[k]
      ensures state == old(state).(formData := state.formData)
    {
      state := state.(formData := state.formData + payload);
    }

    /** `setCurrentStep`: only the step changes. */
    method SetCurrentStep(step: int)
      modifies this
      ensures state == old(state).(currentStep := step)
    {
      state := state.(currentStep := step);
    }

    /** `resetRegistration`: back to the initial state. */
    method ResetRegistration()
      modifies this
      ensures state == INITIAL_REGISTRATION_STATE
    {
      state := INITIAL_REGISTRATION_STATE;
    }

    /** The `loadRegistrationDraft` thunk and its reducer: the stored draft replaces the form, or `{}` without one. */
    method LoadRegistrationDraft(fails: bool)
      modifies this
      ensures var draft := storage.GetRegistrationDraft(fails);
        state == old(state).(formData := if draft.Some? then draft.value else map[])
    {
      var draft := storage.GetRegistrationDraft(fails);
      var loaded := if draft.Some? then draft.value else map[];
      state := state.(formData := loaded);
    }

    /**
     * The `saveRegistrationDraft` thunk and its reducer: persist the payload, then replace the
     * whole form with it. The draft write never raises, so the form is replaced either way.
     */
    method SaveRegistrationDraft(formData: FormData, fails: bool)
      modifies this, storage
      ensures state == old(state).(formData := formData)
      ensures !fails ==> storage.GetRegistrationDraft(false) == Some(formData)
      ensures storage.plain ==
        if fails then old(storage.plain) else old(storage.plain)[REGISTRATION_DRAFT_KEY := StoredDraft(formData)]
      ensures storage.secure == old(storage.secure) && storage.encrypted == old(storage.encrypted)
    {
      storage.StoreRegistrationDraft(formData, fails);
      state := state.(formData := formData);
    }

    method SubmitRegistrationPending()
      modifies this
      ensures state == old(state).(isSubmitting := true, error := None)
    {
      state := state.(isSubmitting := true, error := None);
    }

    method SubmitRegistrationFulfilled()
      modifies this
      ensures state == old(state).(isSubmitting := false, formData := map[])
    {
      state := state.(isSubmitting := false, formData := map[]);
    }

    /** `submitRegistration.rejected`: the form is kept so the user can correct it. */
    method SubmitRegistrationRejected(message: string)
      modifies this
      ensures state == old(state).(isSubmitting := false, error := Some(message))
    {
      state := state.(isSubmitting := false, error := Some(message));
    }

    /**
     * The `submitRegistration` thunk with its reducers: register through the service and, only
     * once that has returned, clear the stored draft and the form; a failure keeps both.
     */
    method SubmitRegistration(form: RegistrationForm, idNonce: Nonce, createdAt: string, tokenNonce: Nonce,
                              later: nat, faults: WriteFaults, draftFails: bool, clearFails: bool)
      returns (r: Result<AuthResult>)
      requires Valid()
      modifies this, auth, storage
      ensures Valid()
      ensures r.Ok? <==> Normalize(form.email) !in old(auth.users) && faults == NO_FAULTS
      ensures Normalize(form.email) in old(auth.users) ==>
        r == Err(DUPLICATE_EMAIL_ERROR) && auth.users == old(auth.users) && unchanged(storage)
      ensures Normalize(form.email) !in old(auth.users) ==>
        auth.users == old(auth.users)[Normalize(form.email) :=
          UserRecord(NewUser(form, SessionToken.GenerateUniqueId(idNonce), createdAt),
                     PasswordHash.HexString(PasswordHash.RollingHash(form.password)))]
      ensures Normalize(form.email) !in old(auth.users) ==>
        r == if faults.credentials then Err(CREDENTIALS_ERROR)
             else if faults.userData then Err(USER_DATA_ERROR)
             else if faults.sessionToken then Err(SESSION_TOKEN_ERROR)
             else Ok(AuthResult(NewUser(form, SessionToken.GenerateUniqueId(idNonce), createdAt),
                                SessionToken.GenerateSessionToken(tokenNonce, later)))
      ensures r.Ok? ==>
        r.value == AuthResult(NewUser(form, SessionToken.GenerateUniqueId(idNonce), createdAt),
                              SessionToken.GenerateSessionToken(tokenNonce, later))
        && state == old(state).(isSubmitting := false, error := None, formData := map[])
        && r.value.user.email == Normalize(form.email)
        && storage.GetCredentials(false) == Some(Credentials(Normalize(form.email), form.password))
        && storage.GetUserData(false) == Some(r.value.user)
        && storage.GetSessionToken(false) == Some(r.value.token)
        && storage.plain == if draftFails && clearFails then old(storage.plain)
                            else old(storage.plain) - {REGISTRATION_DRAFT_KEY}
      ensures r.Err? ==>
        state == old(state).(isSubmitting := false, error := Some(r.error))
        && storage.plain == old(storage.plain)
    {
      SubmitRegistrationPending();
      var result := auth.Register(form, idNonce, createdAt, tokenNonce, later, faults, draftFails);
      if result.Ok? {
        storage.ClearRegistrationDraft(clearFails);
        SubmitRegistrationFulfilled();
        r := result;
      } else {
        var message := RejectMessage(result.error, REGISTRATION_FAILED);
        SubmitRegistrationRejected(message);
        r := Err(message);
      }
    }
  }

  /**
   * A draft saved in one session comes back in the next: a fresh slice over the same storage
   * loads exactly the saved form.
   */
  method DraftRoundTripScenario(auth: AuthService, formData: FormData) returns (restored: RegistrationSlice)
    requires auth.Valid()
    modifies auth.storage
    ensures restored.state == INITIAL_REGISTRATION_STATE.(formData := formData)
  {
    var slice := new RegistrationSlice(auth);
    slice.SaveRegistrationDraft(formData, false);
    restored := new RegistrationSlice(auth);
    restored.LoadRegistrationDraft(false);
  }

  /** Merging keeps fields the payload does not name; saving a draft drops them. */
  method MergeVersusOverwriteScenario(auth: AuthService, field: string, other: string, a: FieldValue, b: FieldValue)
    returns (merged: FormData, saved: FormData)
    requires auth.Valid() && field != other
    modifies auth.storage
    ensures other in merged && merged[other] == b && field in merged && merged[field] == a
    ensures other !in saved && field in saved && saved[field] == a
  {
    var slice := new RegistrationSlice(auth);
    slice.UpdateFormData(map[other := b]);
    slice.UpdateFormData(map[field := a]);
    merged := slice.state.formData;
    slice.SaveRegistrationDraft(map[field := a], false);
    saved := slice.state.formData;
  }
}
