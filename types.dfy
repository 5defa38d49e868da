/** Data shapes shared by the services and the two slices (the app's `types` file). */
module Types {

  datatype Option<T> = None | Some(value: T)

  /** The value of an operation that either returns or throws an `Error` with a message. */
  datatype Result<T> = Ok(value: T) | Err(error: string)

  /** The value of a `Promise<void>` operation: resolves, or rejects with a message. */
  datatype Outcome = Pass | Fail(error: string)

  /** A registered identity. `phone` and `phoneNumber` are both kept, as the source does. */
  datatype User = User(
    id: string,
    firstName: string,
    lastName: string,
    email: string,
    phone: string,
    phoneNumber: string,
    country: string,
    dateOfBirth: string,
    gender: string,
    address: string,
    city: string,
    postalCode: string,
    createdAt: string)

  datatype Credentials = Credentials(email: string, password: string)

  /** What `register` receives: the form without `confirmPassword` and `agreeToTerms`. */
  datatype RegistrationForm = RegistrationForm(
    firstName: string,
    lastName: string,
    email: string,
    password: string,
    phone: string,
    country: string,
    dateOfBirth: string,
    gender: string,
    address: string,
    city: string,
    postalCode: string)

  /** One field of a partially filled registration form. */
  datatype FieldValue = FieldText(text: string) | FieldFlag(flag: bool)

  /** A partial registration form: field name to value. */
  type FormData = map<string, FieldValue>

  /** What `register` and `login` return, and what `verifySession` finds. */
  datatype AuthResult = AuthResult(user: User, token: string)

  /** The `auth` slice of the Redux store. */
  datatype AuthState = AuthState(
    isAuthenticated: bool,
    user: Option<User>,
    sessionToken: Option<string>,
    isLoading: bool,
    error: Option<string>,
    failedAttempts: int,
    isLocked: bool,
    lockoutEndTime: Option<int>)

  /** The `registration` slice of the Redux store. */
  datatype RegistrationState = RegistrationState(
    formData: FormData,
    currentStep: int,
    isSubmitting: bool,
    error: Option<string>)

  /** A reading of the clock (`Date.now()`) and of the random generator, both inputs of the model. */
  datatype Nonce = Nonce(now: nat, random: string)

  /** `error.message || fallback`: what a thunk rejects with; an empty message gives the fallback. */
  function RejectMessage(message: string, fallback: string): (m: string)
    ensures m != "" || fallback == ""
    ensures message != "" ==> m == message
    ensures message == "" ==> m == fallback
  {
    if message == "" then fallback else message
  }
}
