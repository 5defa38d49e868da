/** Lockout policy and the persisted key space. */
module Constants {

  const MAX_LOGIN_ATTEMPTS: int := 5

  /** Fifteen minutes, in milliseconds. */
  const LOCKOUT_DURATION: int := 15 * 60 * 1000

  const USER_DATA_KEY: string := "@user_data"
  const SESSION_TOKEN_KEY: string := "@session_token"
  const REGISTRATION_DRAFT_KEY: string := "@registration_draft"
  const FAILED_ATTEMPTS_KEY: string := "@failed_attempts"
  const LOCKOUT_TIME_KEY: string := "@lockout_time"

  /** The keychain service under which the one credential pair is kept. */
  const KEYCHAIN_SERVICE: string := "com.visaregistrationapp"
}
