/** The configuration values the auth core reads (config/auth-config.ts),
    as a record of constants. Loading them from the environment is not modelled. */
module Config {

  datatype AuthConfig = AuthConfig(
    allowRegistration: bool,
    jwtSecret: string,
    jwtExpiresInSeconds: int,
    captchaTtlSeconds: int,
    captchaCooldownSeconds: int,
    captchaCooldownMaxRequests: int,
    passwordMinLength: int,
    requireLetterAndNumber: bool,
    rateLimitMaxFailures: int,
    rateLimitLockMinutes: int)

  /** The values used when no environment variable is set ("7d" is 604800 seconds). */
  const Defaults: AuthConfig := AuthConfig(
    allowRegistration := true,
    jwtSecret := "change-me",
    jwtExpiresInSeconds := 7 * 24 * 60 * 60,
    captchaTtlSeconds := 300,
    captchaCooldownSeconds := 5,
    captchaCooldownMaxRequests := 3,
    passwordMinLength := 8,
    requireLetterAndNumber := true,
    rateLimitMaxFailures := 5,
    rateLimitLockMinutes := 10)
}
