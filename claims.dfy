/** JWT claims as the auth service writes them (generateJWT in
    auth/internal/v1/service/auth.go) and the user service's middleware reads
    them back (user/internal/v1/middleware/jwt.go): a JSON object whose
    values are strings, numbers (`float64` once decoded) or anything else. */
module Claims {
  datatype ClaimValue = Str(s: string) | Num(x: int) | OtherValue

  type ClaimMap = map<string, ClaimValue>

  const UserIdKey: string := "user_id"
  const FullNameKey: string := "full_name"
  const EmailKey: string := "email"
  const ExpiresKey: string := "exp"

  /** Seconds per hour, for `time.Hour`. */
  const SecondsPerHour: int := 3600
}
