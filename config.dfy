/** Settings validation: only the HMAC algorithms of section 3.2 of RFC 7518 may sign tokens. */
module Config {

  datatype Validated = Accepted(value: string) | ValueError(message: string)

  const DefaultAlgorithm: string := "HS256"
  const AlgorithmMessage: string := "Algorithm must be HS256 or HS512"

  /** `Settings.validate_algorithm`: a value outside ["HS256", "HS512"] raises ValueError,
      any other value is returned as it came. */
  function ValidateAlgorithm(v: string): (r: Validated)
    ensures r.Accepted? <==> v == "HS256" || v == "HS512"
    ensures r.Accepted? ==> r.value == v
    ensures r.ValueError? ==> r.message == AlgorithmMessage
  {
    if v !in ["HS256", "HS512"] then ValueError(AlgorithmMessage) else Accepted(v)
  }

  /** The default setting passes its own validator. */
  lemma DefaultAlgorithmValid()
    ensures ValidateAlgorithm(DefaultAlgorithm) == Accepted(DefaultAlgorithm)
  {
  }

  /** Validation is idempotent: an accepted value validates again to itself. */
  lemma ValidateAlgorithmIdempotent(v: string)
    requires ValidateAlgorithm(v).Accepted?
    ensures ValidateAlgorithm(ValidateAlgorithm(v).value) == ValidateAlgorithm(v)
  {
  }
}
