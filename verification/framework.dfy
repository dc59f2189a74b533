/** The shapes the Terraform plugin framework gives the provider's
    operations: diagnostics, the state written back, and the result of
    reading the plan, the prior state or the configuration. */
module Framework {
  import opened Common
  import opened EvcliClient

  /** An error diagnostic: its summary and, when the client failed, the
      client's error (the detail text is left out). */
  datatype Diagnostic = Diagnostic(summary: string, cause: Option<Error>)

  const KsuidParse := "KsuidParse"

  /** What an operation does to the resource's state: nothing, a new
      value, or removal. */
  datatype StateWrite<M> = Untouched | Set(value: M) | Removed

  datatype Response<M> = Response(diagnostics: seq<Diagnostic>, state: StateWrite<M>)

  /** Reading the plan, state or configuration into the model: a value,
      or the framework's own diagnostics. */
  datatype Got<M> = Got(value: M) | GetFailed(diagnostics: seq<Diagnostic>)

  /** `ImportState`: diagnostics and the state attributes it sets. */
  datatype ImportResponse = ImportResponse(diagnostics: seq<Diagnostic>, attributes: map<string, string>)

  /** `errors.As(err, &e) && e.Code == code`: the client's error is the
      structured API error with that code. */
  predicate HasCode(e: Error, code: string): (b: bool)
    ensures b ==> e.Api?
    ensures e.Api? ==> (b <==> e.apiError.code == code)
  {
    e.Api? && e.apiError.code == code
  }
}
