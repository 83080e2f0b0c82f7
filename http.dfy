/**
 * The web vocabulary the auth layer works in: requests, response bodies
 * (JSON envelopes and identity-provider payloads) and Remix's `json` and
 * `redirect` responses.
 */
module Http {
  import opened Wrappers

  /** A JSON value, standing for any non-string value a caller hands over. */
  datatype JsonValue =
    | JNull
    | JBool(b: bool)
    | JNumber(n: int)
    | JString(s: string)
    | JArray(items: seq<JsonValue>)
    | JObject(members: seq<(string, JsonValue)>)

  /** Submitted form fields; `form.get(name)` is a lookup. */
  type FormData = map<string, string>

  function FormGet(form: FormData, name: string): (v: Option<string>)
    ensures v.Some? <==> name in form
    ensures v.Some? ==> v.value == form[name]
  {
    if name in form then Some(form[name]) else None
  }

  /**
   * An incoming request: its `Cookie` header, and the result of reading its
   * body as form data (`request.formData()`), which may throw.
   */
  datatype Request = Request(cookie: Option<string>, form: Result<FormData>)

  /** The `status` field of an error envelope. */
  datatype EnvelopeStatus = ValidationFailure | Error

  /** What the identity provider reports about an account: `uid` and `email`. */
  datatype IdentityRecord = IdentityRecord(uid: Option<string>, email: Option<string>)

  datatype Body =
    /** `{ status: 'success' }` */
    | SuccessEnvelope
    /**
     * `{ status?, errorCode, errorMessage }`; the session envelope has no
     * `status` field, the routes' AppError envelopes do.
     */
    | ErrorEnvelope(status: Option<EnvelopeStatus>, errorCode: string, errorMessage: string)
    /** A payload from the identity provider, of which only `user` is read. */
    | ProviderPayload(user: Option<IdentityRecord>)

  datatype Response =
    /** Remix `redirect(location, init)`: status 302 with a `Location` header. */
    | Redirect(location: string, setCookie: Option<string>)
    /** Remix `json(body, init)`. */
    | Json(status: int, body: Body, setCookie: Option<string>)

  /** JavaScript truthiness of an optional string: present and not `""`. */
  predicate Truthy(s: Option<string>) {
    s.Some? && s.value != ""
  }
}
