/** The checks both POST handlers make before touching a browser, and the
    responses they send. */
module Requests {
  import opened Results
  import opened Reviews

  /** What a handler reads from the request: the `apikey` header and the
      `firm` field of the parsed body (`None` when absent). */
  datatype Request = Request(apiKey: Option<string>, firm: Option<string>)

  /** `process.env.API_KEY || config.apikey`: the environment key when it is
      set and non-empty, the configured key otherwise. */
  function AcceptedKey(envKey: Option<string>, configKey: Option<string>): (k: Option<string>)
    ensures envKey.Some? && envKey.value != "" ==> k == envKey
    ensures envKey.None? || envKey.value == "" ==> k == configKey
  {
    if envKey.Some? && envKey.value != "" then envKey else configKey
  }

  /** `validateApiKey`: strict equality with the accepted key. The check
      admits exactly one header value (or its absence): the environment key
      when that is set and non-empty, the configured key otherwise. */
  predicate ValidateApiKey(provided: Option<string>, envKey: Option<string>, configKey: Option<string>)
    ensures envKey.Some? && envKey.value != "" ==> (ValidateApiKey(provided, envKey, configKey) <==> provided == envKey)
    ensures envKey.None? || envKey.value == "" ==> (ValidateApiKey(provided, envKey, configKey) <==> provided == configKey)
  {
    provided == AcceptedKey(envKey, configKey)
  }

  /** With no key in the environment and none in the configuration,
      `undefined === undefined` holds: a request without the header passes. */
  lemma MissingKeyAcceptedWhenNoneConfigured(envKey: Option<string>)
    requires envKey.None? || envKey == Some("")
    ensures ValidateApiKey(None, envKey, None)
    ensures forall k :: !ValidateApiKey(Some(k), envKey, None)
  {
  }

  /** `!firm` is false exactly for a present, non-empty name. */
  predicate FirmGiven(firm: Option<string>)
    ensures !FirmGiven(firm) <==> firm == None || firm == Some("")
  {
    firm.Some? && firm.value != ""
  }

  // ---------------------------------------------------------------------
  // Responses
  // ---------------------------------------------------------------------

  /** The JSON bodies the handlers send. */
  datatype Body =
    | Message(message: string)                                   // {success: 0, message}
    | KeyRejected                                                // {success: 0, api: 0, message: "Invalid API Key requested"}
    | NoReviews(firmName: Option<string>, message: string)       // {success: 0, firm_name, message, totalCount: 0, reviews: []}
    | Extracted(envelope: Envelope)                              // the gzipped object of api.js
    | Records(records: seq<Record>)                              // the gzipped array of the backup handler
    | Empty                                                      // no body (304)

  datatype Response = Response(status: nat, body: Body)

  const InvalidKeyMessage: string := "Invalid API Key requested"
  const BlankFirmMessage: string := "Firm Name cannot be blank."
  const NotFoundMessage: string := "Business Account Does Not Exist!"
  const InternalErrorMessage: string := "Internal Server Error"

  /** `sendErrorResponse(res, status, message)` of api.js. */
  function ErrorResponse(status: nat, message: string): (r: Response)
    ensures r.status == status && r.body == Message(message)
  {
    Response(status, Message(message))
  }

  /** The pre-checks of `handleFreeGoogleReviews`: `None` lets the request
      through to the browser. The key is checked first, so a request with a
      bad key and no firm gets 401. */
  function CheckRequest(req: Request, envKey: Option<string>, configKey: Option<string>): (r: Option<Response>)
    ensures r.None? <==> ValidateApiKey(req.apiKey, envKey, configKey) && FirmGiven(req.firm)
    ensures !ValidateApiKey(req.apiKey, envKey, configKey) ==> r == Some(Response(401, Message(InvalidKeyMessage)))
    ensures ValidateApiKey(req.apiKey, envKey, configKey) && !FirmGiven(req.firm) ==> r == Some(Response(400, Message(BlankFirmMessage)))
  {
    if !ValidateApiKey(req.apiKey, envKey, configKey) then Some(ErrorResponse(401, InvalidKeyMessage))
    else if !FirmGiven(req.firm) then Some(ErrorResponse(400, BlankFirmMessage))
    else None
  }

  /** The pre-checks of the backup handler, with its own bodies: 401 carries
      `api: 0`, 400 the empty review list and the firm name as sent. */
  function CheckRequestBackup(req: Request, envKey: Option<string>, configKey: Option<string>): (r: Option<Response>)
    ensures r.None? <==> ValidateApiKey(req.apiKey, envKey, configKey) && FirmGiven(req.firm)
    ensures !ValidateApiKey(req.apiKey, envKey, configKey) ==> r == Some(Response(401, KeyRejected))
    ensures ValidateApiKey(req.apiKey, envKey, configKey) && !FirmGiven(req.firm) ==> r == Some(Response(400, NoReviews(req.firm, BlankFirmMessage)))
  {
    if !ValidateApiKey(req.apiKey, envKey, configKey) then Some(Response(401, KeyRejected))
    else if !FirmGiven(req.firm) then Some(Response(400, NoReviews(req.firm, BlankFirmMessage)))
    else None
  }

  /** Both handlers reject the same requests, with the same status codes. */
  lemma ChecksAgree(req: Request, envKey: Option<string>, configKey: Option<string>)
    ensures CheckRequest(req, envKey, configKey).None? <==> CheckRequestBackup(req, envKey, configKey).None?
    ensures CheckRequest(req, envKey, configKey).Some? ==>
      CheckRequest(req, envKey, configKey).value.status == CheckRequestBackup(req, envKey, configKey).value.status
  {
  }
}
