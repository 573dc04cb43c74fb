/**
 * The server's error objects and their JSON-RPC error responses. The codes follow section 5.1
 * of the JSON-RPC 2.0 Specification: -32602 invalid params, -32601 method not found, -32603
 * internal error, and codes from the reserved server-error range -32099..-32000 for the rest.
 */
module Errors {
  import opened Wrappers
  import opened JsonValues

  const ServerErrorCode := -32000
  const InvalidParamsCode := -32602
  const MethodNotFoundCode := -32601
  const InternalErrorCode := -32603
  const DesignGenerationCode := -32001
  const ConstraintViolationCode := -32002

  /** The subclass an error was built by. */
  datatype ErrorKind = Base | Validation | MethodNotFound | Internal | DesignGeneration | ConstraintViolation

  datatype ConjointError = ConjointError(kind: ErrorKind, message: string, code: int, data: Optional<map<string, Json>>)

  /** A reserved implementation-defined server error code. */
  predicate ServerRange(code: int) {
    -32099 <= code <= -32000
  }

  /** The base error: message, code (by default -32000) and data, stored as given. */
  function NewError(message: string, code: int := ServerErrorCode, data: Optional<map<string, Json>> := None): (e: ConjointError)
    ensures e.message == message && e.code == code && e.data == data
  {
    ConjointError(Base, message, code, data)
  }

  /** A validation failure: invalid params, carrying the (possibly absent) list of failures. */
  function NewValidationError(message: string, validationErrors: Optional<seq<Json>>): (e: ConjointError)
    ensures e.code == InvalidParamsCode && e.message == message
    ensures e.data == Some(map["validation_errors" := if validationErrors.Some? then JList(validationErrors.value) else JNull])
  {
    var errors := if validationErrors.Some? then JList(validationErrors.value) else JNull;
    ConjointError(Validation, message, InvalidParamsCode, Some(map["validation_errors" := errors]))
  }

  /** An unknown method: a fixed message naming it, and no data. */
  function NewMethodNotFoundError(methodName: string): (e: ConjointError)
    ensures e.code == MethodNotFoundCode && e.data.None?
    ensures e.message == "Method not found: " + methodName
  {
    ConjointError(MethodNotFound, "Method not found: " + methodName, MethodNotFoundCode, None)
  }

  /** An internal error, whose data is the details as given. */
  function NewInternalError(message: string, details: Optional<map<string, Json>>): (e: ConjointError)
    ensures e.code == InternalErrorCode && e.message == message && e.data == details
  {
    ConjointError(Internal, message, InternalErrorCode, details)
  }

  /** A failed generation: a server error naming the method and the details. */
  function NewDesignGenerationError(message: string, methodName: string, details: Optional<map<string, Json>>): (e: ConjointError)
    ensures e.code == DesignGenerationCode && ServerRange(e.code) && e.message == message
    ensures e.data.Some? && e.data.value.Keys == {"method", "details"} && e.data.value["method"] == JStr(methodName)
  {
    var detailsJson := if details.Some? then JObject(details.value) else JNull;
    ConjointError(DesignGeneration, message, DesignGenerationCode,
                  Some(map["method" := JStr(methodName), "details" := detailsJson]))
  }

  /** A constraint violation: a server error carrying the violation list. */
  function NewConstraintViolationError(message: string, violations: seq<Json>): (e: ConjointError)
    ensures e.code == ConstraintViolationCode && ServerRange(e.code) && e.message == message
    ensures e.data == Some(map["violations" := JList(violations)])
  {
    ConjointError(ConstraintViolation, message, ConstraintViolationCode, Some(map["violations" := JList(violations)]))
  }

  /** Python truthiness of the data: present and non-empty. */
  predicate Truthy(data: Optional<map<string, Json>>) {
    data.Some? && |data.value| > 0
  }

  /** `create_error_response`: the JSON-RPC envelope, with "data" only when the error's data is truthy. */
  function CreateErrorResponse(requestId: Json, error: ConjointError): (r: map<string, Json>)
    ensures r.Keys == {"jsonrpc", "id", "error"}
    ensures r["jsonrpc"] == JStr("2.0") && r["id"] == requestId
    ensures r["error"].JObject?
    ensures var body := r["error"].fields;
            && "code" in body && "message" in body
            && body["code"] == JInt(error.code) && body["message"] == JStr(error.message)
            && (body.Keys == {"code", "message", "data"} <==> Truthy(error.data))
            && (body.Keys == {"code", "message"} <==> !Truthy(error.data))
            && (Truthy(error.data) ==> body["data"] == JObject(error.data.value))
  {
    var body := map["code" := JInt(error.code), "message" := JStr(error.message)];
    var body' := if Truthy(error.data) then body["data" := JObject(error.data.value)] else body;
    map["jsonrpc" := JStr("2.0"), "id" := requestId, "error" := JObject(body')]
  }

  /** A validation error always carries data, even when its list of failures is absent. */
  lemma {:induction false} ValidationErrorHasData(requestId: Json, message: string, validationErrors: Optional<seq<Json>>)
    ensures "data" in CreateErrorResponse(requestId, NewValidationError(message, validationErrors))["error"].fields
  {
    var e := NewValidationError(message, validationErrors);
    assert "validation_errors" in e.data.value;
  }

  /** An unknown-method error never carries data. */
  lemma {:induction false} MethodNotFoundHasNoData(requestId: Json, methodName: string)
    ensures "data" !in CreateErrorResponse(requestId, NewMethodNotFoundError(methodName))["error"].fields
  {
  }
}
