/** The shared API error value: its HTTP status, its text, the two setters and the constructors. */
module ApiErrors {
  import opened Util

  const ErrorTypeAuth := "auth"
  const ErrorTypeValidation := "validation"
  const ErrorTypePermission := "permission"
  const ErrorTypeNotFound := "not_found"
  const ErrorTypeDuplicate := "duplicate"
  const ErrorTypeDatabase := "database"
  const ErrorTypeInternal := "internal"
  const ErrorTypeExternal := "external"

  /** The HTTP status for an error type; the database, internal and every unknown type give 500. */
  function StatusFor(errorType: string): (status: int)
    ensures status in {400, 401, 403, 404, 409, 500, 502}
    ensures status == 401 <==> errorType == ErrorTypeAuth
    ensures status == 400 <==> errorType == ErrorTypeValidation
    ensures status == 403 <==> errorType == ErrorTypePermission
    ensures status == 404 <==> errorType == ErrorTypeNotFound
    ensures status == 409 <==> errorType == ErrorTypeDuplicate
    ensures status == 502 <==> errorType == ErrorTypeExternal
  {
    if errorType == ErrorTypeAuth then 401
    else if errorType == ErrorTypeValidation then 400
    else if errorType == ErrorTypePermission then 403
    else if errorType == ErrorTypeNotFound then 404
    else if errorType == ErrorTypeDuplicate then 409
    else if errorType == ErrorTypeExternal then 502
    else if errorType == ErrorTypeDatabase then 500
    else if errorType == ErrorTypeInternal then 500
    else 500
  }

  /** The error text: "type: message", extended by " - details" exactly when there are details. */
  function ErrorText(errorType: string, message: string, details: string): (text: string)
    ensures details == "" ==> text == errorType + ": " + message
    ensures details != "" ==> text == ErrorText(errorType, message, "") + " - " + details
    decreases if details == "" then 0 else 1
  {
    if details != "" then errorType + ": " + message + " - " + details else errorType + ": " + message
  }

  /** Two texts with details differ exactly when the details do, for the same type and message. */
  lemma ErrorTextDetermined(errorType: string, message: string, d1: string, d2: string)
    requires d1 != "" && d2 != ""
    ensures ErrorText(errorType, message, d1) == ErrorText(errorType, message, d2) <==> d1 == d2
  {
    var base := errorType + ": " + message + " - ";
    if ErrorText(errorType, message, d1) == ErrorText(errorType, message, d2) {
      assert base + d1 == base + d2;
      assert d1 == (base + d1)[|base|..];
      assert d2 == (base + d2)[|base|..];
    }
  }

  class APIError {
    var errorType: string
    var code: string
    var message: string
    var details: string
    /** The wrapped Go error, by its text; None is a nil error. */
    var internal: Option<string>

    /** StatusCode. */
    function StatusCode(): (status: int)
      reads this
      ensures status == StatusFor(errorType)
    {
      StatusFor(errorType)
    }

    /** Error. */
    function Error(): (text: string)
      reads this
      ensures text == ErrorText(errorType, message, details)
    {
      ErrorText(errorType, message, details)
    }

    /** WithDetails: sets the details and returns the same error; nothing else changes. */
    method WithDetails(details: string) returns (e: APIError)
      modifies this
      ensures e == this && this.details == details
      ensures errorType == old(errorType) && code == old(code) && message == old(message) && internal == old(internal)
    {
      this.details := details;
      return this;
    }

    /** WithInternal: sets the wrapped error and returns the same error; nothing else changes. */
    method WithInternal(err: Option<string>) returns (e: APIError)
      modifies this
      ensures e == this && internal == err
      ensures errorType == old(errorType) && code == old(code) && message == old(message) && details == old(details)
    {
      internal := err;
      return this;
    }

    constructor NewAuthError(message: string)
      ensures errorType == ErrorTypeAuth && code == "unauthorized" && this.message == message
      ensures details == "" && internal == None && StatusCode() == 401
    {
      errorType, code, this.message, details, internal := ErrorTypeAuth, "unauthorized", message, "", None;
    }

    constructor NewValidationError(message: string)
      ensures errorType == ErrorTypeValidation && code == "invalid_input" && this.message == message
      ensures details == "" && internal == None && StatusCode() == 400
    {
      errorType, code, this.message, details, internal := ErrorTypeValidation, "invalid_input", message, "", None;
    }

    constructor NewPermissionError(message: string)
      ensures errorType == ErrorTypePermission && code == "forbidden" && this.message == message
      ensures details == "" && internal == None && StatusCode() == 403
    {
      errorType, code, this.message, details, internal := ErrorTypePermission, "forbidden", message, "", None;
    }

    constructor NewNotFoundError(resourceType: string, resourceID: string)
      ensures errorType == ErrorTypeNotFound && code == "not_found"
      ensures message == resourceType + " with ID " + resourceID + " not found"
      ensures details == "" && internal == None && StatusCode() == 404
    {
      errorType, code, details, internal := ErrorTypeNotFound, "not_found", "", None;
      message := resourceType + " with ID " + resourceID + " not found";
    }

    constructor NewDuplicateError(resourceType: string, field: string)
      ensures errorType == ErrorTypeDuplicate && code == "duplicate_resource"
      ensures message == resourceType + " with this " + field + " already exists"
      ensures details == "" && internal == None && StatusCode() == 409
    {
      errorType, code, details, internal := ErrorTypeDuplicate, "duplicate_resource", "", None;
      message := resourceType + " with this " + field + " already exists";
    }

    constructor NewDatabaseError(operation: string, err: Option<string>)
      ensures errorType == ErrorTypeDatabase && code == "database_error"
      ensures message == "Database error during " + operation
      ensures details == "" && internal == err && StatusCode() == 500
    {
      errorType, code, details, internal := ErrorTypeDatabase, "database_error", "", err;
      message := "Database error during " + operation;
    }

    constructor NewInternalError(message: string, err: Option<string>)
      ensures errorType == ErrorTypeInternal && code == "internal_error" && this.message == message
      ensures details == "" && internal == err && StatusCode() == 500
    {
      errorType, code, this.message, details, internal := ErrorTypeInternal, "internal_error", message, "", err;
    }

    constructor NewExternalServiceError(service: string, message: string, err: Option<string>)
      ensures errorType == ErrorTypeExternal && code == "external_service_error"
      ensures this.message == "Error from " + service + " service: " + message
      ensures details == "" && internal == err && StatusCode() == 502
    {
      errorType, code, details, internal := ErrorTypeExternal, "external_service_error", "", err;
      this.message := "Error from " + service + " service: " + message;
    }
  }
}
