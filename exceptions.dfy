/** The errors the request-validation code can raise (src/domain/exceptions.py),
    and the Python runtime errors it lets escape. */
module Exceptions {

  /** A ServiceException: a message for the caller and an HTTP status code. */
  datatype ServiceException = ServiceException(errorMessage: string, statusCode: int)

  /** A DomainException is a ServiceException with status 400. */
  function DomainException(message: string): ServiceException {
    ServiceException(message, 400)
  }

  /** What building a record from a request body can raise. */
  datatype Fault =
    | Service(exception: ServiceException)  // a raised ServiceException
    | NoUser        // AttributeError: `user.user_id` read when no user is authenticated
    | DateNotText   // TypeError: the "date" value handed to strptime is not a string
    | DateMalformed // ValueError: the "date" text does not match the expected format

  /** The DomainException raised when a required key is absent from a body. */
  function MissingKey(key: string): Fault {
    Service(DomainException("Missing required key '" + key + "' in request body"))
  }

  /** Different missing keys are reported with different messages. */
  lemma MissingKeyNamesTheKey(k1: string, k2: string)
    requires MissingKey(k1) == MissingKey(k2)
    ensures k1 == k2
  {
    var prefix := "Missing required key '";
    var m1 := MissingKey(k1).exception.errorMessage;
    var m2 := MissingKey(k2).exception.errorMessage;
    assert |m1| == |prefix| + |k1| + |"' in request body"|;
    assert m1[|prefix|..|prefix| + |k1|] == k1;
    assert m2[|prefix|..|prefix| + |k2|] == k2;
  }
}
