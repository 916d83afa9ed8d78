/** The exceptions the core raises or lets through, as values. */
module Errors {

  /** An HTTP status in the client-error class 4xx. */
  type ClientStatus = s: int | 400 <= s < 500 witness 400

  /** The HTTP status Spring uses for `HttpStatus.NOT_FOUND`. */
  const NOT_FOUND: ClientStatus := 404

  datatype Failure =
    /** `NotFoundException`: no price record, or the name service does not know the id. */
    | NotFound
    /** An `HttpClientErrorException` from the name service, rethrown with its status. */
    | HttpClientError(status: ClientStatus)
    /** `RestClientException("Unable to read product name.")`: an unusable name payload. */
    | ReadFailure
    /** Any other failure of the outbound call (a 5xx status, an I/O error), not caught. */
    | UpstreamFailure
    /**
     * An unchecked exception: a null id handed to `checkNotNull`, a null price dereferenced, or a
     * null reply body handed to `readTree`.
     */
    | NullReference
}
