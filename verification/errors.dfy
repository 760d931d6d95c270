/** The exceptions the job logic raises, as values. */
module Errors {

  /** Why a SpecificationError was raised; the source attaches a message to
      each, and this names which message it is. */
  datatype SpecReason =
    | DatasetNotFound      // no catalog entry with that name on the provider
    | InvalidDatasetType   // a named dataset whose type is neither existing nor public
    | MissingDatasetKey    // neither id, dataset_uuid nor name was given
    | GpuTypeNotFound      // no GPU type with that name or id
    | NotCopyable          // only notebook jobs can be copied
    | InvalidWaitStatus    // wait_for target outside the legal set

  /** A rejection by the remote service: HTTP status code and body. */
  datatype ApiError = ApiError(status: int, body: string)

  datatype Error =
    | SpecificationError(field: string, reason: SpecReason)
      /** Python's TypeError or AttributeError on a value of the wrong shape
          (for instance `.get` on None). */
    | Malformed
}
