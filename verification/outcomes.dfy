/** Failure values of one watcher cycle. Each stands for an exception that the
    script lets propagate out of its per-region cycle. */
module Outcomes {

  datatype Error =
    | NoSuchKey(key: string)   // the snapshot object for a region does not exist
    | ListingIncomplete        // the parameter store stopped answering mid-pagination
    | DeliveryFailed           // the webhook POST did not go through

  datatype Result<T> = Ok(value: T) | Err(error: Error)

  /** What a cycle that returns nothing (or raises) ends with. */
  datatype Outcome = Done | Failed(error: Error)
}
