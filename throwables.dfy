/** The part of Java's Throwable hierarchy that the job wrapper and the
    scheduler tell apart: an Exception (what the logger's cancellation
    checkpoint throws, and what a failing job body throws), the
    OutOfMemoryError that `JobMagnum.run` catches separately, and any other
    Error, which nothing in the core catches. */
module Throwables {

  datatype Throwable =
    | Exception(message: string)
    | OutOfMemoryError
    | OtherError(message: string)
}
