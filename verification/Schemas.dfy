/** The request and queue records that the services pass to one another. */
module Schemas {
  import opened Wrappers

  /** Identifiers are UUIDs in the program; only their equality matters. */
  type RequestId = nat
  type BatchId = nat

  /** A point in time, in milliseconds. */
  type Time = int

  /** A priority class by name; a name other than the three the platform defines is unlisted. */
  datatype PriorityClass = Elevated | Standard | Background | Unlisted(name: string)

  datatype InferenceRequest = InferenceRequest(
    model: string,
    promptChars: nat,
    maxTokens: nat,
    priorityClass: Option<PriorityClass>
  )

  datatype QueueItem = QueueItem(
    requestId: RequestId,
    request: InferenceRequest,
    arrivalTime: Time,
    enqueuedAt: Time,
    priorityClass: PriorityClass
  )
}
