/** The record of a request that the control plane keeps, and the registry of these records. */
module Registry {
  import opened Wrappers
  import opened Schemas
  import opened RequestStates

  type BackendName = string

  /** What the adapter reports of a finished request. */
  datatype Completion = Completion(generatedText: string, promptTokens: nat, completionTokens: nat,
                                   finishReason: Option<string>)

  /** The fields of a record that the lifecycle owns. */
  datatype Entry = Entry(
    request: InferenceRequest,
    arrivalTime: Time,
    state: RequestState,
    batchId: Option<BatchId>,
    backendId: Option<BackendName>,
    failure: Option<(FailureReason, string)>,
    completion: Option<Completion>
  )

  type Entries = map<RequestId, Entry>

  /** The queue owns two more fields: the time of entry and the position. */
  class RegisteredRequest {
    const requestId: RequestId
    const request: InferenceRequest
    const arrivalTime: Time
    var state: RequestState
    var batchId: Option<BatchId>
    var backendId: Option<BackendName>
    var failure: Option<(FailureReason, string)>
    var completion: Option<Completion>
    var queueEnteredAt: Option<Time>
    var queuePosition: Option<nat>

    constructor (requestId: RequestId, request: InferenceRequest, arrivalTime: Time, state: RequestState)
      ensures Value() == Entry(request, arrivalTime, state, None, None, None, None)
      ensures this.requestId == requestId && queueEnteredAt == None && queuePosition == None
    {
      this.requestId, this.request, this.arrivalTime, this.state := requestId, request, arrivalTime, state;
      batchId, backendId, failure, completion, queueEnteredAt, queuePosition := None, None, None, None, None, None;
    }

    function Value(): Entry
      reads this`state, this`batchId, this`backendId, this`failure, this`completion
    {
      Entry(request, arrivalTime, state, batchId, backendId, failure, completion)
    }
  }
}
