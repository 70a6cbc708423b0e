// What can happen to one call of the store: it works, it fails without effect, or it takes effect and its acknowledgement is lost.
module StoreCalls {
  datatype Fault = Ok | Error | LostAck
}
