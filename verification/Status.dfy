/** Result codes shared by every layer of the engine. */
module Status {
  datatype Status =
    | Ok
    | WouldBlock
    | Timeout
    | Cancelled
    | Unsupported
    | InvalidArgument
    | OutOfRange
    | NotFound
    | StaleGeneration
    | PeerDisconnected
    | ResourceExhausted
    | DeviceError
    | TransportError
    | Internal
}
