/** Values shared by the selection engine and the discovery facade: the SRV
    record as the resolver hands it over, an optional value, and the errors
    the facade passes through. */
module NetTypes {

  /** Go's `uint16`: ports, priorities and weights of an SRV record. */
  newtype uint16 = x: int | 0 <= x < 0x1_0000

  /** One DNS SRV record (Go's `net.SRV`): target host, port, priority
      (lower is preferred) and weight (share within one priority). */
  datatype SRV = SRV(target: string, port: uint16, priority: uint16, weight: uint16)

  datatype Option<+T> = None | Some(value: T)

  /** The errors the facade can surface. The resolver and the dialer are
      outside the model, so their failures are carried as opaque messages. */
  datatype NetError =
    | UnknownNetworkError(proto: string)
    | LookupError(message: string)
    | DialError(message: string)
}
