/** The configuration and the connection states. */
module Types {
  import opened Numbers

  datatype RawConfig = RawConfig(
    mss: u16,
    receiveBuffer: nat,
    sendBuffer: nat,
    maxConnections: nat,
    maxConnectionsPerPeer: nat,
    maxReassemblySegments: nat,
    initialRto: u64,
    minRto: u64,
    maxRto: u64,
    maxRetransmissions: u8,
    finWait2: u64,
    timeWait: u64)

  /** What `Config::validate` accepts. */
  predicate Validated(c: RawConfig) {
    && c.mss != 0
    && 1 <= c.receiveBuffer <= 0xFFFF
    && c.sendBuffer != 0
    && c.maxConnections != 0 && c.maxConnectionsPerPeer != 0 && c.maxReassemblySegments != 0
    && 1 <= c.minRto <= c.initialRto <= c.maxRto
    && c.finWait2 != 0
  }

  const DEFAULT_CONFIG :=
    RawConfig(1024, 0xFFFF, 0x10_0000, 1024, 0xFFFF_FFFF_FFFF_FFFF, 128, 1000, 200, 60_000, 8, 60_000, 30_000)

  /** A stack only ever holds a validated configuration. */
  type Config = c: RawConfig | Validated(c) witness DEFAULT_CONFIG

  datatype State =
    | SynSent
    | SynReceived
    | Established
    | FinWait1
    | FinWait2
    | CloseWait
    | Closing
    | LastAck
    | TimeWait
}
