/** The enumerations and records of internal/session/session.go. */
module SessionTypes {

  datatype Option<+T> = None | Some(value: T)

  /** Session ids are random UUIDs, assumed distinct; the model numbers them. */
  type SessionId = nat

  datatype SessionType = TypeShell | TypePortForward

  datatype SessionState =
    | StateStarting
    | StateRunning
    | StateStopping
    | StateStalled
    | StateStopped
    | StateErrored
    | StateReconnecting
  {
    /** Whether a session in this state still occupies a live or recovering connection. */
    predicate IsActive() {
      match this
      case StateStarting | StateRunning | StateStopping | StateStalled | StateReconnecting => true
      case StateStopped | StateErrored => false
    }

    /** The two states a stop request leads to. */
    predicate IsStop() {
      StateStopping? || StateStopped?
    }
  }

  datatype SessionOpts = SessionOpts(
    instanceID: string,
    instanceName: string,
    profile: string,
    typ: SessionType,
    localPort: int,
    remotePort: int,
    remoteHost: string)

  /** The fields of a Session that StartSession copies from its options; nothing changes them afterwards. */
  datatype Target = Target(
    instanceID: string,
    instanceName: string,
    profile: string,
    typ: SessionType,
    localPort: int,
    remotePort: int,
    remoteHost: string)

  /** One sample of the dashboard history chart. */
  datatype HistoryPoint = HistoryPoint(shells: int, tunnels: int, bytesIn: int, bytesOut: int)

  /** The reconnect policy. It is set once, before any session exists, and never changed afterwards. */
  datatype RawPolicy = Policy(failureThreshold: int, maxAttempts: nat, backoffInitial: int, backoffMax: int)

  /** The largest duration: nanoseconds are 64-bit. */
  const MAX_DURATION := 0x7FFF_FFFF_FFFF_FFFF

  type Policy = p: RawPolicy |
    && p.failureThreshold > 0 && p.maxAttempts > 0
    && 0 < p.backoffInitial <= MAX_DURATION && 0 < p.backoffMax <= MAX_DURATION
    witness Policy(1, 5, 5, 60)
}
