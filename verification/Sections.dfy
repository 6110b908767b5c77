/**
 The critical sections of internal/session/manager.go, one function each, over the fields of a
 Session that the manager's mutex guards. `registered` says whether the session is in the
 manager's map. A handle (cmd, cancel, waitDone) is the number of the subprocess or channel it
 belongs to.
 */
module Sections {
  import opened SessionTypes

  datatype Session = Session(
    target: Target,
    reconnectable: bool,
    registered: bool,
    state: SessionState,
    attempts: nat,
    consecutiveFailures: nat,
    reconnectInFlight: bool,
    probeInFlight: bool,
    cmd: Option<nat>,
    cancel: Option<nat>,
    waitDone: Option<nat>)

  /** StartSession and RegisterExternal copy the options into the session, */
  function TargetOf(o: SessionOpts): Target {
    Target(o.instanceID, o.instanceName, o.profile, o.typ, o.localPort, o.remotePort, o.remoteHost)
  }

  /** AdoptSession only those of a shell, */
  function ShellTarget(o: SessionOpts): Target {
    Target(o.instanceID, o.instanceName, o.profile, TypeShell, 0, 0, "")
  }

  /** and optsFromSession copies them back for a respawn. */
  function OptsFromSession(t: Target): SessionOpts {
    SessionOpts(t.instanceID, t.instanceName, t.profile, t.typ, t.localPort, t.remotePort, t.remoteHost)
  }

  /** What a monitor does once it has recorded its subprocess's exit. */
  datatype AfterExit = Return | Announce | AnnounceAndTrigger

  function MonitorSection(s: Session, err: bool): (Session, AfterExit) {
    if s.state.StateReconnecting? then
      (s, Return)
    else if s.state.StateStopping? then
      (s.(state := StateStopped), Announce)
    else if !s.reconnectable then
      (s.(state := if err then StateErrored else StateStopped), Announce)
    else
      (s.(state := StateStalled), AnnounceAndTrigger)
  }

  /** Polling found the external process dead. */
  function PollerSection(s: Session): Session {
    if s.state.StateRunning? || s.state.StateStarting? then s.(state := StateStopped) else s
  }

  function StopSection(s: Session): Session {
    s.(state := StateStopping)
  }

  datatype ProbeOutcome = ProbeOutcome(keepProbing: bool, changed: bool, reconnect: bool)

  /** Whether a probe result is counted: the session is there and in one of the two probed states. */
  predicate CountsProbes(s: Session) {
    s.registered && (s.state.StateRunning? || s.state.StateStalled?)
  }

  function ProbeSection(c: Policy, s: Session, ok: bool): (Session, ProbeOutcome) {
    if !s.registered then
      (s, ProbeOutcome(false, false, false))
    else if s.state.StateStopping? || s.state.StateStopped? || s.state.StateErrored? then
      (s, ProbeOutcome(false, false, false))
    else if !ok && s.state.StateRunning? then
      var s' := s.(state := StateStalled, consecutiveFailures := s.consecutiveFailures + 1);
      (s', ProbeOutcome(true, true, s.reconnectable && s'.consecutiveFailures >= c.failureThreshold))
    else if !ok && s.state.StateStalled? then
      var s' := s.(consecutiveFailures := s.consecutiveFailures + 1);
      (s', ProbeOutcome(true, false, s.reconnectable && s'.consecutiveFailures >= c.failureThreshold))
    else if ok && s.state.StateStalled? then
      (s.(state := StateRunning, consecutiveFailures := 0, attempts := 0), ProbeOutcome(true, true, false))
    else if ok && s.state.StateRunning? then
      (s.(consecutiveFailures := 0, attempts := 0), ProbeOutcome(true, false, false))
    else
      (s, ProbeOutcome(true, false, false))
  }

  /** The gate of triggerReconnect; the flag says whether a loop is to be spawned. */
  function TriggerSection(s: Session, manual: bool): (Session, bool) {
    if !s.reconnectable then
      (s, false)
    else
      var s1 := if manual then s.(attempts := 0) else s;
      if s1.reconnectInFlight then (s1, false) else (s1.(reconnectInFlight := true), true)
  }

  datatype HeaderOutcome = StopRecorded | Leave | GaveUp | Attempt(n: nat)

  /** The header of the reconnect loop. */
  function HeaderSection(c: Policy, s: Session): (Session, HeaderOutcome) {
    if s.state.StateStopping? then
      (s.(state := StateStopped), StopRecorded)
    else if s.state.StateStopped? then
      (s, Leave)
    else if !s.registered then
      (s, Leave)
    else if s.attempts + 1 > c.maxAttempts then
      (s.(state := StateErrored), GaveUp)
    else
      (s.(state := StateReconnecting, attempts := s.attempts + 1), Attempt(s.attempts + 1))
  }

  /** A fresh subprocess has started: install it, or refuse it because a stop or removal came first. */
  function InstallSection(s: Session, cmd: nat, done: nat): (Session, bool) {
    if s.state.StateStopping? || s.state.StateStopped? || !s.registered then
      (if s.state.StateStopping? then s.(state := StateStopped) else s, false)
    else
      (s.(cmd := Some(cmd), cancel := Some(cmd), waitDone := Some(done),
          state := StateRunning, consecutiveFailures := 0), true)
  }

  function ProbeGateSection(s: Session): (Session, bool) {
    if s.probeInFlight then (s, false) else (s.(probeInFlight := true), true)
  }
}
