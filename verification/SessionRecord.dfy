/**
 The session record as the manager's methods update it in place. Each method is the body of one
 Lock..Unlock section; `registered` is the result of the map lookup made in that section. The
 lifecycle model takes each section as one step, by the function the method is proved against.
 */
module SessionRecords {
  import opened SessionTypes
  import opened Sections

  class SessionRecord {
    const target: Target
    const reconnectable: bool
    var state: SessionState
    var reconnectAttempts: nat
    var consecutiveFailures: nat
    var reconnectInFlight: bool
    var probeInFlight: bool
    var cmd: Option<nat>
    var cancel: Option<nat>
    var waitDone: Option<nat>

    function View(registered: bool): Session
      reads this
    {
      Session(target, reconnectable, registered, state, reconnectAttempts, consecutiveFailures,
              reconnectInFlight, probeInFlight, cmd, cancel, waitDone)
    }

    constructor Copy(s: Session)
      ensures View(s.registered) == s
    {
      target, reconnectable, state := s.target, s.reconnectable, s.state;
      reconnectAttempts, consecutiveFailures := s.attempts, s.consecutiveFailures;
      reconnectInFlight, probeInFlight := s.reconnectInFlight, s.probeInFlight;
      cmd, cancel, waitDone := s.cmd, s.cancel, s.waitDone;
    }

    /** The locked part of monitor. */
    method RecordExit(err: bool, registered: bool) returns (after: AfterExit)
      modifies this
      ensures (View(registered), after) == MonitorSection(old(View(registered)), err)
    {
      if state == StateReconnecting {
        return Return;
      }
      if state == StateStopping {
        state := StateStopped;
        return Announce;
      }
      if !reconnectable {
        if err {
          state := StateErrored;
        } else {
          state := StateStopped;
        }
        return Announce;
      }
      state := StateStalled;
      after := AnnounceAndTrigger;
    }

    /** The locked part of monitorExternalPID. */
    method RecordExternalDeath(registered: bool)
      modifies this
      ensures View(registered) == PollerSection(old(View(registered)))
    {
      if state == StateRunning || state == StateStarting {
        state := StateStopped;
      }
    }

    /** The locked part of StopSession: the request is recorded and the handles are snapshotted. */
    method BeginStop(registered: bool) returns (found: bool, c: Option<nat>, w: Option<nat>, p: Option<nat>)
      modifies this
      ensures found == registered
      ensures View(registered) == if found then StopSection(old(View(registered))) else old(View(registered))
      ensures found ==> c == cancel && w == waitDone && p == cmd
    {
      found, c, w, p := registered, None, None, None;
      if found {
        state := StateStopping;
        c, w, p := cancel, waitDone, cmd;
      }
    }

    /** The locked part of runProbe. */
    method ApplyProbe(policy: Policy, ok: bool, registered: bool) returns (keepProbing: bool, stateChanged: bool, shouldReconnect: bool)
      modifies this
      ensures (View(registered), ProbeOutcome(keepProbing, stateChanged, shouldReconnect))
           == ProbeSection(policy, old(View(registered)), ok)
    {
      keepProbing, stateChanged, shouldReconnect := false, false, false;
      if !registered {
        return;
      }
      if state == StateStopping || state == StateStopped || state == StateErrored {
        return;
      }
      keepProbing := true;
      if !ok && state == StateRunning {
        state := StateStalled;
        consecutiveFailures := consecutiveFailures + 1;
        stateChanged := true;
        if reconnectable && consecutiveFailures >= policy.failureThreshold {
          shouldReconnect := true;
        }
      } else if !ok && state == StateStalled {
        consecutiveFailures := consecutiveFailures + 1;
        if reconnectable && consecutiveFailures >= policy.failureThreshold {
          shouldReconnect := true;
        }
      } else if ok && state == StateStalled {
        state := StateRunning;
        consecutiveFailures := 0;
        reconnectAttempts := 0;
        stateChanged := true;
      } else if ok && state == StateRunning {
        consecutiveFailures := 0;
        reconnectAttempts := 0;
      }
    }

    /** The locked part of triggerReconnect. */
    method EnterReconnect(manual: bool, registered: bool) returns (spawn: bool)
      modifies this
      ensures (View(registered), spawn) == TriggerSection(old(View(registered)), manual)
    {
      if !reconnectable {
        return false;
      }
      if manual {
        reconnectAttempts := 0;
      }
      if reconnectInFlight {
        return false;
      }
      reconnectInFlight := true;
      spawn := true;
    }

    /** The header of runReconnectLoop. */
    method CheckHeader(policy: Policy, registered: bool) returns (outcome: HeaderOutcome)
      modifies this
      ensures (View(registered), outcome) == HeaderSection(policy, old(View(registered)))
    {
      if state == StateStopping {
        state := StateStopped;
        return StopRecorded;
      }
      if state == StateStopped {
        return Leave;
      }
      if !registered {
        return Leave;
      }
      var attempt := reconnectAttempts + 1;
      if attempt > policy.maxAttempts {
        state := StateErrored;
        return GaveUp;
      }
      state := StateReconnecting;
      reconnectAttempts := attempt;
      outcome := Attempt(attempt);
    }

    /** The section of runReconnectLoop that installs a fresh subprocess or refuses it. */
    method Install(p: nat, k: nat, registered: bool) returns (installed: bool)
      modifies this
      ensures (View(registered), installed) == InstallSection(old(View(registered)), p, k)
    {
      if state == StateStopping || state == StateStopped || !registered {
        if state == StateStopping {
          state := StateStopped;
        }
        return false;
      }
      cmd := Some(p);
      cancel := Some(p);
      waitDone := Some(k);
      state := StateRunning;
      consecutiveFailures := 0;
      installed := true;
    }

    /** The gate of monitorProbe. */
    method EnterProbe(registered: bool) returns (entered: bool)
      modifies this
      ensures (View(registered), entered) == ProbeGateSection(old(View(registered)))
    {
      if probeInFlight {
        return false;
      }
      probeInFlight := true;
      entered := true;
    }
  }
}
