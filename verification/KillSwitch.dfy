/** The part of the global kill switch that reconciliation drives (execution/kill_switch.py). */
module KillSwitch {
  import opened Common

  datatype HaltState =
    | Ok | DailyLoss | DrawdownHalved | DrawdownPaused | DrawdownLiquidate
    | HeartbeatMissed | ReconciliationBreak | BudgetExhausted

  class KillSwitchEngine {
    var state: HaltState
    var lastHeartbeat: Option<int>
    const timeout: int

    constructor (timeout: int)
      ensures state == Ok && lastHeartbeat == None && this.timeout == timeout
    {
      state, lastHeartbeat, this.timeout := Ok, None, timeout;
    }

    method RecordHeartbeat(ts: int)
      modifies this
      ensures lastHeartbeat == Some(ts) && state == if old(state) == HeartbeatMissed then Ok else old(state)
    {
      lastHeartbeat := Some(ts);
      if state == HeartbeatMissed {
        state := Ok;
      }
    }

    method CheckHeartbeat(ts: int) returns (alive: bool)
      modifies this`state
      ensures alive == (lastHeartbeat.None? || ts - lastHeartbeat.value <= timeout)
      ensures state == if alive then old(state) else HeartbeatMissed
    {
      if lastHeartbeat.None? {
        return true;
      }
      if ts - lastHeartbeat.value > timeout {
        state := HeartbeatMissed;
        return false;
      }
      return true;
    }

    method TripReconciliationBreak()
      modifies this`state
      ensures state == ReconciliationBreak
    {
      state := ReconciliationBreak;
    }

    method ClearReconciliationBreak()
      modifies this`state
      ensures state == if old(state) == ReconciliationBreak then Ok else old(state)
    {
      if state == ReconciliationBreak {
        state := Ok;
      }
    }
  }
}
