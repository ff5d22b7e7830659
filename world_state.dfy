/**
 * `WorldState`: the current derived view of the world. It is a value; an
 * update always builds a new one.
 */
module WorldStates {
  import opened Wrappers
  import opened Json

  /**
   * t: time of the last WORLD_TICK; tickCount: number of ticks;
   * inputCount: number of external inputs; lastInput: payload of the latest one.
   */
  datatype WorldState = WorldState(t: int, tickCount: int, inputCount: int, lastInput: Option<Payload>)

  /** `WorldState.initial()`: nothing has happened yet. */
  function Initial(): (s: WorldState)
    ensures s.t == 0 && s.tickCount == 0 && s.inputCount == 0 && s.lastInput == None
  {
    WorldState(0, 0, 0, None)
  }
}
