/**
 * The trace identifiers and the record the neuron model hands to the
 * plotter once per tick (Arduino/Spikeling_ploter/Definitions.h).
 */
module Definitions {
  const ID_V := 0
  const ID_I_TOTAL := 1
  const ID_I_PD := 2
  const ID_I_ANALOG_IN := 3
  const ID_I_SYNAPSE := 4
  const ID_I_STIM_STATE := 5
  const ID_I_SPIKE_IN1_STATE := 6
  const ID_I_SPIKE_IN2_STATE := 7
  const ID_I_CURR_MICROSS := 8

  /**
   * output_t.  The floating-point members (v and the currents) hold the
   * value `round()` gives for them, which is all the plotter uses.
   */
  datatype Output = Output(
    v: int, iTotal: int, iPD: int, iAnalogIn: int, iSynapse: int,
    stimState: int, spikeIn1State: int, spikeIn2State: int,
    currentMicros: nat, neuronBehaviour: int)
}
