# Circuit normaliser of pytket-custatevec, in Dafny

This project models `_remove_meas_and_implicit_swaps`, the pass that makes a
pytket circuit fit a state-vector simulator. The pass makes one forward scan
over the circuit's commands. It:

- renames every qubit through the circuit's implicit final permutation;
- moves each measurement into a map from measured (renamed) qubit to bit;
- refuses a command on an already measured qubit (a mid-circuit measurement);
- refuses a non-measurement command that refers to classical bits;
- copies the remaining commands, in order, into a new circuit that declares
  the same qubits and gets the input's global phase added to its zero phase.

Files:

- `circuit.dfy` (module `Circuits`): qubits, bits, operations, commands and
  circuits as values. It also holds `PureCircuit`, a class that is updated in
  place by `AddQubit`, `AddGate` and `AddPhase`, as pytket's `Circuit` object is.
- `utils.dfy` (module `Utils`): the pass as a pure fold (`Step`, `Run`,
  `Normalise`). It also holds the method `RemoveMeasAndImplicitSwaps`, which
  runs the loops of `_remove_meas_and_implicit_swaps` with its accumulators (`measureMap`,
  `measuredQubits`, the output circuit) and is proved equal to `Normalise`.
- `properties.dfy` (module `UtilsProperties`): declarative definitions that
  do not follow the scan. They say which commands survive (`PureCommands`),
  which qubits are measured (`MeasuredBy`), what the measure map is
  (`MeasureMapOf`), and where a command faults (`ClashAt`, `BitOpAt`). The
  module proves the pass against them.
- `scenarios.dfy` (module `Scenarios`): worked circuits.

Preconditions (`WellFormed`) are the structural invariants of a pytket circuit
that the code relies on without checking:

- the implicit permutation maps each declared qubit to a declared qubit, so
  `q_perm[q]` is defined and `add_gate` gets known qubits;
- every command names declared qubits only;
- a measurement has at least one qubit and one bit, so `cmd_qubits[0]` and
  `command.bits[0]` exist.

## Model

| member | source | states |
|---|---|---|
| `Utils.RemoveMeasAndImplicitSwaps` | pytket/extensions/custatevec/utils.py:21-65 | the imperative pass (qubit-adding loop, command loop with the inner per-qubit check and early raises, final add_phase) returns exactly `Normalise(circ)` |
| `Utils.AnyMeasured` | pytket/extensions/custatevec/utils.py:52-54 | the per-qubit loop finds a measured qubit exactly when some renamed qubit of the command is already in the measured set |
| `Utils.AddQubits` | pytket/extensions/custatevec/utils.py:41-42 | the qubit-adding loop declares every qubit of the input circuit on the builder; commands and phase unchanged |
| `Circuits.PureCircuit.constructor` | pytket/extensions/custatevec/utils.py:40 | a fresh circuit has no qubits, no commands and zero phase |
| `Circuits.PureCircuit.AddQubit` | pytket/extensions/custatevec/utils.py:41-42 | adds one qubit to the declared set; commands and phase unchanged |
| `Circuits.PureCircuit.AddGate` | pytket/extensions/custatevec/utils.py:62 | appends the operation on the given declared qubits, with no bits; qubits and phase unchanged |
| `Circuits.PureCircuit.AddPhase` | pytket/extensions/custatevec/utils.py:64 | adds the given value to the phase; qubits and commands unchanged |
| `Circuits.RenameIdentity` | pytket/extensions/custatevec/utils.py:50 | renaming through the identity permutation leaves a qubit list unchanged |
| `Circuits.RenameAppend` | pytket/extensions/custatevec/utils.py:50 | renaming maps each qubit on its own, so it distributes over concatenation and keeps qubit order |
| `UtilsProperties.StepValue` | pytket/extensions/custatevec/utils.py:50-62 | one successful iteration appends the renamed command (nothing for a measurement), adds the measured qubit's entry to the map and to the measured set |
| `UtilsProperties.RunOkIff` | pytket/extensions/custatevec/utils.py:49-62 | from any accumulator state, the scan succeeds if and only if no command clashes with a measured qubit and no non-measurement command has bits |
| `UtilsProperties.RunFirstFault` | pytket/extensions/custatevec/utils.py:52-61 | the first faulting command decides the error: a mid-circuit measurement if it touches a measured qubit, otherwise an operation on a bit |
| `UtilsProperties.RunValue` | pytket/extensions/custatevec/utils.py:49-62 | a successful scan adds `PureCommands`, `MeasureMapOf` and `MeasuredBy` of the commands to its accumulators |
| `UtilsProperties.NormaliseSucceedsIff` | pytket/extensions/custatevec/utils.py:49-62 | the pass succeeds if and only if no command touches an earlier measured qubit and no non-measurement command carries bits |
| `UtilsProperties.NormaliseFailsAtFirstFault` | pytket/extensions/custatevec/utils.py:52-61 | the first offending command fixes the error, and the mid-circuit check is made before the command's type is looked at, so a second measurement of a qubit is a mid-circuit measurement |
| `UtilsProperties.NormaliseOutput` | pytket/extensions/custatevec/utils.py:40-64 | on success the output declares exactly the input's qubits and has the input's phase; its commands are the renamed non-measurement commands in their original order; its measure map is `MeasureMapOf`; it is pure (no measurement, no bit, identity permutation) and well formed |
| `UtilsProperties.NormaliseMeasureMap` | pytket/extensions/custatevec/utils.py:52-58 | on success the map's keys are exactly the renamed first qubits of the measurements; each maps to its measurement's unrenamed first bit; the map has one entry per measurement command |
| `UtilsProperties.NoOperationAfterMeasure` | pytket/extensions/custatevec/utils.py:52-54 | on success no command after a measurement touches the measured (renamed) qubit |
| `UtilsProperties.RunDistinctMeasures` | pytket/extensions/custatevec/utils.py:52-58 | on success no two measurements measure the same renamed qubit |
| `UtilsProperties.NormaliseIdempotentOnPure` | pytket/extensions/custatevec/utils.py:40-64 | a pure circuit is returned unchanged, with an empty measure map |
| `UtilsProperties.NormaliseEmpty` | pytket/extensions/custatevec/utils.py:40-65 | a circuit without commands succeeds with no commands, the same qubits and phase, and an empty map |
| `UtilsProperties.PureCommandsAppend` | pytket/extensions/custatevec/utils.py:49-62 | kept commands of a concatenation are the kept commands of each part, concatenated, so the relative order is preserved |
| `UtilsProperties.PureCommandsShape` | pytket/extensions/custatevec/utils.py:59-62 | exactly the measurements are removed; every kept command has no measurement, no bits, and only qubits in the permutation's image |
| `UtilsProperties.PureCommandsIdentity` | pytket/extensions/custatevec/utils.py:50-62 | under the identity permutation, commands without measurements or bits are kept unchanged |
| `UtilsProperties.MeasureMapKeys` | pytket/extensions/custatevec/utils.py:57-58 | the measure map's keys equal the set of measured renamed qubits |
| `UtilsProperties.MeasureMapAt` | pytket/extensions/custatevec/utils.py:57 | with distinct measured qubits, each measured qubit maps to the bit of its measurement |
| `UtilsProperties.MeasureMapSize` | pytket/extensions/custatevec/utils.py:57 | with distinct measured qubits, the map has as many entries as there are measurements |
| `Scenarios.TrailingMeasurements` | pytket/extensions/custatevec/utils.py:21-65 | a gate then two final measurements, identity permutation: only the gate remains; map {0: 0, 1: 1} |
| `Scenarios.TrailingMeasurementsSwapped` | pytket/extensions/custatevec/utils.py:50-58 | the same with qubits 0 and 1 swapped: the gate lands on qubit 1; map {1: 0, 0: 1} |
| `Scenarios.GateAfterMeasurement` | pytket/extensions/custatevec/utils.py:52-54 | a gate on a measured qubit fails with the mid-circuit-measurement error |
| `Scenarios.ClassicalOperation` | pytket/extensions/custatevec/utils.py:59-61 | a non-measurement command with a bit fails with the operation-on-a-bit error |

Two behaviours of the code that the model keeps as written:

- The output circuit declares the input's own qubits, not their images under
  the permutation (utils.py:41-42). The two sets agree when the permutation
  is a bijection on the declared qubits. The model only requires it to map
  declared qubits into declared qubits.
- Bits are not checked for reuse. Two measurements into the same bit both
  appear in the map (utils.py:57). The map is therefore not proved injective
  on bits.

## Left out

- How pytket computes `implicit_qubit_permutation()` is not part of this model; the permutation is the circuit's `perm` field.
- Gate semantics, operation arity and the other checks `add_gate` makes on its arguments: an operation is only a name and parameters.
- The global phase is a `real`. pytket's symbolic phase expressions and floating-point rounding are not modelled.
- `circ.qubits` is a list in pytket and a set here. The order in which qubits are added does not change the declared set.
- Measurements with several qubits or bits are modelled as the code treats them, with nothing added. The mid-circuit check covers all of the command's qubits. Only the first qubit is recorded as measured, and only the first bit goes into the map.
- The insertion order of `measure_map`: a Python dict returns its entries in measurement order, while the model's `map<Qubit, Bit>` has no order.
- The benchmarking script and the logger configuration: they are I/O, timing, randomness and plotting around the pass.
