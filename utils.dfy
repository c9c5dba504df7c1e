/** The circuit normaliser `_remove_meas_and_implicit_swaps`: one forward
    pass over the commands that renames qubits through the implicit
    permutation, moves end-of-circuit measurements into a qubit-to-bit
    map, and rejects mid-circuit measurements and classical operations.

    `Step`, `Run` and `Normalise` are the pass as a pure fold; the method
    `RemoveMeasAndImplicitSwaps` is the pass as the Python function writes it, with
    its accumulators updated in place, and is proved equal to `Normalise`. */
module Utils {
  import opened Circuits

  /** The two `ValueError`s the pass raises. */
  datatype NormError =
    | MidCircuitMeasurement  // a command touches a qubit measured earlier
    | OperationOnBit         // a non-measurement command refers to bits

  datatype Result<T> = Ok(value: T) | Err(error: NormError)

  /** The accumulators of the pass: the commands added to the output
      circuit, `measure_map` and `measured_qubits`. */
  datatype Scan = Scan(cmds: seq<Command>, measureMap: map<Qubit, Bit>, measured: set<Qubit>)

  /** What a successful pass returns: the pure circuit and the measure map. */
  datatype Normalised = Normalised(circ: Circuit, measureMap: map<Qubit, Bit>)

  const EmptyScan := Scan([], map[], {})

  /** Some qubit of `qs` has already been measured. */
  predicate Clashes(measured: set<Qubit>, qs: seq<Qubit>)
  {
    exists q :: q in qs && q in measured
  }

  /** The pass over one command. */
  function Step(perm: map<Qubit, Qubit>, s: Scan, c: Command): Result<Scan>
    requires CommandWellFormed(perm.Keys, c)
  {
    var qs := Rename(perm, c.qubits);
    if Clashes(s.measured, qs) then Err(MidCircuitMeasurement)
    else if c.op.Measure? then Ok(Scan(s.cmds, s.measureMap[qs[0] := c.bits[0]], s.measured + {qs[0]}))
    else if |c.bits| > 0 then Err(OperationOnBit)
    else Ok(Scan(s.cmds + [Command(c.op, qs, [])], s.measureMap, s.measured))
  }

  /** The pass over a sequence of commands from the accumulators `s`;
      the first error ends it. */
  function Run(perm: map<Qubit, Qubit>, s: Scan, cmds: seq<Command>): Result<Scan>
    requires forall k :: 0 <= k < |cmds| ==> CommandWellFormed(perm.Keys, cmds[k])
    decreases |cmds|
  {
    if cmds == [] then Ok(s)
    else
      match Step(perm, s, cmds[0])
      case Err(e) => Err(e)
      case Ok(s') => Run(perm, s', cmds[1..])
  }

  /** The whole normaliser: the output circuit declares the input's qubits,
      holds the commands the pass added, starts at zero phase to which the
      input's phase is added, and has the identity implicit permutation. */
  function Normalise(c: Circuit): Result<Normalised>
    requires WellFormed(c)
  {
    match Run(c.perm, EmptyScan, c.cmds)
    case Err(e) => Err(e)
    case Ok(s) => Ok(Normalised(Circuit(c.qubits, s.cmds, 0.0 + c.phase, IdentityPerm(c.qubits)), s.measureMap))
  }

  /** Running from command `i` is one step, then running from `i + 1`. */
  lemma RunFrom(perm: map<Qubit, Qubit>, s: Scan, cmds: seq<Command>, i: nat)
    requires forall k :: 0 <= k < |cmds| ==> CommandWellFormed(perm.Keys, cmds[k])
    requires i < |cmds|
    ensures Run(perm, s, cmds[i..])
         == match Step(perm, s, cmds[i])
            case Err(e) => Err(e)
            case Ok(s') => Run(perm, s', cmds[i + 1..])
  {
  }

  /** The check `q in measured_qubits` for each qubit of a command:
      true exactly when one of them has already been measured. */
  method AnyMeasured(cmdQubits: seq<Qubit>, measuredQubits: set<Qubit>) returns (found: bool)
    ensures found == Clashes(measuredQubits, cmdQubits)
  {
    var j := 0;
    while j < |cmdQubits|
      invariant 0 <= j <= |cmdQubits|
      invariant forall k :: 0 <= k < j ==> cmdQubits[k] !in measuredQubits
    {
      if cmdQubits[j] in measuredQubits {
        return true;
      }
      j := j + 1;
    }
    return false;
  }

  /** `for q in circ.qubits: pure_circ.add_qubit(q)`. */
  method AddQubits(pureCirc: PureCircuit, qubits: set<Qubit>)
    modifies pureCirc
    ensures pureCirc.qubits == old(pureCirc.qubits) + qubits
    ensures pureCirc.cmds == old(pureCirc.cmds) && pureCirc.phase == old(pureCirc.phase)
  {
    var toAdd := qubits;
    while toAdd != {}
      invariant pureCirc.qubits == old(pureCirc.qubits) + (qubits - toAdd)
      invariant toAdd <= qubits
      invariant pureCirc.cmds == old(pureCirc.cmds) && pureCirc.phase == old(pureCirc.phase)
      decreases toAdd
    {
      var q :| q in toAdd;
      pureCirc.AddQubit(q);
      toAdd := toAdd - {q};
    }
  }

  /** `_remove_meas_and_implicit_swaps(circ)`. */
  method RemoveMeasAndImplicitSwaps(circ: Circuit) returns (res: Result<Normalised>)
    requires WellFormed(circ)
    ensures res == Normalise(circ)
  {
    var pureCirc := new PureCircuit();
    AddQubits(pureCirc, circ.qubits);
    var qPerm := circ.perm;

    var measureMap: map<Qubit, Bit> := map[];
    var measuredQubits: set<Qubit> := {};

    var i := 0;
    while i < |circ.cmds|
      invariant 0 <= i <= |circ.cmds|
      invariant pureCirc.qubits == circ.qubits && pureCirc.phase == 0.0
      invariant Run(qPerm, EmptyScan, circ.cmds)
             == Run(qPerm, Scan(pureCirc.cmds, measureMap, measuredQubits), circ.cmds[i..])
    {
      var command := circ.cmds[i];
      ghost var before := Scan(pureCirc.cmds, measureMap, measuredQubits);
      RunFrom(qPerm, before, circ.cmds, i);
      var cmdQubits := Rename(qPerm, command.qubits);

      var measuredAlready := AnyMeasured(cmdQubits, measuredQubits);
      if measuredAlready {
        return Err(MidCircuitMeasurement);
      }

      if command.op.Measure? {
        measureMap := measureMap[cmdQubits[0] := command.bits[0]];
        measuredQubits := measuredQubits + {cmdQubits[0]};
      } else {
        if |command.bits| > 0 {
          return Err(OperationOnBit);
        }
        pureCirc.AddGate(command.op, cmdQubits);
      }
      assert Step(qPerm, before, command) == Ok(Scan(pureCirc.cmds, measureMap, measuredQubits));
      i := i + 1;
    }

    assert circ.cmds[i..] == [];
    pureCirc.AddPhase(circ.phase);
    return Ok(Normalised(pureCirc.Value(), measureMap));
  }
}
