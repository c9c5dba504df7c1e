/** What `_remove_meas_and_implicit_swaps` promises, stated against
    declarative definitions that do not follow the pass: which commands
    survive (`PureCommands`), which qubits are measured (`MeasuredBy`),
    the map from measured qubits to bits (`MeasureMapOf`), and where a
    circuit breaks the end-of-circuit-measurement rule (`ClashAt`,
    `BitOpAt`). */
module UtilsProperties {
  import opened Circuits
  import opened Utils

  /** Every command can be renamed, and every measurement has a qubit and a bit. */
  predicate AllWellFormed(perm: map<Qubit, Qubit>, cmds: seq<Command>)
  {
    forall k :: 0 <= k < |cmds| ==> CommandWellFormed(perm.Keys, cmds[k])
  }

  /** The renamed qubit a measurement command measures. */
  function MeasuredQubit(perm: map<Qubit, Qubit>, c: Command): Qubit
    requires CommandWellFormed(perm.Keys, c) && c.op.Measure?
  {
    perm[c.qubits[0]]
  }

  /** The renamed qubits measured by the measurement commands of `cmds`. */
  function MeasuredBy(perm: map<Qubit, Qubit>, cmds: seq<Command>): set<Qubit>
    requires AllWellFormed(perm, cmds)
  {
    set k | 0 <= k < |cmds| && cmds[k].op.Measure? :: MeasuredQubit(perm, cmds[k])
  }

  /** The qubit one command adds to the measured set, if any. */
  function Contrib(perm: map<Qubit, Qubit>, c: Command): set<Qubit>
    requires CommandWellFormed(perm.Keys, c)
  {
    if c.op.Measure? then {MeasuredQubit(perm, c)} else {}
  }

  /** Command `k` touches a renamed qubit that is in `m0` or was measured
      by an earlier command. */
  predicate ClashAt(perm: map<Qubit, Qubit>, m0: set<Qubit>, cmds: seq<Command>, k: nat)
    requires AllWellFormed(perm, cmds) && k < |cmds|
  {
    Clashes(m0 + MeasuredBy(perm, cmds[..k]), Rename(perm, cmds[k].qubits))
  }

  /** Command `k` is not a measurement and refers to classical bits. */
  predicate BitOpAt(cmds: seq<Command>, k: nat)
    requires k < |cmds|
  {
    !cmds[k].op.Measure? && |cmds[k].bits| > 0
  }

  predicate FaultAt(perm: map<Qubit, Qubit>, m0: set<Qubit>, cmds: seq<Command>, k: nat)
    requires AllWellFormed(perm, cmds) && k < |cmds|
  {
    ClashAt(perm, m0, cmds, k) || BitOpAt(cmds, k)
  }

  /** Command `k` of `c` is an operation, possibly a second measurement,
      on a qubit measured earlier. */
  predicate MidCircuitMeasurementAt(c: Circuit, k: nat)
    requires WellFormed(c) && k < |c.cmds|
  {
    ClashAt(c.perm, {}, c.cmds, k)
  }

  /** What one command leaves in the output circuit: nothing for a
      measurement, otherwise its operation on its renamed qubits. */
  function PureHead(perm: map<Qubit, Qubit>, c: Command): seq<Command>
    requires CommandWellFormed(perm.Keys, c)
  {
    if c.op.Measure? then [] else [Command(c.op, Rename(perm, c.qubits), [])]
  }

  /** The non-measurement commands of `cmds`, in order, renamed through
      `perm` and without bits. */
  function PureCommands(perm: map<Qubit, Qubit>, cmds: seq<Command>): seq<Command>
    requires AllWellFormed(perm, cmds)
  {
    if cmds == [] then [] else PureHead(perm, cmds[0]) + PureCommands(perm, cmds[1..])
  }

  /** What one command adds to the measure map. */
  function MapHead(perm: map<Qubit, Qubit>, c: Command): map<Qubit, Bit>
    requires CommandWellFormed(perm.Keys, c)
  {
    if c.op.Measure? then map[MeasuredQubit(perm, c) := c.bits[0]] else map[]
  }

  /** Each measured qubit mapped to the bit of its last measurement. */
  function MeasureMapOf(perm: map<Qubit, Qubit>, cmds: seq<Command>): map<Qubit, Bit>
    requires AllWellFormed(perm, cmds)
  {
    if cmds == [] then map[] else MapHead(perm, cmds[0]) + MeasureMapOf(perm, cmds[1..])
  }

  function CountMeasures(cmds: seq<Command>): nat
  {
    if cmds == [] then 0
    else (if cmds[0].op.Measure? then 1 else 0) + CountMeasures(cmds[1..])
  }

  /** No two measurement commands measure the same renamed qubit. */
  predicate DistinctMeasures(perm: map<Qubit, Qubit>, cmds: seq<Command>)
    requires AllWellFormed(perm, cmds)
  {
    forall i, j :: 0 <= i < j < |cmds| && cmds[i].op.Measure? && cmds[j].op.Measure?
      ==> MeasuredQubit(perm, cmds[i]) != MeasuredQubit(perm, cmds[j])
  }

  // ---------------------------------------------------------------------
  // The declarative definitions
  // ---------------------------------------------------------------------

  lemma DistinctMeasuresTail(perm: map<Qubit, Qubit>, cmds: seq<Command>)
    requires AllWellFormed(perm, cmds) && DistinctMeasures(perm, cmds) && cmds != []
    ensures AllWellFormed(perm, cmds[1..]) && DistinctMeasures(perm, cmds[1..])
  {
  }

  /** A measured qubit measured by no later command. */
  lemma FirstMeasureNotLater(perm: map<Qubit, Qubit>, cmds: seq<Command>)
    requires AllWellFormed(perm, cmds) && DistinctMeasures(perm, cmds)
    requires cmds != [] && cmds[0].op.Measure?
    ensures MeasuredQubit(perm, cmds[0]) !in MeasuredBy(perm, cmds[1..])
  {
  }

  lemma FreshKeySize<K, V>(h: K, v: V, m: map<K, V>)
    requires h !in m
    ensures |map[h := v] + m| == |m| + 1
  {
  }

  lemma MeasuredByCons(perm: map<Qubit, Qubit>, cmds: seq<Command>)
    requires AllWellFormed(perm, cmds) && cmds != []
    ensures MeasuredBy(perm, cmds) == Contrib(perm, cmds[0]) + MeasuredBy(perm, cmds[1..])
  {
  }

  /** `PureCommands` distributes over concatenation: the pass keeps the
      relative order of the commands it does not remove. */
  lemma {:induction false} PureCommandsAppend(perm: map<Qubit, Qubit>, a: seq<Command>, b: seq<Command>)
    requires AllWellFormed(perm, a) && AllWellFormed(perm, b)
    ensures AllWellFormed(perm, a + b)
    ensures PureCommands(perm, a + b) == PureCommands(perm, a) + PureCommands(perm, b)
  {
    assert forall k :: 0 <= k < |a + b| ==> (a + b)[k] == if k < |a| then a[k] else b[k - |a|];
    if a != [] {
      assert (a + b)[0] == a[0];
      assert (a + b)[1..] == a[1..] + b;
      PureCommandsAppend(perm, a[1..], b);
    } else {
      assert a + b == b;
    }
  }

  /** `PureCommands` removes exactly the measurements, and what it keeps
      has no measurement, no bit, and only qubits in the permutation's image. */
  lemma {:induction false} PureCommandsShape(perm: map<Qubit, Qubit>, cmds: seq<Command>)
    requires AllWellFormed(perm, cmds)
    ensures |PureCommands(perm, cmds)| == |cmds| - CountMeasures(cmds)
    ensures forall k :: 0 <= k < |PureCommands(perm, cmds)| ==>
      var r := PureCommands(perm, cmds)[k];
      !r.op.Measure? && r.bits == [] && forall q :: q in r.qubits ==> q in perm.Values
  {
    if cmds != [] {
      PureCommandsShape(perm, cmds[1..]);
      var c := cmds[0];
      if !c.op.Measure? {
        var qs := Rename(perm, c.qubits);
        forall q | q in qs
          ensures q in perm.Values
        {
          var j :| 0 <= j < |qs| && qs[j] == q;
          assert c.qubits[j] in perm;
        }
      }
    }
  }

  /** Under the identity permutation, commands that are neither
      measurements nor classical operations are kept unchanged. */
  lemma {:induction false} PureCommandsIdentity(qs: set<Qubit>, cmds: seq<Command>)
    requires AllWellFormed(IdentityPerm(qs), cmds)
    requires forall k :: 0 <= k < |cmds| ==> !cmds[k].op.Measure? && cmds[k].bits == []
    ensures PureCommands(IdentityPerm(qs), cmds) == cmds
  {
    if cmds != [] {
      var c := cmds[0];
      RenameIdentity(qs, c.qubits);
      assert cmds == [c] + cmds[1..];
      PureCommandsIdentity(qs, cmds[1..]);
    }
  }

  /** The measure map's keys are exactly the measured renamed qubits. */
  lemma {:induction false} MeasureMapKeys(perm: map<Qubit, Qubit>, cmds: seq<Command>)
    requires AllWellFormed(perm, cmds)
    ensures MeasureMapOf(perm, cmds).Keys == MeasuredBy(perm, cmds)
  {
    if cmds != [] {
      MeasureMapKeys(perm, cmds[1..]);
      MeasuredByCons(perm, cmds);
    }
  }

  /** With distinct measured qubits, each measured qubit maps to the bit of
      its own (only) measurement. */
  lemma {:induction false} MeasureMapAt(perm: map<Qubit, Qubit>, cmds: seq<Command>, k: nat)
    requires AllWellFormed(perm, cmds) && DistinctMeasures(perm, cmds)
    requires k < |cmds| && cmds[k].op.Measure?
    ensures MeasuredQubit(perm, cmds[k]) in MeasureMapOf(perm, cmds)
    ensures MeasureMapOf(perm, cmds)[MeasuredQubit(perm, cmds[k])] == cmds[k].bits[0]
  {
    var rest := cmds[1..];
    DistinctMeasuresTail(perm, cmds);
    var h := MeasuredQubit(perm, cmds[k]);
    if k == 0 {
      MeasureMapKeys(perm, rest);
      FirstMeasureNotLater(perm, cmds);
    } else {
      assert rest[k - 1] == cmds[k];
      MeasureMapAt(perm, rest, k - 1);
    }
  }

  /** With distinct measured qubits, the map has one entry per measurement. */
  lemma {:induction false} MeasureMapSize(perm: map<Qubit, Qubit>, cmds: seq<Command>)
    requires AllWellFormed(perm, cmds) && DistinctMeasures(perm, cmds)
    ensures |MeasureMapOf(perm, cmds)| == CountMeasures(cmds)
  {
    if cmds != [] {
      var rest := cmds[1..];
      DistinctMeasuresTail(perm, cmds);
      MeasureMapSize(perm, rest);
      var m := MeasureMapOf(perm, rest);
      assert MeasureMapOf(perm, cmds) == MapHead(perm, cmds[0]) + m;
      if cmds[0].op.Measure? {
        var h := MeasuredQubit(perm, cmds[0]);
        MeasureMapKeys(perm, rest);
        FirstMeasureNotLater(perm, cmds);
        assert h !in m;
        FreshKeySize(h, cmds[0].bits[0], m);
      } else {
        assert MapHead(perm, cmds[0]) + m == m;
      }
    }
  }

  // ---------------------------------------------------------------------
  // The pass against the declarative definitions
  // ---------------------------------------------------------------------

  /** Once a command has passed, a clash later on is a clash against the
      measured set the step left behind. */
  lemma ClashShift(perm: map<Qubit, Qubit>, m0: set<Qubit>, cmds: seq<Command>, k: nat)
    requires AllWellFormed(perm, cmds) && k + 1 < |cmds|
    ensures AllWellFormed(perm, cmds[1..])
    ensures ClashAt(perm, m0 + Contrib(perm, cmds[0]), cmds[1..], k) == ClashAt(perm, m0, cmds, k + 1)
    ensures BitOpAt(cmds[1..], k) == BitOpAt(cmds, k + 1)
  {
    var pre := cmds[..k + 1];
    assert pre[0] == cmds[0] && pre[1..] == cmds[1..][..k];
    MeasuredByCons(perm, pre);
    assert cmds[1..][k] == cmds[k + 1];
  }

  lemma MapUnionAssoc<K, V>(a: map<K, V>, b: map<K, V>, c: map<K, V>)
    ensures (a + b) + c == a + (b + c)
  {
  }

  /** A successful step adds one command's share to each accumulator. */
  lemma StepValue(perm: map<Qubit, Qubit>, s: Scan, c: Command)
    requires CommandWellFormed(perm.Keys, c) && Step(perm, s, c).Ok?
    ensures Step(perm, s, c).value
         == Scan(s.cmds + PureHead(perm, c), s.measureMap + MapHead(perm, c), s.measured + Contrib(perm, c))
  {
  }

  /** The pass succeeds exactly when no command faults. */
  lemma {:induction false} RunOkIff(perm: map<Qubit, Qubit>, s: Scan, cmds: seq<Command>)
    requires AllWellFormed(perm, cmds)
    ensures Run(perm, s, cmds).Ok? <==> forall k :: 0 <= k < |cmds| ==> !FaultAt(perm, s.measured, cmds, k)
    decreases |cmds|
  {
    if cmds != [] {
      var c := cmds[0];
      assert cmds[..0] == [];
      assert MeasuredBy(perm, []) == {};
      assert FaultAt(perm, s.measured, cmds, 0) <==> Step(perm, s, c).Err?;
      if Step(perm, s, c).Ok? {
        var s' := Step(perm, s, c).value;
        StepValue(perm, s, c);
        RunOkIff(perm, s', cmds[1..]);
        forall k | 0 <= k < |cmds| - 1
          ensures FaultAt(perm, s'.measured, cmds[1..], k) == FaultAt(perm, s.measured, cmds, k + 1)
        {
          ClashShift(perm, s.measured, cmds, k);
        }
        if Run(perm, s, cmds).Ok? {
          forall k | 0 <= k < |cmds|
            ensures !FaultAt(perm, s.measured, cmds, k)
          {
            if k > 0 {
              assert !FaultAt(perm, s'.measured, cmds[1..], k - 1);
            }
          }
        } else {
          var k :| 0 <= k < |cmds| - 1 && FaultAt(perm, s'.measured, cmds[1..], k);
          assert FaultAt(perm, s.measured, cmds, k + 1);
        }
      }
    }
  }

  /** The error the pass reports is decided by the first faulting command:
      a mid-circuit measurement if it touches a measured qubit (checked
      first), an operation on a bit otherwise. */
  lemma {:induction false} RunFirstFault(perm: map<Qubit, Qubit>, s: Scan, cmds: seq<Command>, k: nat)
    requires AllWellFormed(perm, cmds) && k < |cmds|
    requires forall j :: 0 <= j < k ==> !FaultAt(perm, s.measured, cmds, j)
    requires FaultAt(perm, s.measured, cmds, k)
    ensures Run(perm, s, cmds)
         == Err(if ClashAt(perm, s.measured, cmds, k) then MidCircuitMeasurement else OperationOnBit)
    decreases k
  {
    var c := cmds[0];
    assert cmds[..0] == [];
    assert MeasuredBy(perm, []) == {};
    if k > 0 {
      assert !FaultAt(perm, s.measured, cmds, 0);
      var s' := Step(perm, s, c).value;
      StepValue(perm, s, c);
      forall j | 0 <= j < k - 1
        ensures !FaultAt(perm, s'.measured, cmds[1..], j)
      {
        assert !FaultAt(perm, s.measured, cmds, j + 1);
        ClashShift(perm, s.measured, cmds, j);
      }
      ClashShift(perm, s.measured, cmds, k - 1);
      RunFirstFault(perm, s', cmds[1..], k - 1);
    }
  }

  /** A successful pass adds `PureCommands`, `MeasureMapOf` and
      `MeasuredBy` to its accumulators. */
  lemma {:induction false} RunValue(perm: map<Qubit, Qubit>, s: Scan, cmds: seq<Command>)
    requires AllWellFormed(perm, cmds) && Run(perm, s, cmds).Ok?
    ensures Run(perm, s, cmds).value
         == Scan(s.cmds + PureCommands(perm, cmds),
                 s.measureMap + MeasureMapOf(perm, cmds),
                 s.measured + MeasuredBy(perm, cmds))
    decreases |cmds|
  {
    if cmds == [] {
      assert s.cmds + [] == s.cmds;
      assert s.measureMap + map[] == s.measureMap;
    } else {
      var c := cmds[0];
      var s' := Step(perm, s, c).value;
      StepValue(perm, s, c);
      RunValue(perm, s', cmds[1..]);
      MeasuredByCons(perm, cmds);
      MapUnionAssoc(s.measureMap, MapHead(perm, c), MeasureMapOf(perm, cmds[1..]));
      assert (s.cmds + PureHead(perm, c)) + PureCommands(perm, cmds[1..])
          == s.cmds + (PureHead(perm, c) + PureCommands(perm, cmds[1..]));
    }
  }

  /** After a measurement in a successful pass, no later command touches
      the measured qubit (in particular none measures it again). */
  lemma NoOperationAfterMeasure(perm: map<Qubit, Qubit>, cmds: seq<Command>, i: nat, j: nat)
    requires AllWellFormed(perm, cmds) && Run(perm, EmptyScan, cmds).Ok?
    requires i < j < |cmds| && cmds[i].op.Measure?
    ensures MeasuredQubit(perm, cmds[i]) !in Rename(perm, cmds[j].qubits)
  {
    RunOkIff(perm, EmptyScan, cmds);
    assert !FaultAt(perm, {}, cmds, j);
    assert cmds[..j][i] == cmds[i];
    assert MeasuredQubit(perm, cmds[i]) in MeasuredBy(perm, cmds[..j]);
  }

  lemma RunDistinctMeasures(perm: map<Qubit, Qubit>, cmds: seq<Command>)
    requires AllWellFormed(perm, cmds) && Run(perm, EmptyScan, cmds).Ok?
    ensures DistinctMeasures(perm, cmds)
  {
    forall i, j | 0 <= i < j < |cmds| && cmds[i].op.Measure? && cmds[j].op.Measure?
      ensures MeasuredQubit(perm, cmds[i]) != MeasuredQubit(perm, cmds[j])
    {
      NoOperationAfterMeasure(perm, cmds, i, j);
      assert Rename(perm, cmds[j].qubits)[0] == MeasuredQubit(perm, cmds[j]);
    }
  }

  // ---------------------------------------------------------------------
  // The normaliser's promises
  // ---------------------------------------------------------------------

  /** Normalisation succeeds exactly when no command touches an already
      measured qubit and no non-measurement command refers to a bit. */
  lemma NormaliseSucceedsIff(c: Circuit)
    requires WellFormed(c)
    ensures Normalise(c).Ok? <==>
      forall k :: 0 <= k < |c.cmds| ==> !MidCircuitMeasurementAt(c, k) && !BitOpAt(c.cmds, k)
  {
    RunOkIff(c.perm, EmptyScan, c.cmds);
    assert forall k :: 0 <= k < |c.cmds| ==>
      (FaultAt(c.perm, EmptyScan.measured, c.cmds, k) <==> MidCircuitMeasurementAt(c, k) || BitOpAt(c.cmds, k));
  }

  /** The first offending command decides the error, the mid-circuit
      check taking precedence over the bit check. */
  lemma NormaliseFailsAtFirstFault(c: Circuit, k: nat)
    requires WellFormed(c) && k < |c.cmds|
    requires forall j :: 0 <= j < k ==> !MidCircuitMeasurementAt(c, j) && !BitOpAt(c.cmds, j)
    requires MidCircuitMeasurementAt(c, k) || BitOpAt(c.cmds, k)
    ensures Normalise(c)
         == Err(if MidCircuitMeasurementAt(c, k) then MidCircuitMeasurement else OperationOnBit)
  {
    assert forall j :: 0 <= j <= k ==>
      (FaultAt(c.perm, EmptyScan.measured, c.cmds, j) <==> MidCircuitMeasurementAt(c, j) || BitOpAt(c.cmds, j));
    RunFirstFault(c.perm, EmptyScan, c.cmds, k);
  }

  /** On success the output circuit declares the input's qubits, keeps
      its phase, holds the renamed non-measurement commands in their
      original order, is pure and well formed; the measure map is
      `MeasureMapOf`. */
  lemma NormaliseOutput(c: Circuit)
    requires WellFormed(c) && Normalise(c).Ok?
    ensures Normalise(c).value.circ.qubits == c.qubits
    ensures Normalise(c).value.circ.phase == c.phase
    ensures Normalise(c).value.circ.cmds == PureCommands(c.perm, c.cmds)
    ensures Normalise(c).value.measureMap == MeasureMapOf(c.perm, c.cmds)
    ensures IsPure(Normalise(c).value.circ) && WellFormed(Normalise(c).value.circ)
  {
    var kept := PureCommands(c.perm, c.cmds);
    RunValue(c.perm, EmptyScan, c.cmds);
    assert [] + kept == kept;
    assert map[] + MeasureMapOf(c.perm, c.cmds) == MeasureMapOf(c.perm, c.cmds);
    assert Normalise(c).value.circ == Circuit(c.qubits, kept, 0.0 + c.phase, IdentityPerm(c.qubits));
    PureCommandsShape(c.perm, c.cmds);
    assert forall q :: q in c.perm.Values ==> q in c.qubits;
    GateBuiltCircuit(c.qubits, kept, 0.0 + c.phase);
  }

  /** A circuit assembled gate by gate on declared qubits, with no
      measurement and no bit, is pure and well formed. */
  lemma GateBuiltCircuit(qs: set<Qubit>, cmds: seq<Command>, phase: real)
    requires forall k :: 0 <= k < |cmds| ==>
      !cmds[k].op.Measure? && cmds[k].bits == [] && forall q :: q in cmds[k].qubits ==> q in qs
    ensures IsPure(Circuit(qs, cmds, phase, IdentityPerm(qs)))
    ensures WellFormed(Circuit(qs, cmds, phase, IdentityPerm(qs)))
  {
    assert IdentityPerm(qs).Keys == qs;
  }

  /** On success the measure map's keys are exactly the renamed measured
      qubits, each holds the unrenamed bit of its measurement, and there
      is one entry per measurement command. */
  lemma NormaliseMeasureMap(c: Circuit)
    requires WellFormed(c) && Normalise(c).Ok?
    ensures Normalise(c).value.measureMap.Keys == MeasuredBy(c.perm, c.cmds)
    ensures forall k :: 0 <= k < |c.cmds| && c.cmds[k].op.Measure? ==>
      Normalise(c).value.measureMap[MeasuredQubit(c.perm, c.cmds[k])] == c.cmds[k].bits[0]
    ensures |Normalise(c).value.measureMap| == CountMeasures(c.cmds)
  {
    NormaliseOutput(c);
    MeasureMapKeys(c.perm, c.cmds);
    RunDistinctMeasures(c.perm, c.cmds);
    forall k | 0 <= k < |c.cmds| && c.cmds[k].op.Measure?
      ensures MeasureMapOf(c.perm, c.cmds)[MeasuredQubit(c.perm, c.cmds[k])] == c.cmds[k].bits[0]
    {
      MeasureMapAt(c.perm, c.cmds, k);
    }
    MeasureMapSize(c.perm, c.cmds);
  }

  /** A pure circuit is its own normal form, with an empty measure map. */
  lemma NormaliseIdempotentOnPure(c: Circuit)
    requires WellFormed(c) && IsPure(c)
    ensures Normalise(c) == Ok(Normalised(c, map[]))
  {
    RunOkIff(c.perm, EmptyScan, c.cmds);
    forall k | 0 <= k < |c.cmds|
      ensures !FaultAt(c.perm, {}, c.cmds, k)
    {
    }
    RunValue(c.perm, EmptyScan, c.cmds);
    PureCommandsIdentity(c.qubits, c.cmds);
    assert MeasureMapOf(c.perm, c.cmds).Keys == {} by {
      MeasureMapKeys(c.perm, c.cmds);
    }
    assert [] + c.cmds == c.cmds;
    assert map[] + MeasureMapOf(c.perm, c.cmds) == map[];
  }

  /** A circuit without commands normalises to one without commands, with
      the same qubits and phase and an empty measure map. */
  lemma NormaliseEmpty(c: Circuit)
    requires WellFormed(c) && c.cmds == []
    ensures Normalise(c) == Ok(Normalised(Circuit(c.qubits, [], c.phase, IdentityPerm(c.qubits)), map[]))
  {
  }
}
