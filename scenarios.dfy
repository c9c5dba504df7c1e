/** Small circuits worked through the normaliser. */
module Scenarios {
  import opened Circuits
  import opened Utils

  const H := Gate("H", [])
  const CX := Gate("CX", [])

  /** A gate on qubit 0, then qubit 0 measured into bit 0 and qubit 1 into
      bit 1, no implicit permutation: the gate stays, both measurements go
      to the map. */
  lemma TrailingMeasurements()
    ensures Normalise(Circuit({0, 1},
                              [Command(H, [0], []), Command(Measure, [0], [0]), Command(Measure, [1], [1])],
                              0.25, map[0 := 0, 1 := 1]))
         == Ok(Normalised(Circuit({0, 1}, [Command(H, [0], [])], 0.25, map[0 := 0, 1 := 1]),
                          map[0 := 0, 1 := 1]))
  {
    var c := Circuit({0, 1},
                     [Command(H, [0], []), Command(Measure, [0], [0]), Command(Measure, [1], [1])],
                     0.25, map[0 := 0, 1 := 1]);
    assert IdentityPerm({0, 1}) == map[0 := 0, 1 := 1];
    assert Rename(c.perm, [0]) == [0];
    assert Rename(c.perm, [1]) == [1];
    var r1 := Step(c.perm, EmptyScan, c.cmds[0]);
    assert r1.Ok? && r1.value.cmds == [Command(H, [0], [])];
    assert r1.value.measureMap == map[] && r1.value.measured == {};
    var r2 := Step(c.perm, r1.value, c.cmds[1]);
    assert r2.Ok? && r2.value.cmds == r1.value.cmds;
    assert r2.value.measureMap == map[0 := 0] && r2.value.measured == {0};
    assert !Clashes(r2.value.measured, [1]);
    var r3 := Step(c.perm, r2.value, c.cmds[2]);
    assert r3.Ok? && r3.value.cmds == r1.value.cmds;
    assert r3.value.measureMap == map[0 := 0, 1 := 1];
    assert Run(c.perm, r2.value, c.cmds[2..]) == r3;
    assert Run(c.perm, r1.value, c.cmds[1..]) == r3;
  }

  /** The same circuit under the implicit permutation swapping qubits 0
      and 1: the gate and the map keys use the final qubit names, while
      the bits are not renamed. */
  lemma TrailingMeasurementsSwapped()
    ensures Normalise(Circuit({0, 1},
                              [Command(H, [0], []), Command(Measure, [0], [0]), Command(Measure, [1], [1])],
                              0.25, map[0 := 1, 1 := 0]))
         == Ok(Normalised(Circuit({0, 1}, [Command(H, [1], [])], 0.25, map[0 := 0, 1 := 1]),
                          map[1 := 0, 0 := 1]))
  {
    var c := Circuit({0, 1},
                     [Command(H, [0], []), Command(Measure, [0], [0]), Command(Measure, [1], [1])],
                     0.25, map[0 := 1, 1 := 0]);
    assert IdentityPerm({0, 1}) == map[0 := 0, 1 := 1];
    assert Rename(c.perm, [0]) == [1];
    assert Rename(c.perm, [1]) == [0];
    var r1 := Step(c.perm, EmptyScan, c.cmds[0]);
    assert r1.Ok? && r1.value.cmds == [Command(H, [1], [])];
    assert r1.value.measureMap == map[] && r1.value.measured == {};
    var r2 := Step(c.perm, r1.value, c.cmds[1]);
    assert r2.Ok? && r2.value.cmds == r1.value.cmds;
    assert r2.value.measureMap == map[1 := 0] && r2.value.measured == {1};
    assert !Clashes(r2.value.measured, [0]);
    var r3 := Step(c.perm, r2.value, c.cmds[2]);
    assert r3.Ok? && r3.value.cmds == r1.value.cmds;
    assert r3.value.measureMap == map[1 := 0, 0 := 1];
    assert Run(c.perm, r2.value, c.cmds[2..]) == r3;
    assert Run(c.perm, r1.value, c.cmds[1..]) == r3;
  }

  /** A gate after a measurement of the same qubit is a mid-circuit measurement. */
  lemma GateAfterMeasurement()
    ensures Normalise(Circuit({0}, [Command(Measure, [0], [0]), Command(H, [0], [])], 0.0, map[0 := 0]))
         == Err(MidCircuitMeasurement)
  {
    var c := Circuit({0}, [Command(Measure, [0], [0]), Command(H, [0], [])], 0.0, map[0 := 0]);
    assert Rename(c.perm, [0]) == [0];
    var r1 := Step(c.perm, EmptyScan, c.cmds[0]);
    assert r1.Ok? && r1.value.measured == {0};
    assert Clashes(r1.value.measured, Rename(c.perm, c.cmds[1].qubits));
    assert Run(c.perm, r1.value, c.cmds[1..]) == Err(MidCircuitMeasurement);
  }

  /** A command that is not a measurement but refers to bit 0 is refused. */
  lemma ClassicalOperation()
    ensures Normalise(Circuit({0, 1}, [Command(CX, [0, 1], []), Command(H, [0], [0])], 0.0, map[0 := 0, 1 := 1]))
         == Err(OperationOnBit)
  {
    var c := Circuit({0, 1}, [Command(CX, [0, 1], []), Command(H, [0], [0])], 0.0, map[0 := 0, 1 := 1]);
    assert Rename(c.perm, [0, 1]) == [0, 1];
    var r1 := Step(c.perm, EmptyScan, c.cmds[0]);
    assert r1.Ok? && r1.value.measured == {};
    assert Run(c.perm, r1.value, c.cmds[1..]) == Err(OperationOnBit);
  }
}
