/** The slice of a pytket circuit that the normaliser reads and writes:
    qubit and bit identifiers, operations, commands, circuits, and the
    builder-style API (add_qubit, add_gate, add_phase) used to assemble
    the measurement-free output circuit. */
module Circuits {

  /** Opaque identifiers of a quantum and of a classical register location. */
  type Qubit = nat
  type Bit = nat

  /** An operation: the distinguished measurement, or any other gate.
      Gate semantics are not modelled; a gate is known by its name and
      its parameters only. */
  datatype Op = Measure | Gate(name: string, params: seq<real>)

  /** An operation bound to its ordered qubit arguments and its bit arguments. */
  datatype Command = Command(op: Op, qubits: seq<Qubit>, bits: seq<Bit>)

  /** A circuit: its declared qubits, its commands in program order, its
      global phase and its implicit final qubit permutation. */
  datatype Circuit = Circuit(qubits: set<Qubit>, cmds: seq<Command>, phase: real, perm: map<Qubit, Qubit>)

  /** The identity permutation on a set of qubits: the implicit permutation
      of a circuit built gate by gate. */
  function IdentityPerm(qs: set<Qubit>): map<Qubit, Qubit>
  {
    map q | q in qs :: q
  }

  /** A command fits a circuit over `qubits` when it only names declared
      qubits, and a measurement names at least one qubit and one bit. */
  predicate CommandWellFormed(qubits: set<Qubit>, c: Command)
  {
    (forall q :: q in c.qubits ==> q in qubits)
    && (c.op.Measure? ==> |c.qubits| > 0 && |c.bits| > 0)
  }

  /** The structural invariants a pytket circuit guarantees: its implicit
      permutation is a map from its qubits into its qubits, and each
      command is well formed over its qubits. */
  predicate WellFormed(c: Circuit)
  {
    c.perm.Keys == c.qubits
    && (forall q :: q in c.perm ==> c.perm[q] in c.qubits)
    && (forall k :: 0 <= k < |c.cmds| ==> CommandWellFormed(c.qubits, c.cmds[k]))
  }

  /** A pure circuit, the shape a state-vector backend accepts: no
      measurement, no bit reference, and an identity implicit permutation. */
  predicate IsPure(c: Circuit)
  {
    c.perm == IdentityPerm(c.qubits)
    && forall k :: 0 <= k < |c.cmds| ==> !c.cmds[k].op.Measure? && c.cmds[k].bits == []
  }

  /** The qubits `qs` renamed through `perm` (the list comprehension
      `[q_perm[q] for q in command.qubits]`). */
  function Rename(perm: map<Qubit, Qubit>, qs: seq<Qubit>): seq<Qubit>
    requires forall q :: q in qs ==> q in perm
  {
    seq(|qs|, j requires 0 <= j < |qs| => perm[qs[j]])
  }

  /** Renaming through the identity permutation changes nothing. */
  lemma RenameIdentity(qs: set<Qubit>, xs: seq<Qubit>)
    requires forall x :: x in xs ==> x in qs
    ensures Rename(IdentityPerm(qs), xs) == xs
  {
  }

  /** Renaming works qubit by qubit: it distributes over concatenation. */
  lemma RenameAppend(perm: map<Qubit, Qubit>, a: seq<Qubit>, b: seq<Qubit>)
    requires forall q :: q in a ==> q in perm
    requires forall q :: q in b ==> q in perm
    ensures Rename(perm, a + b) == Rename(perm, a) + Rename(perm, b)
  {
  }

  /** A circuit under construction, updated in place as pytket's `Circuit`
      object is by `add_qubit`, `add_gate` and `add_phase`. */
  class PureCircuit {
    var qubits: set<Qubit>
    var cmds: seq<Command>
    var phase: real

    /** `Circuit()`: no qubits, no commands, zero phase. */
    constructor ()
      ensures qubits == {} && cmds == [] && phase == 0.0
    {
      qubits, cmds, phase := {}, [], 0.0;
    }

    /** `add_qubit(q)`: declares one more qubit. */
    method AddQubit(q: Qubit)
      modifies this
      ensures qubits == old(qubits) + {q}
      ensures cmds == old(cmds) && phase == old(phase)
    {
      qubits := qubits + {q};
    }

    /** `add_gate(op, qs)`: appends a command on declared qubits, with no bits. */
    method AddGate(op: Op, qs: seq<Qubit>)
      requires forall q :: q in qs ==> q in qubits
      modifies this
      ensures cmds == old(cmds) + [Command(op, qs, [])]
      ensures qubits == old(qubits) && phase == old(phase)
    {
      cmds := cmds + [Command(op, qs, [])];
    }

    /** `add_phase(p)`: adds `p` to the global phase. */
    method AddPhase(p: real)
      modifies this
      ensures phase == old(phase) + p
      ensures qubits == old(qubits) && cmds == old(cmds)
    {
      phase := phase + p;
    }

    /** The circuit built so far, as a value; a circuit assembled gate by
        gate carries the identity implicit permutation. */
    function Value(): Circuit
      reads this
    {
      Circuit(qubits, cmds, phase, IdentityPerm(qubits))
    }
  }
}
