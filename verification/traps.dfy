/**
 * The two trap handlers of the EVM: the handler bound to an opcode that has no
 * instruction, and the handler of the deliberate-abort instruction. A handler
 * maps an execution context to its outcome.
 */
module Traps {

  /** The execution context a handler runs against. Its contents (program counter,
      stack, memory, ...) are defined elsewhere and are irrelevant to the trap
      handlers, which never read them; `state` stands for all of it. */
  datatype Ctx = Ctx(state: int)

  /** What running one instruction yields: the context to continue with, or one
      of the two faults, which are told apart by kind. */
  datatype Outcome =
    | Continue(ctx: Ctx)
    | InvalidOpcode(opcode: int)
    | UnreachableInstruction

  type Handler = Ctx -> Outcome

  /** `invalidOpcode(opcode)`: a handler that fails, whatever the context, with an
      InvalidOpcode fault carrying the opcode it was built for. */
  function InvalidOpcodeHandler(opcode: int): (h: Handler)
    ensures forall ctx :: h(ctx).InvalidOpcode? && h(ctx).opcode == opcode
  {
    _ => InvalidOpcode(opcode)
  }

  /** `opUnreachable`: fails with the payload-free UnreachableInstruction fault. */
  function OpUnreachable(ctx: Ctx): (r: Outcome)
    ensures r.UnreachableInstruction?
  {
    UnreachableInstruction
  }

  /** The handler never lets execution continue. */
  ghost predicate NeverContinues(h: Handler) {
    forall ctx :: !h(ctx).Continue?
  }

  /** The handler's outcome is the same for every context. */
  ghost predicate IgnoresContext(h: Handler) {
    forall ctx1, ctx2 :: h(ctx1) == h(ctx2)
  }

  /** Both trap handlers halt, ignore the context, and raise different fault kinds:
      `invalidOpcode(n)` never raises UnreachableInstruction and `opUnreachable`
      never raises InvalidOpcode. Two handlers built for different opcodes are
      told apart by their payload. */
  lemma TrapsHaltAndDiffer(n: int, m: int, ctx: Ctx)
    ensures NeverContinues(InvalidOpcodeHandler(n)) && IgnoresContext(InvalidOpcodeHandler(n))
    ensures NeverContinues(OpUnreachable) && IgnoresContext(OpUnreachable)
    ensures InvalidOpcodeHandler(n)(ctx) != OpUnreachable(ctx)
    ensures n != m ==> InvalidOpcodeHandler(n)(ctx) != InvalidOpcodeHandler(m)(ctx)
  {
  }
}
