/**
 * What the Intcode executors of Day05 and Day09 (`IntcodeExecutor` in each) share: the
 * opcode table, the decoding of an instruction into an opcode and mode digits, bounds-checked
 * memory access, the arithmetic of the four binary instructions, and the vocabulary of
 * steps and runs. Each Java class repeats this code; the model states it once.
 */
module Intcode {
  import opened Wrappers
  import JavaMath

  const ADD := 1
  const MUL := 2
  const INPUT := 3
  const OUTPUT := 4
  const JUMP_TRUE := 5
  const JUMP_FALSE := 6
  const LESS_THAN := 7
  const EQUALS := 8
  const HALT := 99

  /** Why a step raised an exception instead of completing. */
  datatype Trap = InvalidMode(mode: int) | AddressOutOfRange(address: int)

  /** What a step did besides changing the state. */
  datatype Event = Continued | Produced(value: int) | AwaitingInput(target: int) | Trapped(trap: Trap)

  // ---------------------------------------------------------------------------------
  // Decoding

  /** `instruction % 100` in Java arithmetic. */
  function OpCode(instruction: int): int
  {
    JavaMath.Rem(instruction, 100)
  }

  /** `instruction / 100` in Java arithmetic: the mode digits. */
  function Modes(instruction: int): int
  {
    JavaMath.Div(instruction, 100)
  }

  /** `modes` after the loop `for (i < modeIndex) modes /= 10`. */
  function Shifted(modes: int, count: nat): int
    decreases count
  {
    if count == 0 then modes else Shifted(JavaMath.Div(modes, 10), count - 1)
  }

  /** The mode of parameter `modeIndex`: `Shifted(modes, modeIndex) % 10`. */
  function ModeOf(modes: int, modeIndex: nat): int
  {
    JavaMath.Rem(Shifted(modes, modeIndex), 10)
  }

  /**
   * For a non-negative instruction the opcode is its last two decimal digits and the
   * modes of parameters 0, 1 and 2 are its hundreds, thousands and ten-thousands digits.
   */
  lemma DecodeDigits(instruction: nat)
    ensures OpCode(instruction) == instruction % 100
    ensures ModeOf(Modes(instruction), 0) == instruction / 100 % 10
    ensures ModeOf(Modes(instruction), 1) == instruction / 1000 % 10
    ensures ModeOf(Modes(instruction), 2) == instruction / 10000 % 10
  {
    JavaMath.NonNegativeDivRem(instruction, 100);
    var modes: nat := instruction / 100;
    JavaMath.NonNegativeDivRem(modes, 10);
    var tens: nat := modes / 10;
    JavaMath.NonNegativeDivRem(tens, 10);
    var hundreds: nat := tens / 10;
    JavaMath.NonNegativeDivRem(hundreds, 10);
    JavaMath.DivDiv(instruction, 100, 10);
    JavaMath.DivDiv(instruction, 1000, 10);
    assert Shifted(modes, 1) == tens;
    assert Shifted(modes, 2) == Shifted(tens, 1) == hundreds;
  }

  /** A negative instruction has a non-positive opcode, which no executor knows, so it fails. */
  lemma NegativeInstructionFails(instruction: int)
    requires instruction < 0
    ensures -100 < OpCode(instruction) <= 0
  {
  }

  // ---------------------------------------------------------------------------------
  // Memory and arithmetic

  /** `numbers[address]`, or the index exception. */
  function Cell(numbers: seq<int>, address: int): Result<int, Trap>
  {
    if 0 <= address < |numbers| then Ok(numbers[address]) else Err(AddressOutOfRange(address))
  }

  /** `numbers[address] = value`, or the index exception. */
  function Store(numbers: seq<int>, address: int, value: int): Result<seq<int>, Trap>
  {
    if 0 <= address < |numbers| then Ok(numbers[address := value]) else Err(AddressOutOfRange(address))
  }

  /** The value written by add, multiply, less-than and equals. */
  function Combine(opCode: int, a: int, b: int): int
  {
    if opCode == ADD then a + b
    else if opCode == MUL then a * b
    else if opCode == LESS_THAN then (if a < b then 1 else 0)
    else (if a == b then 1 else 0)
  }

  /** The loop of `getInput`/`getOutput`: `for (i < modeIndex) modes /= 10; mode = modes % 10`. */
  method Mode(modes: int, modeIndex: nat) returns (mode: int)
    ensures mode == ModeOf(modes, modeIndex)
  {
    var shifted := modes;
    for i := 0 to modeIndex
      invariant Shifted(shifted, modeIndex - i) == Shifted(modes, modeIndex)
    {
      shifted := JavaMath.Div(shifted, 10);
    }
    mode := JavaMath.Rem(shifted, 10);
  }


  // ---------------------------------------------------------------------------------
  // Runs

  /** What an input hook answered: a value and its new state, or no value (it raised or blocked). */
  datatype Accepted<P> = Accepted(value: int, port: P) | Blocked

  /**
   * What an output hook answered: its new state and whether it set `halted`, or that it
   * could not take the value (a full queue).
   */
  datatype Delivered<P> = Delivered(port: P, halt: bool) | Refused

  /** Why a run ended. */
  datatype Stop = Halted | Failed | Raised(trap: Trap) | InputBlocked | OutputBlocked | OutOfFuel

  // The default hooks, modelled as an abstract input sequence and an output log.

  /** The state of the default hooks: the inputs not yet read and the outputs so far. */
  datatype Console = Console(inputs: seq<int>, outputs: seq<int>)

  /** `acceptLong`: the next input, or no value once the inputs are exhausted. */
  function ConsoleAccept(c: Console): (a: Accepted<Console>)
    ensures a.Accepted? <==> c.inputs != []
    ensures a.Accepted? ==> a.value == c.inputs[0] && a.port == c.(inputs := c.inputs[1..])
  {
    if c.inputs == [] then Blocked else Accepted(c.inputs[0], c.(inputs := c.inputs[1..]))
  }

  /** `produceLong`: the value is appended to the output log. */
  function ConsoleProduce(c: Console, value: int): (r: Delivered<Console>)
    ensures r == Delivered(Console(c.inputs, c.outputs + [value]), false)
  {
    Delivered(c.(outputs := c.outputs + [value]), false)
  }

}
