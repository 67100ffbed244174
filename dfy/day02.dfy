/**
 * The first Intcode interpreter (`Day02.execute`): add, multiply and halt only, every
 * instruction four cells wide, operands always addresses. `part02` searches the noun and
 * verb that make the program leave 19690720 in cell 0.
 *
 * An array index out of range raises in Java; here it is `Err(index)`. The loop always ends:
 * the pointer grows by 4 per instruction, so it eventually leaves the memory.
 */
module Day02 {
  import opened Wrappers

  const QUERIED_INDEX := 0
  const TARGET_VALUE := 19690720
  const ADD := 1
  const MUL := 2
  const HALT := 99

  /** The memory at the end of `execute` and what it returned (or the index that raised). */
  datatype Run = Run(memory: seq<int>, result: Result<int, int>)

  /** The loop of `execute` from instruction pointer `ip`. */
  function Interpret(memory: seq<int>, ip: nat): Run
    decreases |memory| - ip
  {
    if ip >= |memory| then Run(memory, Err(ip))
    else
      var instruction := memory[ip];
      if instruction == ADD || instruction == MUL then
        if ip + 1 >= |memory| then Run(memory, Err(ip + 1))
        else if ip + 2 >= |memory| then Run(memory, Err(ip + 2))
        else if ip + 3 >= |memory| then Run(memory, Err(ip + 3))
        else
          var a, b, target := memory[ip + 1], memory[ip + 2], memory[ip + 3];
          if !(0 <= a < |memory|) then Run(memory, Err(a))
          else if !(0 <= b < |memory|) then Run(memory, Err(b))
          else if !(0 <= target < |memory|) then Run(memory, Err(target))
          else
            var value := if instruction == ADD then memory[a] + memory[b] else memory[a] * memory[b];
            Interpret(memory[target := value], ip + 4)
      else if instruction == HALT then
        Run(memory, Ok(memory[QUERIED_INDEX]))
      else
        Run(memory, Ok(-1))
  }

  /** `execute(numbers, noun, verb)`: cells 1 and 2 are overwritten first, then the loop runs from 0. */
  function Execute(program: seq<int>, noun: int, verb: int): Run
  {
    if |program| <= 1 then Run(program, Err(1))
    else if |program| == 2 then Run(program[1 := noun], Err(2))
    else Interpret(program[1 := noun][2 := verb], 0)
  }

  /** Interpretation never changes the size of memory. */
  lemma {:induction false} InterpretKeepsSize(memory: seq<int>, ip: nat)
    ensures |Interpret(memory, ip).memory| == |memory|
    decreases |memory| - ip
  {
    if ip + 3 < |memory| && memory[ip] in {ADD, MUL} {
      var a, b, target := memory[ip + 1], memory[ip + 2], memory[ip + 3];
      if 0 <= a < |memory| && 0 <= b < |memory| && 0 <= target < |memory| {
        var value := if memory[ip] == ADD then memory[a] + memory[b] else memory[a] * memory[b];
        InterpretKeepsSize(memory[target := value], ip + 4);
      }
    }
  }

  /** Where the loop of `execute` stops: the first instruction that is not a complete add or multiply. */
  ghost function StopPointer(memory: seq<int>, ip: nat): nat
    decreases |memory| - ip
  {
    if ip + 3 < |memory| && memory[ip] in {ADD, MUL}
       && 0 <= memory[ip + 1] < |memory| && 0 <= memory[ip + 2] < |memory| && 0 <= memory[ip + 3] < |memory|
    then
      var a, b, target := memory[ip + 1], memory[ip + 2], memory[ip + 3];
      StopPointer(memory[target := if memory[ip] == ADD then memory[a] + memory[b] else memory[a] * memory[b]], ip + 4)
    else ip
  }

  /**
   * A run completes exactly when it stops on an opcode other than add and multiply; it then
   * returns cell 0 of the final memory when that opcode is halt and -1 for any other.
   */
  lemma {:induction false} InterpretResult(memory: seq<int>, ip: nat)
    ensures var r, p := Interpret(memory, ip), StopPointer(memory, ip);
      && (r.result.Ok? <==> p < |r.memory| && r.memory[p] != ADD && r.memory[p] != MUL)
      && (r.result.Ok? && r.memory[p] == HALT ==> r.result.value == r.memory[QUERIED_INDEX])
      && (r.result.Ok? && r.memory[p] != HALT ==> r.result.value == -1)
    decreases |memory| - ip
  {
    if ip + 3 < |memory| && memory[ip] in {ADD, MUL} {
      var a, b, target := memory[ip + 1], memory[ip + 2], memory[ip + 3];
      if 0 <= a < |memory| && 0 <= b < |memory| && 0 <= target < |memory| {
        var value := if memory[ip] == ADD then memory[a] + memory[b] else memory[a] * memory[b];
        InterpretResult(memory[target := value], ip + 4);
      }
    }
  }

  /**
   * One add or multiply: exactly the target cell changes, to the sum or product of the two
   * operand cells, and interpretation continues four cells further on.
   */
  lemma ArithmeticStep(memory: seq<int>, ip: nat)
    requires ip + 3 < |memory| && memory[ip] in {ADD, MUL}
    requires 0 <= memory[ip + 1] < |memory| && 0 <= memory[ip + 2] < |memory| && 0 <= memory[ip + 3] < |memory|
    ensures var a, b, target := memory[ip + 1], memory[ip + 2], memory[ip + 3];
      Interpret(memory, ip) == Interpret(memory[target := if memory[ip] == ADD then memory[a] + memory[b] else memory[a] * memory[b]], ip + 4)
  {
  }

  /** The worked example: `1,9,10,3,2,3,11,0,99,30,40,50` (noun 9, verb 10) leaves 3500 in cell 0. */
  lemma Example()
    ensures Execute([1, 9, 10, 3, 2, 3, 11, 0, 99, 30, 40, 50], 9, 10).result == Ok(3500)
  {
    var m0 := [1, 9, 10, 3, 2, 3, 11, 0, 99, 30, 40, 50];
    assert m0[1 := 9][2 := 10] == m0;
    var m1 := m0[3 := 70];
    assert Interpret(m0, 0) == Interpret(m1, 4);
    var m2 := m1[0 := 3500];
    assert Interpret(m1, 4) == Interpret(m2, 8);
  }

  /**
   * The array-based `execute`: it writes noun and verb into the caller's array, then runs
   * the loop on it in place.
   */
  method ExecuteInPlace(numbers: array<int>, noun: int, verb: int) returns (result: Result<int, int>)
    modifies numbers
    ensures Run(numbers[..], result) == Execute(old(numbers[..]), noun, verb)
  {
    if numbers.Length <= 1 {
      return Err(1);
    }
    numbers[1] := noun;
    if numbers.Length == 2 {
      return Err(2);
    }
    numbers[2] := verb;
    var currentIndex := 0;
    ghost var goal := Interpret(numbers[..], 0);
    while true
      invariant 0 <= currentIndex
      invariant Interpret(numbers[..], currentIndex) == goal
      decreases numbers.Length - currentIndex
    {
      if currentIndex >= numbers.Length {
        return Err(currentIndex);
      }
      var instruction := numbers[currentIndex];
      if instruction == ADD || instruction == MUL {
        if currentIndex + 1 >= numbers.Length { return Err(currentIndex + 1); }
        if currentIndex + 2 >= numbers.Length { return Err(currentIndex + 2); }
        if currentIndex + 3 >= numbers.Length { return Err(currentIndex + 3); }
        var a, b, target := numbers[currentIndex + 1], numbers[currentIndex + 2], numbers[currentIndex + 3];
        if !(0 <= a < numbers.Length) { return Err(a); }
        if !(0 <= b < numbers.Length) { return Err(b); }
        if !(0 <= target < numbers.Length) { return Err(target); }
        numbers[target] := if instruction == ADD then numbers[a] + numbers[b] else numbers[a] * numbers[b];
      } else if instruction == HALT {
        return Ok(numbers[QUERIED_INDEX]);
      } else {
        return Ok(-1);
      }
      currentIndex := currentIndex + 4;
    }
  }

  /** `copyOf`: a fresh array with the same contents. */
  method CopyOf(numbers: array<int>) returns (copy: array<int>)
    ensures fresh(copy) && copy[..] == numbers[..]
  {
    copy := new int[numbers.Length](i reads numbers => if 0 <= i < numbers.Length then numbers[i] else 0);
    assert copy[..] == numbers[..];
  }

  /** A noun and verb for which the program leaves the target value in cell 0. */
  predicate Hits(program: seq<int>, noun: int, verb: int)
  {
    Execute(program, noun, verb).result == Ok(TARGET_VALUE)
  }

  /** A noun and verb whose run completes without raising and leaves some other value. */
  predicate Misses(program: seq<int>, noun: int, verb: int)
  {
    Execute(program, noun, verb).result.Ok? && !Hits(program, noun, verb)
  }

  /** `(noun, verb)` comes before `(n, v)` in the order `part02` tries them. */
  predicate Before(n: int, v: int, noun: int, verb: int)
  {
    n < noun || (n == noun && v < verb)
  }

  /**
   * How `part02` ends: it prints the pair that hits the target, or the exception raised by
   * the run of some pair ends the program (`part02` has no catch), or every pair misses and
   * nothing is printed.
   */
  datatype Search = Found(noun: int, verb: int) | Raised(noun: int, verb: int) | Exhausted

  /**
   * `part02`: nouns outer and verbs inner in 0..99, each run on a fresh copy. The search
   * stops at the first pair that hits the target or whose run raises; every pair tried before
   * it ran to completion and missed. The caller's array is never written.
   */
  method Part02(numbers: array<int>) returns (outcome: Search)
    ensures !outcome.Exhausted? ==>
      var (noun, verb) := (outcome.noun, outcome.verb);
      && 0 <= noun <= 99 && 0 <= verb <= 99
      && (outcome.Found? ==> Hits(numbers[..], noun, verb))
      && (outcome.Raised? ==> Execute(numbers[..], noun, verb).result.Err?)
      && forall n, v :: 0 <= n <= 99 && 0 <= v <= 99 && Before(n, v, noun, verb) ==> Misses(numbers[..], n, v)
    ensures outcome.Exhausted? ==> forall n, v :: 0 <= n <= 99 && 0 <= v <= 99 ==> Misses(numbers[..], n, v)
  {
    for noun := 0 to 100
      invariant forall n, v :: 0 <= n < noun && 0 <= v <= 99 ==> Misses(numbers[..], n, v)
    {
      for verb := 0 to 100
        invariant forall n, v :: 0 <= n <= 99 && 0 <= v <= 99 && Before(n, v, noun, verb) ==> Misses(numbers[..], n, v)
      {
        var copy := CopyOf(numbers);
        var result := ExecuteInPlace(copy, noun, verb);
        if result.Err? {
          return Raised(noun, verb);
        }
        if result == Ok(TARGET_VALUE) {
          return Found(noun, verb);
        }
      }
    }
    outcome := Exhausted;
  }

  /** The printed answer of `part02`. */
  function Answer(noun: int, verb: int): (r: int)
    requires 0 <= noun <= 99 && 0 <= verb <= 99
    ensures 0 <= r <= 9999 && r / 100 == noun && r % 100 == verb
  {
    100 * noun + verb
  }
}
