/**
 * The category-six network (`Day23`): fifty computers running the same Intcode program on the
 * Day 9 machine, each booted with its own address, sending packets (destination, x, y) to one
 * another. Part 1 stops every computer when a packet is sent to address 255; part 2 keeps the
 * last such packet in the NAT, which sends it to computer 0 whenever the network is idle,
 * until it sends the same y twice in a row.
 *
 * Each computer's hooks are pure functions of its `Node` that plug into `Day09.Advance`; a
 * completed packet is handed over in the node's `handed` list, and the network routes it right
 * after the pass that completed it (Java calls the consumer from within `produceLong`).
 * The threads are replaced by a round-robin schedule: one pass of each computer in address
 * order, and in part 2 one look of the NAT after each round.
 */
module Day23 {
  import opened Wrappers
  import opened Intcode
  import Day09

  const COMPUTERS: nat := 50
  const NAT_ADDRESS := 255
  /** What `acceptLong` answers when the queue is empty. */
  const NO_PACKET := -1

  /**
   * A packet in a queue. Its y is always set (it is set before the packet leaves its sender);
   * x is set until the receiver has read it.
   */
  datatype Packet = Packet(target: int, x: Option<int>, y: int)

  /** A packet being assembled from outputs: the destination, then also x. */
  datatype Assembly = Targeted(target: int) | WithX(target: int, x: int)

  /** `Packet.singleValue`: the boot packet, which carries only a y. */
  function SingleValue(value: int): Packet
  {
    Packet(0, None, value)
  }

  /**
   * A computer's hook state: its input queue, whether its last I/O was an input, the packet
   * being assembled, and the completed packets handed to the consumer and not yet routed.
   */
  datatype Node = Node(inputQueue: seq<Packet>, wasLastOperationPoll: bool, packet: Option<Assembly>, handed: seq<Packet>)

  /**
   * `acceptLong`: -1 on an empty queue; else the head's x, which is then cleared, or, once x
   * is gone, the head's y, and the head leaves the queue. Every call marks the last I/O as an input.
   */
  function Accept(n: Node): (a: Accepted<Node>)
    ensures a.Accepted? && a.port.wasLastOperationPoll
    ensures a.port.packet == n.packet && a.port.handed == n.handed
    ensures n.inputQueue == [] ==> a.value == NO_PACKET && a.port.inputQueue == []
    ensures n.inputQueue != [] && n.inputQueue[0].x.Some? ==>
      a.value == n.inputQueue[0].x.value && a.port.inputQueue == [n.inputQueue[0].(x := None)] + n.inputQueue[1..]
    ensures n.inputQueue != [] && n.inputQueue[0].x.None? ==>
      a.value == n.inputQueue[0].y && a.port.inputQueue == n.inputQueue[1..]
  {
    if n.inputQueue == [] then Accepted(NO_PACKET, n.(wasLastOperationPoll := true))
    else
      var candidate := n.inputQueue[0];
      if candidate.x.Some? then
        Accepted(candidate.x.value, n.(wasLastOperationPoll := true, inputQueue := [candidate.(x := None)] + n.inputQueue[1..]))
      else
        Accepted(candidate.y, n.(wasLastOperationPoll := true, inputQueue := n.inputQueue[1..]))
  }

  /**
   * `produceLong`: the outputs are gathered in threes, destination, x and y; the third hands
   * the packet to the consumer and empties the slot. Every call marks the last I/O as an output.
   */
  function Produce(n: Node, value: int): (d: Delivered<Node>)
    ensures d.Delivered? && !d.halt && !d.port.wasLastOperationPoll && d.port.inputQueue == n.inputQueue
  {
    var n' := n.(wasLastOperationPoll := false);
    match n.packet
    case None => Delivered(n'.(packet := Some(Targeted(value))), false)
    case Some(Targeted(target)) => Delivered(n'.(packet := Some(WithX(target, value))), false)
    case Some(WithX(target, x)) => Delivered(n'.(packet := None, handed := n.handed + [Packet(target, Some(x), value)]), false)
  }

  /** A queued packet is read as its x and then its y, and leaves the queue only with the y. */
  lemma PacketReadInTwo(n: Node, p: Packet, x: int)
    requires n.inputQueue != [] && n.inputQueue[0] == p && p.x == Some(x)
    ensures var first := Accept(n);
      && first.value == x && first.port.inputQueue == [p.(x := None)] + n.inputQueue[1..]
      && var second := Accept(first.port);
      second.value == p.y && second.port.inputQueue == n.inputQueue[1..]
  {
    var first := Accept(n);
    assert first.port.inputQueue[1..] == n.inputQueue[1..];
  }

  /** What `k` successive reads of a node return, in order. */
  function ReadValues(n: Node, k: nat): seq<int>
    decreases k
  {
    if k == 0 then [] else var a := Accept(n); [a.value] + ReadValues(a.port, k - 1)
  }

  /** The values a queue holds in the order they are to be read: each packet's x if still set, then its y. */
  function Pending(queue: seq<Packet>): seq<int>
    decreases |queue|
  {
    if queue == [] then []
    else (if queue[0].x.Some? then [queue[0].x.value] else []) + [queue[0].y] + Pending(queue[1..])
  }

  /**
   * The input queue is first in, first out: reading a node as often as its queue holds values
   * returns those values in queue order, then -1 once the queue is empty.
   */
  lemma {:induction false} ReadsInOrder(n: Node)
    ensures ReadValues(n, |Pending(n.inputQueue)| + 1) == Pending(n.inputQueue) + [NO_PACKET]
    decreases |Pending(n.inputQueue)|
  {
    if n.inputQueue != [] {
      var a := Accept(n);
      var head := n.inputQueue[0];
      if head.x.Some? {
        assert a.port.inputQueue[1..] == n.inputQueue[1..];
        assert Pending(a.port.inputQueue) == [head.y] + Pending(n.inputQueue[1..]);
      }
      ReadsInOrder(a.port);
    }
  }

  /** The boot packet is read in one input, as the computer's address. */
  lemma BootPacketIsAddress(address: int)
    ensures var a := Accept(Node([SingleValue(address)], false, None, []));
      a.value == address && a.port.inputQueue == []
  {
  }

  /**
   * Three outputs from an empty slot hand over exactly one packet, (destination, x, y), and
   * leave the slot empty again.
   */
  lemma OutputsInThrees(n: Node, target: int, x: int, y: int)
    requires n.packet.None?
    ensures var n3 := Produce(Produce(Produce(n, target).port, x).port, y).port;
      n3 == n.(wasLastOperationPoll := false, handed := n.handed + [Packet(target, Some(x), y)])
  {
  }

  /** The first two outputs of a packet hand nothing over. */
  lemma NoPacketBeforeThird(n: Node, target: int, x: int)
    requires n.packet.None?
    ensures Produce(n, target).port.handed == n.handed
    ensures Produce(Produce(n, target).port, x).port.handed == n.handed
  {
  }

  // ---------------------------------------------------------------------------------
  // The network

  /**
   * The network: each computer's machine and hooks, the computers whose thread died of an
   * exception, and the NAT (part 2): its packet, the last y it sent, whether it still runs, and
   * the y values printed.
   */
  datatype Network = Network(
    machines: seq<Day09.Machine>, nodes: seq<Node>, crashed: set<int>,
    natPacket: Option<Packet>, lastY: int, shouldRun: bool, printed: seq<int>)
  {
    ghost predicate Valid() { |machines| == |nodes| }
  }

  /** `execute`: fifty computers on the program, computer i with the boot packet carrying i. */
  function Boot(program: seq<int>): (net: Network)
    requires |program| <= Day09.MEMORY_SIZE
    ensures net.Valid() && |net.nodes| == COMPUTERS
    ensures forall i :: 0 <= i < COMPUTERS ==> net.nodes[i].inputQueue == [SingleValue(i)]
  {
    Network(
      seq(COMPUTERS, _ => Day09.Load(program)),
      seq(COMPUTERS, i => Node([SingleValue(i)], false, None, [])),
      {}, None, 0, true, [])
  }

  /** Every machine with `halted` set, nothing else changed. */
  function HaltAll(machines: seq<Day09.Machine>): (r: seq<Day09.Machine>)
    ensures |r| == |machines|
    ensures forall k :: 0 <= k < |r| ==> r[k] == machines[k].(halted := true)
  {
    seq(|machines|, k requires 0 <= k < |machines| => machines[k].(halted := true))
  }

  /** The packet appended to the queue of the computer with its address; other addresses drop it. */
  function Enqueue(net: Network, p: Packet): (r: Network)
    ensures r.machines == net.machines && |r.nodes| == |net.nodes|
    ensures r.crashed == net.crashed && r.natPacket == net.natPacket && r.lastY == net.lastY
    ensures r.shouldRun == net.shouldRun && r.printed == net.printed
    ensures 0 <= p.target < |net.nodes| ==>
      r.nodes == net.nodes[p.target := net.nodes[p.target].(inputQueue := net.nodes[p.target].inputQueue + [p])]
    ensures !(0 <= p.target < |net.nodes|) ==> r == net
  {
    if 0 <= p.target < |net.nodes| then
      net.(nodes := net.nodes[p.target := net.nodes[p.target].(inputQueue := net.nodes[p.target].inputQueue + [p])])
    else net
  }

  /**
   * `Part01.accept`: a packet to 255 has its y printed and halts every computer, and is not
   * delivered; any other is delivered to its address, or dropped when no computer has it.
   */
  function Route01(net: Network, p: Packet): (r: Network)
    ensures p.target == NAT_ADDRESS ==>
      && r.nodes == net.nodes && r.printed == net.printed + [p.y]
      && |r.machines| == |net.machines| && forall k :: 0 <= k < |r.machines| ==> r.machines[k].halted
    ensures p.target != NAT_ADDRESS ==> r == Enqueue(net, p)
  {
    if p.target == NAT_ADDRESS then net.(printed := net.printed + [p.y], machines := HaltAll(net.machines))
    else Enqueue(net, p)
  }

  /** `Part02.accept`: a packet to 255 replaces the NAT's packet and is not delivered; any other as in part 1. */
  function Route02(net: Network, p: Packet): (r: Network)
    ensures p.target == NAT_ADDRESS ==> r == net.(natPacket := Some(p))
    ensures p.target != NAT_ADDRESS ==> r == Enqueue(net, p)
  {
    if p.target == NAT_ADDRESS then net.(natPacket := Some(p)) else Enqueue(net, p)
  }

  /** The consumer of part 1 or part 2. */
  function Route(net: Network, p: Packet, part2: bool): Network
  {
    if part2 then Route02(net, p) else Route01(net, p)
  }

  /** The consumer called on each handed packet in turn. */
  function RouteAll(net: Network, packets: seq<Packet>, part2: bool): (r: Network)
    ensures |r.nodes| == |net.nodes| && |r.machines| == |net.machines| && r.crashed == net.crashed
    decreases |packets|
  {
    if packets == [] then net else RouteAll(Route(net, packets[0], part2), packets[1..], part2)
  }

  /**
   * One pass of computer k's `execute` loop, then its handed packets routed. A halted or
   * crashed computer does nothing; an exception ends the computer's thread.
   */
  function Tick(net: Network, k: nat, part2: bool): (r: Network)
    requires net.Valid() && k < |net.nodes|
    ensures r.Valid() && |r.nodes| == |net.nodes|
  {
    var m := net.machines[k];
    if !m.Running() || k in net.crashed then net
    else
      match Day09.Advance(m, net.nodes[k], Accept, Produce)
      case Ended(_, node) => net.(nodes := net.nodes[k := node], crashed := net.crashed + {k})
      case Next(m', node) =>
        RouteAll(net.(machines := net.machines[k := m'], nodes := net.nodes[k := node.(handed := [])]), node.handed, part2)
  }

  /** The passes of computers 0 to k - 1, in address order. */
  function Passes(net: Network, k: nat, part2: bool): (r: Network)
    requires net.Valid() && k <= |net.nodes|
    ensures r.Valid() && |r.nodes| == |net.nodes|
    decreases k
  {
    if k == 0 then net else Tick(Passes(net, k - 1, part2), k - 1, part2)
  }

  /** A computer is idle when its queue is empty and its last I/O was an input. */
  predicate Idle(n: Node)
  {
    n.inputQueue == [] && n.wasLastOperationPoll
  }

  /** The number of idle computers (the stream's `filter(...).count()`). */
  function CountIdle(nodes: seq<Node>): (c: nat)
    ensures c <= |nodes|
    ensures c == |nodes| <==> forall k :: 0 <= k < |nodes| ==> Idle(nodes[k])
    decreases |nodes|
  {
    if nodes == [] then 0
    else CountIdle(nodes[..|nodes| - 1]) + if Idle(nodes[|nodes| - 1]) then 1 else 0
  }

  /**
   * One look of the NAT (`Part02.run`'s loop body): when every computer is idle and it holds a
   * packet, a y equal to the last one sent is printed and every computer halted; the packet is
   * then sent to computer 0 in any case.
   */
  function NatStep(net: Network): Network
    requires |net.nodes| > 0
  {
    if CountIdle(net.nodes) != |net.nodes| || net.natPacket.None? then net
    else
      var p := net.natPacket.value;
      var stopped := if net.lastY == p.y then net.(printed := net.printed + [p.y], shouldRun := false, machines := HaltAll(net.machines)) else net;
      stopped.(lastY := p.y, nodes := stopped.nodes[0 := stopped.nodes[0].(inputQueue := stopped.nodes[0].inputQueue + [p])])
  }

  /** The network after `rounds` rounds: in part 2, a NAT look after each, while the NAT runs. */
  function Simulate(net: Network, part2: bool, rounds: nat): (r: Network)
    requires net.Valid() && |net.nodes| > 0
    ensures r.Valid() && |r.nodes| == |net.nodes|
    decreases rounds
  {
    if rounds == 0 then net
    else
      var before := Simulate(net, part2, rounds - 1);
      var after := Passes(before, |before.nodes|, part2);
      if part2 && before.shouldRun then NatStep(after) else after
  }

  /** A network in which every machine is halted does nothing more in part 1. */
  lemma {:induction false} HaltedNetworkRests(net: Network, k: nat)
    requires net.Valid() && k <= |net.nodes|
    requires forall i :: 0 <= i < |net.machines| ==> net.machines[i].halted
    ensures Passes(net, k, false) == net
    decreases k
  {
    if k > 0 {
      HaltedNetworkRests(net, k - 1);
    }
  }

  /** Part 1: once the first packet to 255 is routed, every computer is halted and stays so. */
  lemma {:induction false} Part01Stops(net: Network, p: Packet, rounds: nat)
    requires net.Valid() && |net.nodes| > 0 && p.target == NAT_ADDRESS
    ensures var stopped := Route01(net, p);
      Simulate(stopped, false, rounds) == stopped && stopped.printed == net.printed + [p.y]
    decreases rounds
  {
    var stopped := Route01(net, p);
    if rounds > 0 {
      Part01Stops(net, p, rounds - 1);
      HaltedNetworkRests(stopped, |stopped.nodes|);
    }
  }

  /** Part 2: with every computer idle, the NAT's packet goes to computer 0 and becomes the last y sent. */
  lemma NatWakesComputerZero(net: Network)
    requires |net.nodes| > 0 && net.natPacket.Some?
    requires forall k :: 0 <= k < |net.nodes| ==> Idle(net.nodes[k])
    ensures var r := NatStep(net);
      && r.lastY == net.natPacket.value.y
      && r.nodes[0].inputQueue == [net.natPacket.value]
      && (r.shouldRun <==> net.shouldRun && net.lastY != net.natPacket.value.y)
  {
  }

  /** Part 2: the NAT does nothing while some computer is busy. */
  lemma NatWaitsForIdle(net: Network, k: nat)
    requires k < |net.nodes| && !Idle(net.nodes[k])
    ensures NatStep(net) == net
  {
  }

  // ---------------------------------------------------------------------------------
  // The computer object

  class Computer {
    const vm: Day09.IntcodeExecutor
    var inputQueue: seq<Packet>
    var wasLastOperationPoll: bool
    var packet: Option<Assembly>
    /** The packets handed to the consumer and not routed yet. */
    var handed: seq<Packet>

    function Port(): Node
      reads this
    {
      Node(inputQueue, wasLastOperationPoll, packet, handed)
    }

    constructor (numbers: seq<int>)
      requires |numbers| <= Day09.MEMORY_SIZE
      ensures vm.State() == Day09.Load(numbers) && Port() == Node([], false, None, [])
      ensures fresh(vm) && fresh(vm.numbers)
    {
      vm := new Day09.IntcodeExecutor(numbers);
      inputQueue, wasLastOperationPoll, packet, handed := [], false, None, [];
    }

    /** `inputQueue.offer`. */
    method Offer(p: Packet)
      modifies this
      ensures Port() == old(Port()).(inputQueue := old(inputQueue) + [p])
    {
      inputQueue := inputQueue + [p];
    }

    method AcceptLong() returns (value: int)
      modifies this
      ensures Accept(old(Port())) == Accepted(value, Port())
    {
      wasLastOperationPoll := true;
      if inputQueue == [] {
        return NO_PACKET;
      }
      var candidate := inputQueue[0];
      if candidate.x.Some? {
        value := candidate.x.value;
        inputQueue := [candidate.(x := None)] + inputQueue[1..];
        return;
      }
      inputQueue := inputQueue[1..];
      value := candidate.y;
    }

    method ProduceLong(value: int)
      modifies this
      ensures Produce(old(Port()), value) == Delivered(Port(), false)
    {
      wasLastOperationPoll := false;
      match packet {
        case None =>
          packet := Some(Targeted(value));
        case Some(Targeted(target)) =>
          packet := Some(WithX(target, value));
        case Some(WithX(target, x)) =>
          handed := handed + [Packet(target, Some(x), value)];
          packet := None;
      }
    }

    /** One pass of `execute`'s loop with the computer's hooks. */
    method Pass() returns (ended: Option<Stop>)
      requires vm.State().Running()
      modifies this, vm, vm.numbers
      ensures ended.Some? ==>
        vm.State() == old(vm.State()) && Day09.Advance(old(vm.State()), old(Port()), Accept, Produce) == Day09.Ended(ended.value, Port())
      ensures ended.None? ==> Day09.Advance(old(vm.State()), old(Port()), Accept, Produce) == Day09.Next(vm.State(), Port())
    {
      var e := vm.ProcessInstruction();
      ended := None;
      match e {
        case Continued =>
        case Trapped(t) =>
          ended := Some(Raised(t));
        case Produced(v) =>
          ProduceLong(v);
        case AwaitingInput(target) =>
          var value := AcceptLong();
          var fed := vm.StoreInput(target, value);
          if fed.Trapped? {
            ended := Some(Raised(fed.trap));
          }
      }
    }
  }

  /**
   * Sets `halted` on the machine of every computer in `computers`; each machine's memory,
   * pointer, relative base and `failed` flag, and every computer's hook state, stay as they were.
   */
  method HaltComputers(computers: seq<Computer>)
    modifies set c | c in computers :: c.vm
    ensures forall c :: c in computers ==> c.vm.State() == old(c.vm.State()).(halted := true)
    ensures forall c :: c in computers ==> c.Port() == old(c.Port())
  {
    for i := 0 to |computers|
      invariant forall k :: 0 <= k < i ==> computers[k].vm.halted
      invariant forall c :: c in computers ==> c.vm.State() == old(c.vm.State()).(halted := c.vm.halted)
    {
      computers[i].vm.halted := true;
    }
  }

  /** `Part01`: the consumer of part 1 over the computers, by address. */
  class Part01 {
    const computers: seq<Computer>
    /** The y values printed. */
    var printed: seq<int>

    constructor (computers: seq<Computer>)
      ensures this.computers == computers && printed == []
    {
      this.computers := computers;
      printed := [];
    }

    /** `accept`: see `Route01`. */
    method Accept(p: Packet)
      modifies this, set c | c in computers :: c.vm, set c | c in computers
      ensures p.target == NAT_ADDRESS ==>
        && printed == old(printed) + [p.y]
        && forall c :: c in computers ==> c.vm.State() == old(c.vm.State()).(halted := true) && c.Port() == old(c.Port())
      ensures p.target != NAT_ADDRESS ==> printed == old(printed)
      ensures p.target != NAT_ADDRESS && 0 <= p.target < |computers| ==>
        && computers[p.target].Port() == old(computers[p.target].Port()).(inputQueue := old(computers[p.target].inputQueue) + [p])
        && computers[p.target].vm.State() == old(computers[p.target].vm.State())
      ensures p.target != NAT_ADDRESS ==>
        forall c :: c in computers && (p.target < 0 || p.target >= |computers| || c != computers[p.target]) ==>
          c.Port() == old(c.Port()) && c.vm.State() == old(c.vm.State())
    {
      if p.target == NAT_ADDRESS {
        printed := printed + [p.y];
        HaltComputers(computers);
        return;
      }
      if 0 <= p.target < |computers| {
        computers[p.target].Offer(p);
      }
    }
  }

  /** `Part02`: the consumer of part 2 and the NAT. */
  class Part02 {
    const computers: seq<Computer>
    var natPacket: Option<Packet>
    var shouldRun: bool
    var lastY: int
    /** The y values printed. */
    var printed: seq<int>

    constructor (computers: seq<Computer>)
      ensures this.computers == computers && natPacket == None && shouldRun && lastY == 0 && printed == []
    {
      this.computers := computers;
      natPacket, shouldRun, lastY, printed := None, true, 0, [];
    }

    /** `accept`: see `Route02`. */
    method Accept(p: Packet)
      modifies this, set c | c in computers
      ensures p.target == NAT_ADDRESS ==>
        natPacket == Some(p) && forall c :: c in computers ==> c.Port() == old(c.Port())
      ensures p.target != NAT_ADDRESS ==> natPacket == old(natPacket)
      ensures p.target != NAT_ADDRESS && 0 <= p.target < |computers| ==>
        computers[p.target].Port() == old(computers[p.target].Port()).(inputQueue := old(computers[p.target].inputQueue) + [p])
      ensures p.target != NAT_ADDRESS ==>
        forall c :: c in computers && (p.target < 0 || p.target >= |computers| || c != computers[p.target]) ==>
          c.Port() == old(c.Port())
      ensures forall c :: c in computers ==> c.vm.State() == old(c.vm.State())
      ensures shouldRun == old(shouldRun) && lastY == old(lastY) && printed == old(printed)
    {
      if p.target == NAT_ADDRESS {
        natPacket := Some(p);
        return;
      }
      if 0 <= p.target < |computers| {
        computers[p.target].Offer(p);
      }
    }

    /**
     * One turn of `run`'s loop (the sleep left out): count the idle computers; when all are
     * idle and a packet is held, stop on a repeated y, and send the packet to computer 0.
     */
    method Look()
      requires |computers| > 0
      modifies this, set c | c in computers :: c.vm, computers[0]
      ensures var idle := forall k :: 0 <= k < |computers| ==> Idle(old(computers[k].Port()));
        if !idle || old(natPacket).None? then
          && shouldRun == old(shouldRun) && lastY == old(lastY) && printed == old(printed)
          && computers[0].inputQueue == old(computers[0].inputQueue)
          && forall c :: c in computers ==> c.vm.State() == old(c.vm.State())
        else
          && lastY == old(natPacket).value.y
          && computers[0].inputQueue == old(computers[0].inputQueue) + [old(natPacket).value]
          && (old(lastY) == old(natPacket).value.y ==>
                && !shouldRun && printed == old(printed) + [old(natPacket).value.y]
                && forall c :: c in computers ==> c.vm.State() == old(c.vm.State()).(halted := true))
          && (old(lastY) != old(natPacket).value.y ==>
                && shouldRun == old(shouldRun) && printed == old(printed)
                && forall c :: c in computers ==> c.vm.State() == old(c.vm.State()))
      ensures natPacket == old(natPacket)
      ensures computers[0].Port() == old(computers[0].Port()).(inputQueue := computers[0].inputQueue)
      ensures forall c :: c in computers && c != computers[0] ==> c.Port() == old(c.Port())
    {
      var polling := 0;
      for i := 0 to |computers|
        invariant polling <= i
        invariant polling == i <==> forall k :: 0 <= k < i ==> Idle(computers[k].Port())
      {
        if computers[i].inputQueue == [] && computers[i].wasLastOperationPoll {
          polling := polling + 1;
        }
      }
      if polling != |computers| || natPacket == None {
        return;
      }
      var sent := natPacket.value;
      if lastY == sent.y {
        printed := printed + [sent.y];
        shouldRun := false;
        HaltComputers(computers);
      }
      lastY := sent.y;
      computers[0].Offer(sent);
    }
  }
}
