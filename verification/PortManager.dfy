/**
 The port allocator shared by all connections of a client: a wrapping counter that hands out base
 ports a fixed distance apart, and one wrapping sub-counter per base.
 */
module PortManager {
  import opened Wire

  /** The distance between base ports, and the lowest port that may be handed out. */
  datatype Params = Params(reserved: Port, minPort: Port)

  /** The counter, and for every base ever handed out the next port to derive from it. */
  datatype State = State(current: Port, subs: map<Port, Port>)

  /** The port the next `assign_next` hands out when the counter stands at `current`. */
  function Hand(q: Params, current: Port): Port {
    var again := Wrap16(current + q.reserved);
    if current >= q.minPort then current
    else if again < q.minPort then q.minPort
    else again
  }

  function Assigned(q: Params, s: State): (State, Port) {
    var base := Hand(q, s.current);
    (State(Wrap16(base + q.reserved), s.subs[base := Wrap16(base + 1)]), base)
  }

  /** A port below the lowest allowed one is moved up by that amount. */
  function Adjust(q: Params, port: Port): Port {
    if port < q.minPort then Wrap16(port + q.minPort) else port
  }

  /** Derive a port from `base`, skipping `offset` ports; 0 if `base` was never handed out. */
  function AssignedFromBase(q: Params, s: State, base: Port, offset: Port): (State, Port) {
    if base !in s.subs then (s, 0)
    else
      (s.(subs := s.subs[base := Wrap16(s.subs[base] + offset + 1)]),
       Adjust(q, Wrap16(s.subs[base] + offset)))
  }

  class Manager {
    var currentPort: Port
    var portResPortMap: map<Port, Port>
    var simulatedAllocsPerSecond: Port
    var reservedPortRangePerAlloc: Port
    const minPort: Port

    function Contents(): State
      reads this
    {
      State(currentPort, portResPortMap)
    }

    function Parameters(): Params
      reads this
    {
      Params(reservedPortRangePerAlloc, minPort)
    }

    /** `rnd` is the random number that picks the first port. */
    constructor (reserved: Port, min: Port, rnd: nat)
      requires min <= 65000
      ensures Parameters() == Params(reserved, min)
      ensures min <= currentPort <= 65000 && portResPortMap == map[] && simulatedAllocsPerSecond == 0
      ensures currentPort == min + rnd % (65001 - min)
    {
      reservedPortRangePerAlloc, minPort := reserved, min;
      currentPort := min + rnd % (65001 - min);
      portResPortMap, simulatedAllocsPerSecond := map[], 0;
    }

    method SetSimulatedAllocsPerSecond(allocs: Port)
      modifies this`simulatedAllocsPerSecond
      ensures simulatedAllocsPerSecond == allocs
    {
      simulatedAllocsPerSecond := allocs;
    }

    method SetReservedPortRangePerAlloc(range: Port)
      modifies this`reservedPortRangePerAlloc
      ensures reservedPortRangePerAlloc == range
    {
      reservedPortRangePerAlloc := range;
    }

    /** `drawn` is the number of ports that simulated traffic is taken to have used up meanwhile. */
    method AssignNextFromBase(base: Port, drawn: Port) returns (port: Port)
      modifies this`portResPortMap
      ensures var offset := if simulatedAllocsPerSecond != 0 then drawn else 0;
              (Contents(), port) == AssignedFromBase(Parameters(), old(Contents()), base, offset)
      ensures base !in old(portResPortMap) ==> port == 0 && portResPortMap == old(portResPortMap)
    {
      if base !in portResPortMap {
        return 0;
      }
      var offset: int := 0;
      if simulatedAllocsPerSecond != 0 {
        offset := drawn;
      }
      var fetched: int := portResPortMap[base];
      portResPortMap := portResPortMap[base := Wrap16(fetched + (offset + 1))];
      port := Wrap16(fetched + offset);
      if port < minPort {
        port := Wrap16(port + minPort);
      }
    }

    method AssignNext() returns (port: Port)
      modifies this`currentPort, this`portResPortMap
      ensures (Contents(), port) == Assigned(Parameters(), old(Contents()))
    {
      port := currentPort;
      currentPort := Wrap16(currentPort + reservedPortRangePerAlloc);
      if port < minPort {
        if currentPort < minPort {
          currentPort := minPort;
        }
        port := currentPort;
        currentPort := Wrap16(currentPort + reservedPortRangePerAlloc);
      }
      portResPortMap := portResPortMap[port := Wrap16(port + 1)];
    }
  }
}
