/** From static memory to a bus that serves: the table and the arena are taken, the requests
  * of the USB classes allocate endpoints, and the driver starts on them. */
module PowerUp {
  import opened Types
  import opened Memory
  import opened Buffers
  import opened Device
  import opened EndpointTable
  import opened BusAllocation
  import opened Usb
  import opened EndpointDriver
  import opened CallEffects
  import opened DriverModel
  import opened BusModel

  /** Endpoints for the allocated slots, each over the shared peripheral. */
  method Endpoints(usb: Peripheral) returns (eps: seq<Endpoint?>)
    requires usb.Valid()
    ensures |eps| == MAX_ENDPOINTS
    ensures forall i :: 0 <= i < MAX_ENDPOINTS ==>
              (eps[i] != null <==> Allocated(usb.c, i)) && (eps[i] != null ==> eps[i].usb == usb && eps[i].slot == i)
  {
    eps := [];
    for k := 0 to MAX_ENDPOINTS
      invariant |eps| == k
      invariant forall i :: 0 <= i < k ==>
                  (eps[i] != null <==> Allocated(usb.c, i)) && (eps[i] != null ==> eps[i].usb == usb && eps[i].slot == i)
    {
      if Allocated(usb.c, k) {
        var ep := new Endpoint(usb, k);
        eps := eps + [ep];
      } else {
        eps := eps + [null];
      }
    }
  }

  /** A bus over a configuration: every endpoint is the driver's, and nothing has happened. */
  method Start(c: Config, mem: Mem, script: seq<seq<Act>>) returns (bus: Bus)
    requires GoodConfig(c)
    ensures bus.Valid() && fresh(bus) && fresh(bus.usb) && fresh(bus.usb.usb)
    ensures bus.usb.usb.c == c && bus.S() == Initial(c, mem) && bus.usb.usb.run == []
    ensures DataOutQuiet(c, bus.S())
  {
    var usb := new Peripheral(c, mem, script);
    var eps := Endpoints(usb);
    var driver := new Driver(usb, eps);
    bus := new Bus(driver);
  }

  /** A driver is made of an arena and a table that nobody has taken before; the source panics
    * on either. Whatever the classes then ask for, the bus starts on the endpoints that they
    * were given, unless a request panics, which none does that USB allows for and a table of
    * sixteen slots has room for. */
  method Create(memory: EndpointMemory, state: EndpointState, requests: seq<Request>, tdBase: nat, mem: Mem, script: seq<seq<Act>>)
    returns (bus: Bus?, replies: seq<Allocation>)
    requires state.Valid() && state.alloc_mask <= {ALLOCATOR_TAKEN}
    requires memory.base + memory.bytes.Length < WORD_SIZE && tdBase % 32 == 0 && tdBase + 32 * MAX_ENDPOINTS <= WORD_SIZE
    modifies memory`taken, state
    ensures bus == null <==> old(memory.taken) || ALLOCATOR_TAKEN in old(state.alloc_mask) || exists r <- replies :: r.Panicked?
    ensures forall k :: 0 <= k < |replies| && replies[k].Given? ==>
              k < |requests| && Honoured(requests[k], replies[k].addr, state.slots)
    ensures bus != null ==>
              && fresh(bus) && bus.Valid() && bus.usb.usb.run == [] && DataOutQuiet(bus.usb.usb.c, bus.S())
              && bus.S() == Initial(bus.usb.usb.c, mem) && state.Valid() && bus.usb.usb.c == ConfigOf(state.slots, tdBase)
              && |replies| == |requests|
    ensures !old(memory.taken) && ALLOCATOR_TAKEN !in old(state.alloc_mask) && |state.slots| >= MAX_ENDPOINTS && AllUsb(requests)
            ==> bus != null
  {
    bus, replies := null, [];
    var won := state.TakeAllocator();
    if !won {
      return;
    }
    var arena := memory.TakeAllocator();
    if arena == None {
      return;
    }
    var allocating := new AllocatingBus(state, arena.value);
    replies := allocating.Serve(requests, tdBase);
    if |replies| == |requests| && forall r <- replies :: !r.Panicked? {
      bus := Start(ConfigOf(state.slots, tdBase), mem, script);
    }
  }
}
