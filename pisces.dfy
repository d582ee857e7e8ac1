/**
 * The per-packet state of the pisces flow-level network model
 * (sstmac/hardware/pisces/pisces.h): the virtual channel a packet travels
 * on, the bandwidth it is limited to, its arrival time and input port, the
 * credits routers return upstream, and the congestion delay a statistics
 * packet accumulates.
 *
 * Bandwidths are `real`: the code only compares them and takes minima.
 */
module Pisces {

  /** `routing::uninitialized`, the route's "no virtual channel chosen yet" value (its definition is not part of this model). */
  const UNINITIALIZED_VC: int := -123

  /** `pisces_payload::uninitialized_bw`, the "no bandwidth set yet" value (its definition is not part of this model). */
  const UNINITIALIZED_BW: real := -1.0

  /** The virtual channel `update_vc` adopts for a route whose channel is `nextVc`: channel 0 when the route has none. */
  function UpdatedVc(nextVc: int): (vc: int)
    ensures vc != UNINITIALIZED_VC
    ensures nextVc == UNINITIALIZED_VC ==> vc == 0
    ensures nextVc != UNINITIALIZED_VC ==> vc == nextVc
  {
    if nextVc == UNINITIALIZED_VC then 0 else nextVc
  }

  /** The bandwidth after `init_bw(bw)`: `bw` if none was set yet, otherwise unchanged. */
  function InitBw(current: real, bw: real): (r: real)
    ensures current == UNINITIALIZED_BW ==> r == bw
    ensures current != UNINITIALIZED_BW ==> r == current
  {
    if current == UNINITIALIZED_BW then bw else current
  }

  /** The bandwidth after `set_max_bw(bw)`: initialised to `bw` if unset, then capped at `bw`. */
  function CappedBw(current: real, bw: real): (r: real)
    ensures r <= bw
    ensures current == UNINITIALIZED_BW ==> r == bw
    ensures current != UNINITIALIZED_BW ==> r <= current && (r == current || r == bw)
  {
    var b := InitBw(current, bw);
    if b <= bw then b else bw
  }

  /** Only the first initialisation takes effect. */
  lemma InitBwOnce(current: real, first: real, second: real)
    requires first != UNINITIALIZED_BW
    ensures InitBw(InitBw(current, first), second) == InitBw(current, first)
  {
  }

  /** Capping twice at the same bandwidth caps once. */
  lemma CappedBwIdempotent(current: real, bw: real)
    ensures CappedBw(CappedBw(current, bw), bw) == CappedBw(current, bw)
  {
    var r := CappedBw(current, bw);
    if r == UNINITIALIZED_BW {
      assert r == bw;
    }
  }

  /** Successive caps compose into one cap at the smaller bandwidth, in either order. */
  lemma CappedBwCompose(current: real, bw1: real, bw2: real)
    requires bw1 != UNINITIALIZED_BW && bw2 != UNINITIALIZED_BW
    ensures CappedBw(CappedBw(current, bw1), bw2) == CappedBw(current, if bw1 <= bw2 then bw1 else bw2)
    ensures CappedBw(CappedBw(current, bw1), bw2) == CappedBw(CappedBw(current, bw2), bw1)
  {
    var r1 := CappedBw(current, bw1);
    if current == UNINITIALIZED_BW {
      assert r1 == bw1;
    }
  }

  /** A packet: the fields of `pisces_payload` together with the route of `pisces_routable_packet`. */
  class PiscesPacket {
    const numBytes: int      // num_bytes_
    const isTail: bool
    const toaddr: int        // routable::toaddr()
    const fromaddr: int      // routable::fromaddr()
    var routePort: int       // routable::port(), the output port the router chose
    var routeVc: int         // routable::vc(), the virtual channel the router chose
    var inport: int          // inport_
    var bw: real             // bw_
    var maxInBw: real        // max_in_bw_
    var arrival: int         // arrival_, in ticks
    var vc: int              // vc_

    /**
     * The payload and route constructors (their bodies are not part of this
     * model): the bandwidth starts at `initialBw` and the route at
     * `routePort`/`routeVc`.
     */
    constructor (numBytes: int, isTail: bool, toaddr: int, fromaddr: int, routePort: int, routeVc: int, initialBw: real)
      ensures this.numBytes == numBytes && this.isTail == isTail && this.toaddr == toaddr && this.fromaddr == fromaddr
      ensures this.routePort == routePort && this.routeVc == routeVc && bw == initialBw
    {
      this.numBytes := numBytes;
      this.isTail := isTail;
      this.toaddr := toaddr;
      this.fromaddr := fromaddr;
      this.routePort := routePort;
      this.routeVc := routeVc;
      bw := initialBw;
    }

    /** `vc()`: the virtual channel the packet currently travels on. */
    function Vc(): (v: int)
      reads this
      ensures v == vc
    {
      vc
    }

    /** `bw()`: the bandwidth the packet currently travels at. */
    function Bw(): (v: real)
      reads this
      ensures v == bw
    {
      bw
    }

    /** `max_incoming_bw()`: the bandwidth cap recorded for the packet. */
    function MaxIncomingBw(): (v: real)
      reads this
      ensures v == maxInBw
    {
      maxInBw
    }

    /** `arrival()`: the recorded arrival time. */
    function Arrival(): (v: int)
      reads this
      ensures v == arrival
    {
      arrival
    }

    /** `inport()`: the port the packet arrived on. */
    function Inport(): (v: int)
      reads this
      ensures v == inport
    {
      inport
    }

    /** `next_port()` of a routable packet: the port its route chose. */
    function NextPort(): (port: int)
      reads this
      ensures port == routePort
    {
      routePort
    }

    /** `next_vc()` of a routable packet: the virtual channel its route chose. */
    function NextVc(): (nextVc: int)
      reads this
      ensures nextVc == routeVc
    {
      routeVc
    }

    /** `update_vc()`: adopt the route's virtual channel, channel 0 if the route has none. */
    method UpdateVc()
      modifies this`vc
      ensures Vc() == UpdatedVc(NextVc())
      ensures Vc() != UNINITIALIZED_VC
    {
      var newVc := NextVc();
      if newVc == UNINITIALIZED_VC {
        vc := 0;
      } else {
        vc := newVc;
      }
    }

    method SetArrival(time: int)
      modifies this`arrival
      ensures Arrival() == time
    {
      arrival := time;
    }

    /** `init_bw(bw)`: set the bandwidth only if none is set yet. */
    method InitBandwidth(newBw: real)
      modifies this`bw
      ensures Bw() == InitBw(old(bw), newBw)
      ensures old(bw) != UNINITIALIZED_BW ==> Bw() == old(bw)
    {
      bw := if bw == UNINITIALIZED_BW then newBw else bw;
    }

    /** `set_max_bw(bw)`: initialise the bandwidth if unset, then lower it to at most `bw`. */
    method SetMaxBw(newBw: real)
      modifies this`bw
      ensures Bw() == CappedBw(old(bw), newBw)
      ensures Bw() <= newBw
      ensures old(bw) != UNINITIALIZED_BW ==> Bw() <= old(bw)
    {
      InitBandwidth(newBw);
      bw := if bw <= newBw then bw else newBw;
    }

    method SetBw(newBw: real)
      modifies this`bw
      ensures Bw() == newBw
    {
      bw := newBw;
    }

    method SetMaxIncomingBw(newBw: real)
      modifies this`maxInBw
      ensures MaxIncomingBw() == newBw
    {
      maxInBw := newBw;
    }

    method SetInport(port: int)
      modifies this`inport
      ensures Inport() == port
    {
      inport := port;
    }
  }

  /** `pisces_delay_stats_packet`: a packet that accumulates the congestion delay it meets. */
  class DelayStatsPacket {
    const flowId: nat                // flow_id_ of pisces_default_packet
    var congestionDelay: real        // congestion_delay_, in seconds

    constructor (flowId: nat)
      ensures this.flowId == flowId && CongestionDelay() == 0.0
    {
      this.flowId := flowId;
      congestionDelay := 0.0;
    }

    /** `congestion_delay()`: the delay accumulated so far. */
    function CongestionDelay(): (v: real)
      reads this
      ensures v == congestionDelay
    {
      congestionDelay
    }

    /** `accumulate_delay(sec)`. */
    method AccumulateDelay(sec: real)
      modifies this`congestionDelay
      ensures CongestionDelay() == old(CongestionDelay()) + sec
    {
      congestionDelay := congestionDelay + sec;
    }
  }

  /** `pisces_credit`: credits returned upstream for one port and virtual channel. */
  class PiscesCredit {
    const port: int
    const vc: int
    const numCredits: int

    constructor (port: int, vc: int, numCredits: int)
      ensures Port() == port && Vc() == vc && NumCredits() == numCredits
    {
      this.port := port;
      this.numCredits := numCredits;
      this.vc := vc;
    }

    /** `port()`: the port the credits are for. */
    function Port(): (v: int)
      ensures v == port
    {
      port
    }

    /** `vc()`: the virtual channel the credits are for. */
    function Vc(): (v: int)
      ensures v == vc
    {
      vc
    }

    /** `num_credits()`: the number of credits returned. */
    function NumCredits(): (v: int)
      ensures v == numCredits
    {
      numCredits
    }
  }
}
