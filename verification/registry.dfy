/** The signalling side's registry of live peer connections, `pcs`: every
    `POST /offer` adds a new connection; a connection whose state becomes
    failed, closed or disconnected is closed and dropped; server shutdown
    closes every registered connection and empties the registry.  The
    connections themselves (ICE, DTLS, media) are not modelled: a connection
    is its state and whether `close()` has been called on it. */
module Signaling {

  /** `RTCPeerConnection.connectionState`. */
  datatype ConnectionState = New | Connecting | Connected | Disconnected | Failed | Closed

  /** `pc.connectionState in ["failed", "closed", "disconnected"]`. */
  predicate Ends(s: ConnectionState) {
    s == Failed || s == Closed || s == Disconnected
  }

  class PeerConnection {
    var state: ConnectionState
    var closed: bool

    /** `RTCPeerConnection()`: a new, open connection. */
    constructor ()
      ensures state == New && !closed
    {
      state := New;
      closed := false;
    }

    /** The transport moving the connection to a new state. */
    method SetState(s: ConnectionState)
      modifies this
      ensures state == s && closed == old(closed)
    {
      state := s;
    }

    /** `await pc.close()`. */
    method Close()
      modifies this
      ensures closed && state == old(state)
    {
      closed := true;
    }
  }

  class Registry {
    /** `pcs = set()`. */
    var pcs: set<PeerConnection>

    /** Every registered connection is still open. */
    ghost predicate Valid()
      reads this, pcs
    {
      forall p :: p in pcs ==> !p.closed
    }

    constructor ()
      ensures pcs == {} && Valid()
    {
      pcs := {};
    }

    /** `POST /offer`: a new connection is created and registered. */
    method Offer() returns (pc: PeerConnection)
      requires Valid()
      modifies this
      ensures fresh(pc) && pc.state == New && !pc.closed
      ensures pcs == old(pcs) + {pc}
      ensures Valid()
    {
      pc := new PeerConnection();
      pcs := pcs + {pc};
    }

    /** The `connectionstatechange` handler of pc: a connection that failed,
        closed or disconnected is closed and discarded (discarding one that
        is no longer registered is harmless); in any other state nothing
        happens. */
    method OnConnectionStateChange(pc: PeerConnection)
      requires Valid()
      modifies this, pc
      ensures Ends(old(pc.state)) ==> pc.closed && pcs == old(pcs) - {pc}
      ensures !Ends(old(pc.state)) ==> pcs == old(pcs) && pc.closed == old(pc.closed)
      ensures pc.state == old(pc.state)
      ensures Valid()
    {
      if Ends(pc.state) {
        pc.Close();
        pcs := pcs - {pc};
      }
    }

    /** `on_shutdown`: close every registered connection, then clear the set. */
    method Shutdown()
      modifies this, pcs
      ensures pcs == {}
      ensures forall p :: p in old(pcs) ==> p.closed && p.state == old(p.state)
      ensures Valid()
    {
      var rest := pcs;
      while rest != {}
        invariant rest <= pcs && pcs == old(pcs)
        invariant forall p :: p in pcs && p !in rest ==> p.closed
        invariant forall p :: p in pcs ==> p.state == old(p.state)
        decreases rest
      {
        var p :| p in rest;
        p.Close();
        rest := rest - {p};
      }
      pcs := {};
    }
  }
}
