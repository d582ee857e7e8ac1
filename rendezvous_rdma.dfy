/**
 * The receive side bookkeeping of the rendezvous-get MPI protocol
 * (sumi-mpi/mpi_protocol/rendezvous_rdma.cc). The sender posts a header; a
 * receiver that has a matching request records it, keyed by the message's
 * unique id, in the queue's table of receives waiting for their payload and
 * pulls the data by RDMA; when the payload lands, the entry is taken out of
 * the table and the receive is finalized.
 *
 * The queue's collaborators (posting headers and RDMA transfers, finalizing
 * receives, acks, probe notification, charging compute time) are not part of
 * this model: each call is recorded, in order, as an `Action` in the queue's log.
 */
module RendezvousRdma {
  import opened Common

  /** `mpi_message::unique_int()`. */
  type MsgId = nat

  /** The content types the protocol assigns; the others of `mpi_message` are folded into `OtherContent`. */
  datatype ContentType = Header | Data | OtherContent

  /** A message as the protocol sees it: a shared object whose fields it rewrites. */
  class MpiMessage {
    const uniqueId: MsgId
    var contentType: ContentType
    var needsSendAck: bool
    var localBuffer: Ptr    // local_buffer().ptr
    var remoteBuffer: Ptr   // remote_buffer().ptr

    constructor (uniqueId: MsgId, contentType: ContentType, needsSendAck: bool, localBuffer: Ptr, remoteBuffer: Ptr)
      ensures this.uniqueId == uniqueId && this.contentType == contentType && this.needsSendAck == needsSendAck
      ensures this.localBuffer == localBuffer && this.remoteBuffer == remoteBuffer
    {
      this.uniqueId := uniqueId;
      this.contentType := contentType;
      this.needsSendAck := needsSendAck;
      this.localBuffer := localBuffer;
      this.remoteBuffer := remoteBuffer;
    }
  }

  /** A posted receive (`mpi_queue_recv_request`), of which the protocol only reads the user buffer. */
  class RecvRequest {
    const buffer: Ptr

    constructor (buffer: Ptr)
      ensures this.buffer == buffer
    {
      this.buffer := buffer;
    }
  }

  /** One call into the queue or its API, in the order the protocol makes them. */
  datatype Action =
    | Compute(delay: int)                                                // api()->compute(delay)
    | PostHeader(msg: MpiMessage, needsNicAck: bool)                     // post_header(msg, ack)
    | PostRdma(msg: MpiMessage, hardwareSendAck: bool, hardwareRecvAck: bool)  // post_rdma(msg, send, recv)
    | NotifyProbes(msg: MpiMessage)                                      // notify_probes(msg)
    | FinalizeRecv(msg: MpiMessage, req: RecvRequest)                    // finalize_recv(msg, req)
    | SendCompletionAck(msg: MpiMessage)                                 // send_completion_ack(msg)
    | PopPendingRequest(msg: MpiMessage)                                 // pop_pending_request(msg)

  /** The part of `mpi_queue` the protocol touches. */
  class MpiQueue {
    var recvNeedsPayload: map<MsgId, RecvRequest>   // recv_needs_payload_
    var log: seq<Action>                            // collaborator calls made so far

    constructor ()
      ensures recvNeedsPayload == map[] && log == []
    {
      recvNeedsPayload := map[];
      log := [];
    }
  }

  /** The optional parameters the protocol reads at construction. */
  datatype ProtocolParams = ProtocolParams(rdmaPinDelay: Option<int>, softwareAck: Option<bool>)

  // ---------------------------------------------------------------------
  // The waiting-receive table, as values
  // ---------------------------------------------------------------------

  /** The compute charge for pinning memory: made only when the pin delay is nonzero. */
  function PinCharge(pinDelay: int): (actions: seq<Action>)
    ensures pinDelay == 0 <==> actions == []
    ensures pinDelay != 0 ==> actions == [Compute(pinDelay)]
  {
    if pinDelay != 0 then [Compute(pinDelay)] else []
  }

  /**
   * What a payload for `id` does to the table: `None` when no receive waits
   * under `id`; otherwise the table without that entry, and the request the
   * entry held.
   */
  function TakePayload<R>(table: map<MsgId, R>, id: MsgId): (r: Option<(map<MsgId, R>, R)>)
    ensures r.Some? <==> id in table
    ensures r.Some? ==> r.value.1 == table[id]
    ensures r.Some? ==> r.value.0.Keys == table.Keys - {id}
    ensures r.Some? ==> forall k :: k in r.value.0 ==> r.value.0[k] == table[k]
  {
    if id in table then Some((table - {id}, table[id])) else None
  }

  /**
   * A matched header followed by its payload restores the table to what it
   * was before the header and hands back the request that matched it.
   */
  lemma HeaderPayloadRoundTrip<R>(table: map<MsgId, R>, id: MsgId, req: R)
    requires id !in table
    ensures TakePayload(table[id := req], id) == Some((table, req))
  {
    assert table[id := req] - {id} == table;
  }

  /** Payloads for distinct ids complete independently: taking them in either order leaves the same table. */
  lemma TakePayloadCommutes<R>(table: map<MsgId, R>, id1: MsgId, id2: MsgId)
    requires id1 in table && id2 in table && id1 != id2
    ensures TakePayload(table, id1).Some? && TakePayload(TakePayload(table, id1).value.0, id2).Some?
    ensures TakePayload(table, id2).Some? && TakePayload(TakePayload(table, id2).value.0, id1).Some?
    ensures TakePayload(TakePayload(table, id1).value.0, id2).value.0
         == TakePayload(TakePayload(table, id2).value.0, id1).value.0
  {
    assert table - {id1} - {id2} == table - {id2} - {id1};
  }

  /**
   * A second matched header for an id already waiting replaces the first
   * request: the payload then completes the newer request and the older one
   * is no longer in the table.
   */
  lemma DuplicateHeaderReplaces<R>(table: map<MsgId, R>, id: MsgId, first: R, second: R)
    ensures TakePayload(table[id := first][id := second], id).Some?
    ensures TakePayload(table[id := first][id := second], id).value.1 == second
    ensures id !in TakePayload(table[id := first][id := second], id).value.0
  {
  }

  // ---------------------------------------------------------------------
  // The protocol
  // ---------------------------------------------------------------------

  class RendezvousGet {
    const rdmaPinDelay: int     // rdma_pin_delay_, in ticks
    const softwareAck: bool     // software_ack_

    /** `rendezvous_protocol(params)`: no pin delay and software acks unless the parameters say otherwise. */
    constructor (params: ProtocolParams)
      ensures params.rdmaPinDelay.None? ==> rdmaPinDelay == 0
      ensures params.rdmaPinDelay.Some? ==> rdmaPinDelay == params.rdmaPinDelay.value
      ensures params.softwareAck.None? ==> softwareAck
      ensures params.softwareAck.Some? ==> softwareAck == params.softwareAck.value
    {
      rdmaPinDelay := if params.rdmaPinDelay.Some? then params.rdmaPinDelay.value else 0;
      softwareAck := if params.softwareAck.Some? then params.softwareAck.value else true;
    }

    /**
     * `configure_send_buffer(queue, msg, buffer)`: charge the pin delay, and
     * point the message's remote buffer at `buffer` unless it is null.
     */
    method ConfigureSendBuffer(queue: MpiQueue, msg: MpiMessage, buffer: Ptr)
      modifies queue`log, msg`remoteBuffer
      ensures queue.log == old(queue.log) + PinCharge(rdmaPinDelay)
      ensures buffer.Null? ==> msg.remoteBuffer == old(msg.remoteBuffer)
      ensures buffer.Addr? ==> msg.remoteBuffer == buffer
    {
      if rdmaPinDelay != 0 {
        queue.log := queue.log + [Compute(rdmaPinDelay)];
      }
      if buffer.Addr? {
        msg.remoteBuffer := buffer;
      }
    }

    /** `send_header(queue, msg)`: mark the message a header and post it without a NIC ack. */
    method SendHeader(queue: MpiQueue, msg: MpiMessage)
      modifies queue`log, msg`contentType
      ensures msg.contentType == Header
      ensures queue.log == old(queue.log) + [PostHeader(msg, false)]
    {
      msg.contentType := Header;
      queue.log := queue.log + [PostHeader(msg, false)];
    }

    /**
     * `incoming_header(queue, msg)`: ask the queue for the posted receive the
     * header matches, then handle the header with it. The queue's matching
     * (`pop_pending_request`) is not part of this model: `matched` is its answer.
     */
    method IncomingHeader(queue: MpiQueue, msg: MpiMessage, matched: RecvRequest?)
      modifies queue, msg
      ensures matched != null ==> msg.contentType == Data && !msg.needsSendAck && msg.localBuffer == matched.buffer
      ensures matched != null ==> msg.remoteBuffer == old(msg.remoteBuffer)
      ensures matched == null ==> unchanged(msg)
      ensures matched != null ==> queue.recvNeedsPayload == old(queue.recvNeedsPayload)[msg.uniqueId := matched]
      ensures matched == null ==> queue.recvNeedsPayload == old(queue.recvNeedsPayload)
      ensures matched != null ==>
        queue.log == old(queue.log) + [PopPendingRequest(msg), PostRdma(msg, !softwareAck, true), NotifyProbes(msg)]
      ensures matched == null ==> queue.log == old(queue.log) + [PopPendingRequest(msg), NotifyProbes(msg)]
    {
      queue.log := queue.log + [PopPendingRequest(msg)];
      IncomingHeaderWithRequest(queue, msg, matched);
    }

    /**
     * `incoming_header(queue, msg, req)`: with a matching request, turn the
     * message into the data transfer into the request's buffer, record the
     * request as waiting for this message's payload, and post the RDMA get
     * (hardware send ack only without software acks); without one, change
     * nothing. Probes are notified either way.
     */
    method IncomingHeaderWithRequest(queue: MpiQueue, msg: MpiMessage, req: RecvRequest?)
      modifies queue, msg
      ensures req != null ==> msg.contentType == Data && !msg.needsSendAck && msg.localBuffer == req.buffer
      ensures req != null ==> msg.remoteBuffer == old(msg.remoteBuffer)
      ensures req != null ==> queue.recvNeedsPayload == old(queue.recvNeedsPayload)[msg.uniqueId := req]
      ensures req != null ==> queue.log == old(queue.log) + [PostRdma(msg, !softwareAck, true), NotifyProbes(msg)]
      ensures req == null ==> unchanged(msg)
      ensures req == null ==> queue.recvNeedsPayload == old(queue.recvNeedsPayload)
      ensures req == null ==> queue.log == old(queue.log) + [NotifyProbes(msg)]
    {
      if req != null {
        msg.needsSendAck := false;
        msg.contentType := Data;
        msg.localBuffer := req.buffer;
        queue.recvNeedsPayload := queue.recvNeedsPayload[msg.uniqueId := req];
        var hardwareSendAck := !softwareAck;
        queue.log := queue.log + [PostRdma(msg, hardwareSendAck, true)];
      }
      queue.log := queue.log + [NotifyProbes(msg)];
    }

    /**
     * `incoming_payload(queue, msg)`: charge the pin delay, then take the
     * waiting receive for this message out of the table, finalize it, and
     * send a completion ack when acks are in software. A payload nobody waits
     * for is an ill-formed-message error, and nothing is finalized.
     */
    method IncomingPayload(queue: MpiQueue, msg: MpiMessage) returns (outcome: Outcome<Error>)
      modifies queue
      ensures outcome.Fail? <==> msg.uniqueId !in old(queue.recvNeedsPayload)
      ensures outcome.Fail? ==> outcome.error == IllformedError
      ensures outcome.Fail? ==> queue.recvNeedsPayload == old(queue.recvNeedsPayload)
      ensures outcome.Fail? ==> queue.log == old(queue.log) + PinCharge(rdmaPinDelay)
      ensures outcome.Pass? ==>
        TakePayload(old(queue.recvNeedsPayload), msg.uniqueId)
          == Some((queue.recvNeedsPayload, old(queue.recvNeedsPayload)[msg.uniqueId]))
      ensures outcome.Pass? ==>
        queue.log == old(queue.log) + PinCharge(rdmaPinDelay)
                     + [FinalizeRecv(msg, old(queue.recvNeedsPayload)[msg.uniqueId])]
                     + (if softwareAck then [SendCompletionAck(msg)] else [])
    {
      if rdmaPinDelay != 0 {
        queue.log := queue.log + [Compute(rdmaPinDelay)];
      }
      if msg.uniqueId !in queue.recvNeedsPayload {
        return Fail(IllformedError);
      }
      var recver := queue.recvNeedsPayload[msg.uniqueId];
      queue.recvNeedsPayload := queue.recvNeedsPayload - {msg.uniqueId};
      queue.log := queue.log + [FinalizeRecv(msg, recver)];
      if softwareAck {
        queue.log := queue.log + [SendCompletionAck(msg)];
      }
      return Pass;
    }

    /**
     * A header that matches `req` followed by the payload of the same message
     * leaves the waiting table as it found it and finalizes `req`.
     */
    method HeaderThenPayload(queue: MpiQueue, msg: MpiMessage, req: RecvRequest) returns (outcome: Outcome<Error>)
      requires msg.uniqueId !in queue.recvNeedsPayload
      modifies queue, msg
      ensures outcome == Pass
      ensures queue.recvNeedsPayload == old(queue.recvNeedsPayload)
      ensures msg.contentType == Data && msg.localBuffer == req.buffer
      ensures |queue.log| >= 1 && queue.log[|queue.log| - 1] == (if softwareAck then SendCompletionAck(msg) else FinalizeRecv(msg, req))
      ensures |queue.log| > |old(queue.log)| && FinalizeRecv(msg, req) in queue.log[|old(queue.log)|..]
    {
      ghost var table0 := queue.recvNeedsPayload;
      ghost var log0 := queue.log;
      IncomingHeaderWithRequest(queue, msg, req);
      ghost var log1 := queue.log;
      outcome := IncomingPayload(queue, msg);
      HeaderPayloadRoundTrip(table0, msg.uniqueId, req);
      ghost var tail := queue.log[|log0|..];
      assert queue.log == log1 + PinCharge(rdmaPinDelay) + [FinalizeRecv(msg, req)]
        + (if softwareAck then [SendCompletionAck(msg)] else []);
      assert log1 == log0 + [PostRdma(msg, !softwareAck, true), NotifyProbes(msg)];
      assert tail[2 + |PinCharge(rdmaPinDelay)|] == FinalizeRecv(msg, req);
    }
  }
}
