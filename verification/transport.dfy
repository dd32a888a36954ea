/**
  What the gadget calls but does not implement: the USB device
  controller's endpoint operations (enable, disable, request allocation and
  release, queueing, and the completion it reports back) and the kernel's
  buffer allocator. Each operation that can fail does so
  nondeterministically. Ghost sets record which endpoints are enabled and
  who owns which request and buffer, so that use after release and double
  release are ruled out by the preconditions.
 */
module Transport {
  import opened Ch9

  /** A hardware endpoint, with what autoconfiguration fixed for it. */
  class Endpoint {
    const address: Byte
    const maxPacket: U16

    constructor (address: Byte, maxPacket: U16)
      ensures this.address == address && this.maxPacket == maxPacket
    {
      this.address := address;
      this.maxPacket := maxPacket;
    }
  }

  /** A transfer request: buffer, requested and transferred length, status, zero-length-packet flag. */
  class Request {
    var buf: array?<Byte>
    var length: nat
    var actual: nat
    var status: int
    var zero: bool

    constructor ()
      ensures buf == null && length == 0 && actual == 0 && status == 0 && !zero
    {
      buf := null;
      length := 0;
      actual := 0;
      status := 0;
      zero := false;
    }
  }

  class Platform {
    /** Endpoints currently enabled, each with the descriptor it was enabled with. */
    ghost var enabled: map<Endpoint, EndpointDescriptor>
    /** Requests allocated and not yet freed. */
    ghost var requests: set<Request>
    /** Requests handed to the controller and not yet given back. */
    ghost var queued: set<Request>
    /** Buffers allocated and not yet freed. */
    ghost var buffers: set<array<Byte>>

    ghost predicate Valid()
      reads this
    {
      queued <= requests
    }

    constructor ()
      ensures Valid() && enabled == map[] && requests == {} && queued == {} && buffers == {}
    {
      enabled, requests, queued, buffers := map[], {}, {}, {};
    }

    /** `usb_ep_enable`: 0 with `ep` enabled as `desc` describes it, or a negative errno with nothing enabled. */
    method Enable(ep: Endpoint, desc: EndpointDescriptor) returns (status: int)
      requires Valid()
      modifies this
      ensures Valid()
      ensures -MAX_ERRNO <= status <= 0
      ensures enabled == if status == 0 then old(enabled)[ep := desc] else old(enabled)
      ensures requests == old(requests) && queued == old(queued) && buffers == old(buffers)
    {
      var ok: bool :| true;
      if ok {
        status := 0;
        enabled := enabled[ep := desc];
      } else {
        status :| -MAX_ERRNO <= status < 0;
      }
    }

    /** `usb_ep_disable`. */
    method Disable(ep: Endpoint)
      requires Valid()
      modifies this
      ensures Valid()
      ensures enabled == old(enabled) - {ep}
      ensures requests == old(requests) && queued == old(queued) && buffers == old(buffers)
    {
      enabled := enabled - {ep};
    }

    /** `usb_ep_alloc_request`: a fresh request with no buffer, or null. */
    method AllocRequest(ep: Endpoint) returns (req: Request?)
      requires Valid()
      modifies this
      ensures Valid()
      ensures req != null ==> fresh(req) && req.buf == null && requests == old(requests) + {req}
      ensures req == null ==> requests == old(requests)
      ensures enabled == old(enabled) && queued == old(queued) && buffers == old(buffers)
    {
      var ok: bool :| true;
      if ok {
        req := new Request();
        requests := requests + {req};
      } else {
        req := null;
      }
    }

    /** `usb_ep_free_request`: only a request that is allocated and not queued. */
    method FreeRequest(ep: Endpoint, req: Request)
      requires Valid()
      requires req in requests && req !in queued
      modifies this
      ensures Valid()
      ensures requests == old(requests) - {req}
      ensures enabled == old(enabled) && queued == old(queued) && buffers == old(buffers)
    {
      requests := requests - {req};
    }

    /** `kmalloc`: a fresh buffer of `length` bytes with unspecified contents, or null. */
    method Kmalloc(length: nat) returns (b: array?<Byte>)
      requires Valid()
      modifies this
      ensures Valid()
      ensures b != null ==> fresh(b) && b.Length == length && buffers == old(buffers) + {b}
      ensures b == null ==> buffers == old(buffers)
      ensures enabled == old(enabled) && requests == old(requests) && queued == old(queued)
    {
      var ok: bool :| true;
      if ok {
        b := new Byte[length];
        buffers := buffers + {b};
      } else {
        b := null;
      }
    }

    /** `kfree`: only a live buffer that no request held by the controller points at. */
    method Kfree(b: array<Byte>)
      requires Valid()
      requires b in buffers
      requires forall r :: r in queued ==> r.buf != b
      modifies this
      ensures Valid()
      ensures buffers == old(buffers) - {b}
      ensures enabled == old(enabled) && requests == old(requests) && queued == old(queued)
    {
      buffers := buffers - {b};
    }

    /** `usb_ep_queue`: 0 and the controller owns the request, or a negative errno and nothing changes. */
    method Queue(ep: Endpoint, req: Request) returns (status: int)
      requires Valid()
      requires req in requests && req !in queued
      modifies this
      ensures Valid()
      ensures -MAX_ERRNO <= status <= 0
      ensures queued == if status == 0 then old(queued) + {req} else old(queued)
      ensures enabled == old(enabled) && requests == old(requests) && buffers == old(buffers)
    {
      var ok: bool :| true;
      if ok {
        status := 0;
        queued := queued + {req};
      } else {
        status :| -MAX_ERRNO <= status < 0;
      }
    }

    /**
      The controller finishes an OUT transfer and gives the request back:
      the first bytes the host sent, at most `length`, are in the buffer,
      `actual` says how many, and `status` is the completion status.
     */
    method CompleteOut(req: Request, status: int, received: seq<Byte>)
      requires Valid()
      requires req in queued && req.buf != null && req.buf in buffers && req.length <= req.buf.Length
      requires -MAX_ERRNO <= status <= 0
      modifies this, req, req.buf
      ensures Valid()
      ensures queued == old(queued) - {req}
      ensures req.buf == old(req.buf) && req.length == old(req.length) && req.zero == old(req.zero)
      ensures req.status == status && req.actual == Min(|received|, req.length)
      ensures req.buf[..req.actual] == received[..req.actual]
      ensures var n := req.actual; req.buf[n..] == old(req.buf[n..])
      ensures enabled == old(enabled) && requests == old(requests) && buffers == old(buffers)
    {
      var n := Min(|received|, req.length);
      forall i | 0 <= i < n {
        req.buf[i] := received[i];
      }
      req.actual := n;
      req.status := status;
      queued := queued - {req};
    }

    /** The controller finishes an IN transfer of `actual` bytes and gives the request back. */
    method CompleteIn(req: Request, status: int, actual: nat)
      requires Valid()
      requires req in queued && actual <= req.length
      requires -MAX_ERRNO <= status <= 0
      modifies this, req
      ensures Valid()
      ensures queued == old(queued) - {req}
      ensures req.buf == old(req.buf) && req.length == old(req.length) && req.zero == old(req.zero)
      ensures req.status == status && req.actual == actual
      ensures enabled == old(enabled) && requests == old(requests) && buffers == old(buffers)
    {
      req.actual := actual;
      req.status := status;
      queued := queued - {req};
    }
  }
}
