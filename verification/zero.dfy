/**
  Gadget Zero's runtime: the bulk receive request lifecycle (allocate,
  zero-fill and queue, free), and the device object whose fields the control
  path and the completion handler update: the sink endpoint handle, the
  ep0 reply request, and the single 128-byte received-data slot.
 */
module Zero {
  import opened Ch9
  import opened GadgetLib
  import opened ZeroDescriptors
  import opened Control
  import opened Transport

  /** Length of every bulk receive request, and the size of the data slot. */
  const REQ_LEN := 128

  /** `free_ep_req`: release the buffer, then the request. */
  method FreeEpReq(platform: Platform, ep: Endpoint, req: Request)
    requires platform.Valid()
    requires req in platform.requests && req !in platform.queued
    requires req.buf != null && req.buf in platform.buffers
    requires forall q :: q in platform.queued ==> q.buf != req.buf
    modifies platform
    ensures platform.Valid()
    ensures platform.requests == old(platform.requests) - {req}
    ensures platform.buffers == old(platform.buffers) - {req.buf}
    ensures platform.queued == old(platform.queued) && platform.enabled == old(platform.enabled)
  {
    platform.Kfree(req.buf);
    platform.FreeRequest(ep, req);
  }

  /**
    `alloc_ep_req`: a fresh request of `length` with a fresh buffer of that
    size, or null with nothing left allocated (a request whose buffer could
    not be allocated is released again).
   */
  method AllocEpReq(platform: Platform, ep: Endpoint, length: nat) returns (req: Request?)
    requires platform.Valid()
    modifies platform
    ensures platform.Valid()
    ensures req == null ==>
      platform.requests == old(platform.requests) && platform.buffers == old(platform.buffers)
    ensures req != null ==>
      && fresh(req) && req.buf != null && fresh(req.buf)
      && req.length == length && req.buf.Length == length
      && platform.requests == old(platform.requests) + {req}
      && platform.buffers == old(platform.buffers) + {req.buf}
    ensures platform.queued == old(platform.queued) && platform.enabled == old(platform.enabled)
  {
    req := platform.AllocRequest(ep);
    if req != null {
      req.length := length;
      var b := platform.Kmalloc(length);
      req.buf := b;
      if b == null {
        platform.FreeRequest(ep, req);
        req := null;
      }
    }
  }

  /**
    `source_sink_start_ep`: allocate a 128-byte request, zero its buffer and
    queue it; if queueing fails the request is freed and null returned, so
    either a fresh zeroed request is now owned by the controller or nothing
    changed.
   */
  method StartEp(platform: Platform, ep: Endpoint) returns (req: Request?)
    requires platform.Valid()
    modifies platform
    ensures platform.Valid()
    ensures platform.enabled == old(platform.enabled)
    ensures req == null ==>
      && platform.requests == old(platform.requests)
      && platform.buffers == old(platform.buffers)
      && platform.queued == old(platform.queued)
    ensures req != null ==>
      && fresh(req) && req.buf != null && fresh(req.buf)
      && req.length == REQ_LEN && req.buf.Length == REQ_LEN
      && (forall i :: 0 <= i < REQ_LEN ==> req.buf[i] == 0)
      && platform.requests == old(platform.requests) + {req}
      && platform.buffers == old(platform.buffers) + {req.buf}
      && platform.queued == old(platform.queued) + {req}
  {
    req := AllocEpReq(platform, ep, REQ_LEN);
    if req == null {
      return;
    }
    forall i | 0 <= i < req.length {
      req.buf[i] := 0;
    }
    var status := platform.Queue(ep, req);
    if status != 0 {
      FreeEpReq(platform, ep, req);
      req := null;
    }
  }

  class ZeroDev {
    const platform: Platform
    const ep0: Endpoint
    /** The ep0 request used for every control reply, with its USB_BUFSIZ buffer. */
    const req: Request
    /** The sink endpoint; null once an enable has failed. */
    var outEp: Endpoint?
    /** The single received-data slot and how many of its bytes are valid. */
    const data: array<Byte>
    var dataSize: nat
    /** How many times the reader has been woken. */
    ghost var wakeups: nat
    const device: DeviceDescriptor
    const sinkDesc: EndpointDescriptor
    const strings: GadgetStrings

    /**
      Between operations the ep0 request is the only one the controller may
      hold; the data slot is the device's own memory, apart from every
      request buffer.
     */
    ghost predicate Valid()
      reads this, platform, req
    {
      && platform.Valid()
      && data.Length == REQ_LEN && dataSize <= REQ_LEN
      && req.buf != null && req.buf.Length == USB_BUFSIZ && req.buf != data
      && req.buf in platform.buffers
      && req in platform.requests
      && platform.queued <= {req}
      && data !in platform.buffers
    }

    /**
      The state after a successful bind: the device descriptor carries ep0's
      packet size and the controller's bcdDevice, the sink endpoint is the
      one autoconfiguration chose, and the data slot is zeroed and empty.
     */
    constructor (platform: Platform, ep0: Endpoint, sink: Endpoint, req: Request, gcnum: int, manufacturer: AsciiText)
      requires platform.Valid() && platform.queued == {}
      requires req in platform.requests && req.buf != null && req.buf.Length == USB_BUFSIZ
      requires req.buf in platform.buffers
      requires |manufacturer| < MANUFACTURER_SIZE
      ensures Valid()
      ensures this.platform == platform && this.ep0 == ep0 && this.req == req
      ensures outEp == sink && fresh(data) && dataSize == 0 && wakeups == 0
      ensures forall i :: 0 <= i < REQ_LEN ==> data[i] == 0
      ensures device == DeviceDesc(ep0.maxPacket, gcnum)
      ensures sinkDesc == SinkDesc(sink.address, sink.maxPacket)
      ensures strings == StringTab(manufacturer)
    {
      this.platform := platform;
      this.ep0 := ep0;
      this.req := req;
      outEp := sink;
      data := new Byte[REQ_LEN](_ => 0);
      dataSize := 0;
      wakeups := 0;
      device := DeviceDesc(ep0.maxPacket, gcnum);
      sinkDesc := SinkDesc(sink.address, sink.maxPacket);
      strings := StringTab(manufacturer);
    }

    // -------------------------------------------------------------------
    // Configuration

    /** `set_loopback_config`: enable the sink endpoint with the sink descriptor. */
    method SetLoopbackConfig() returns (result: int)
      requires Valid() && outEp != null
      modifies platform
      ensures Valid()
      ensures -MAX_ERRNO <= result <= 0
      ensures platform.enabled == if result == 0 then old(platform.enabled)[outEp := sinkDesc] else old(platform.enabled)
      ensures platform.requests == old(platform.requests) && platform.queued == old(platform.queued)
      ensures platform.buffers == old(platform.buffers)
    {
      result := platform.Enable(outEp, sinkDesc);
    }

    /** `zero_reset_config`: disable the sink endpoint and forget it. */
    method ResetConfig()
      requires Valid() && outEp != null
      modifies this`outEp, platform
      ensures Valid()
      ensures outEp == null
      ensures platform.enabled == old(platform.enabled) - {old(outEp)}
      ensures platform.requests == old(platform.requests) && platform.queued == old(platform.queued)
      ensures platform.buffers == old(platform.buffers)
    {
      platform.Disable(outEp);
      outEp := null;
    }

    /**
      `zero_set_config`: the configuration number is not looked at; the sink
      endpoint is enabled, and if that fails it is disabled and forgotten and
      the failure returned.
     */
    method SetConfig(number: U16) returns (result: int)
      requires Valid() && outEp != null
      modifies this`outEp, platform
      ensures Valid()
      ensures -MAX_ERRNO <= result <= 0
      ensures result == 0 ==> outEp == old(outEp) && platform.enabled == old(platform.enabled)[outEp := sinkDesc]
      ensures result < 0 ==> outEp == null && platform.enabled == old(platform.enabled) - {old(outEp)}
      ensures platform.requests == old(platform.requests) && platform.queued == old(platform.queued)
      ensures platform.buffers == old(platform.buffers)
    {
      result := SetLoopbackConfig();
      if result != 0 {
        ResetConfig();
      }
    }

    // -------------------------------------------------------------------
    // Control requests

    /**
      `zero_setup`: clear the zero flag, act on Dispatch's decision, and
      for a non-negative result set the reply length and the zero flag
      (length < wLength) and queue the reply on ep0, returning the queue
      status; a stall returns its error with nothing queued.
     */
    method Setup(ctrl: SetupPacket) returns (value: int)
      requires Valid()
      requires req !in platform.queued
      requires IsSetConfiguration(ctrl) ==> outEp != null
      modifies this`outEp, req, req.buf, platform
      ensures Valid()
      ensures value <= 0
      ensures value == 0 ==> platform.queued == old(platform.queued) + {req}
      ensures value < 0 ==> platform.queued == old(platform.queued)
      ensures req.zero ==> req.length < ctrl.wLength
      ensures req.buf == old(req.buf) && req.actual == old(req.actual)
      ensures value == 0 || Dispatch(ctrl, device, sinkDesc, strings).Stall? ==> req.status == old(req.status)
      ensures platform.requests == old(platform.requests) && platform.buffers == old(platform.buffers)
      ensures var a := Dispatch(ctrl, device, sinkDesc, strings);
        match a
        case Stall(e) =>
          && value == e && !req.zero && req.length == old(req.length)
          && req.buf[..] == old(req.buf[..])
          && outEp == old(outEp) && platform.enabled == old(platform.enabled)
        case Reply(written, v) =>
          && req.buf[..|written|] == written && req.buf[|written|..] == old(req.buf[|written|..])
          && req.length == v && req.zero == (v < ctrl.wLength)
          && (value < 0 ==> req.status == 0)
          && outEp == old(outEp) && platform.enabled == old(platform.enabled)
        case Configure(_) =>
          && req.buf[..] == old(req.buf[..])
          && if outEp == null then
               && value < 0 && !req.zero && req.length == old(req.length) && req.status == old(req.status)
               && platform.enabled == old(platform.enabled) - {old(outEp)}
               && platform.queued == old(platform.queued)
             else
               && outEp == old(outEp) && platform.enabled == old(platform.enabled)[outEp := sinkDesc]
               && req.length == 0 && req.zero == (0 < ctrl.wLength)
               && (value < 0 ==> req.status == 0)
    {
      req.zero := false;
      var a := Dispatch(ctrl, device, sinkDesc, strings);
      match a {
        case Reply(written, v) =>
          forall i | 0 <= i < |written| {
            req.buf[i] := written[i];
          }
          value := v;
        case Configure(number) =>
          value := SetConfig(number);
        case Stall(e) =>
          value := e;
      }
      if value >= 0 {
        req.length := value;
        req.zero := value < ctrl.wLength;
        value := platform.Queue(ep0, req);
        if value < 0 {
          // zero_setup_complete is then called directly; it only logs
          req.status := 0;
        }
      }
    }

    /**
      The controller gives the ep0 reply back and runs `zero_setup_complete`,
      which only logs.
     */
    method SetupComplete(status: int, actual: nat)
      requires Valid() && req in platform.queued
      requires actual <= req.length && -MAX_ERRNO <= status <= 0
      modifies platform, req
      ensures Valid()
      ensures platform.queued == old(platform.queued) - {req}
      ensures req.status == status && req.actual == actual
      ensures req.buf == old(req.buf) && req.length == old(req.length) && req.zero == old(req.zero)
      ensures platform.requests == old(platform.requests) && platform.buffers == old(platform.buffers)
      ensures platform.enabled == old(platform.enabled)
    {
      platform.CompleteIn(req, status, actual);
    }

    // -------------------------------------------------------------------
    // Bulk receive path

    /**
      `source_sink_complete`: on status 0 for the sink endpoint, copy the
      `actual` received bytes into the data slot and record their number;
      any other status (shutdown, reset, overflow, short read, ...) leaves
      the slot alone. Every path frees the request and wakes the reader.
     */
    method Complete(ep: Endpoint, r: Request)
      requires Valid()
      requires r in platform.requests && r !in platform.queued && r != req
      requires r.buf != null && r.buf in platform.buffers && r.buf != req.buf
      requires r.length == REQ_LEN && r.buf.Length == REQ_LEN && r.actual <= r.length
      modifies this`dataSize, this`wakeups, data, platform
      ensures Valid()
      ensures r.status == 0 && ep == outEp ==>
        && dataSize == r.actual
        && data[..r.actual] == r.buf[..r.actual]
        && data[r.actual..] == old(data[r.actual..])
      ensures !(r.status == 0 && ep == outEp) ==> data[..] == old(data[..]) && dataSize == old(dataSize)
      ensures platform.requests == old(platform.requests) - {r}
      ensures platform.buffers == old(platform.buffers) - {r.buf}
      ensures platform.queued == old(platform.queued) && platform.enabled == old(platform.enabled)
      ensures wakeups == old(wakeups) + 1
    {
      var status := r.status;
      if status == 0 && ep == outEp {
        forall i | 0 <= i < r.actual {
          data[i] := r.buf[i];
        }
        dataSize := r.actual;
      }
      FreeEpReq(platform, ep, r);
      wakeups := wakeups + 1;
    }

    /**
      `usb_zero_read`, run sequentially: start a receive on the sink
      endpoint; if it was queued, the controller completes it with `status`
      and the bytes the host sent, and the completion handler runs; then the
      data slot's `dataSize` bytes are handed out and `dataSize` returned,
      whatever `count` is. No request is left allocated or queued.
     */
    method Read(count: nat, status: int, received: seq<Byte>) returns (ret: int, bytes: seq<Byte>, ghost started: bool)
      requires Valid() && outEp != null
      requires -MAX_ERRNO <= status <= 0
      modifies this`dataSize, this`wakeups, data, platform
      ensures Valid() && outEp == old(outEp)
      ensures ret == dataSize == |bytes| <= REQ_LEN && bytes == data[..dataSize]
      ensures started && status == 0 ==> bytes == received[..Min(|received|, REQ_LEN)]
      ensures !(started && status == 0) ==> data[..] == old(data[..]) && dataSize == old(dataSize)
      ensures wakeups == old(wakeups) + (if started then 1 else 0)
      ensures platform.requests == old(platform.requests) && platform.buffers == old(platform.buffers)
      ensures platform.queued == old(platform.queued) && platform.enabled == old(platform.enabled)
    {
      var ep := outEp;
      var r := StartEp(platform, ep);
      started := r != null;
      if r != null {
        platform.CompleteOut(r, status, received);
        Complete(ep, r);
      }
      bytes := data[..dataSize];
      ret := dataSize;
    }
  }
}
