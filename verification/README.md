# Gadget Zero, device side

A model of `zero.c`, a Linux USB gadget driver ("Gadget Zero", vendor
0xefef, product 0x0036). It presents one vendor-specific loopback
configuration with a single bulk OUT (sink) endpoint. It answers the host's
control requests on ep0, and it hands what the host sends to a reader, one
128-byte transfer at a time.

The model has six modules:

- `Ch9` holds the USB 2.0 chapter 9 vocabulary. It covers bytes and
  little-endian words, the request and descriptor codes, and the device,
  configuration, interface and endpoint descriptor layouts. Each layout has
  a serialiser and a parser, and the two are proved inverse.
- `GadgetLib` gives the behaviour `zero.c` relies on from the gadget
  framework's `usb_gadget_config_buf` and `usb_gadget_get_string`. It
  follows the USB 2.0 layouts (string descriptors as in section 9.6.7),
  because their own source files are not part of this model.
- `ZeroDescriptors` holds the driver's descriptor catalogue, its string
  table and `config_buf`.
- `Control` holds the decision half of `zero_setup`. `Dispatch` is a pure
  function from a setup packet to one of three actions: a reply, a
  configuration change, or a stall.
- `Transport` stands for the controller's endpoint operations and the
  kernel allocator. Enable, queue, request allocation and `kmalloc` succeed
  or fail nondeterministically. Ghost state records each enabled endpoint
  with the descriptor it was enabled with, the allocated requests, the
  requests the controller holds, and the live buffers. The preconditions
  rule out several misuses:
  - a request or buffer freed twice;
  - a request freed while the controller holds it;
  - a buffer freed while a request the controller holds still points at it;
  - the controller completing a transfer into a freed buffer.
  The ep0 reply buffer stays live for as long as the device exists, and
  each bulk request has a buffer of its own.
- `Zero` is the imperative part:
  - the request life cycle (`alloc_ep_req`, `free_ep_req`,
    `source_sink_start_ep`);
  - the class `ZeroDev`, whose methods update the sink endpoint handle
    `outEp`, the ep0 request (buffer, `length`, `zero`), and the 128-byte
    data slot with its `dataSize`.

Behaviour kept as the code has it:

- The ep0 zero-length-packet flag is `value < wLength`, not a rule about
  multiples of the packet size.
- `zero_setup` returns the status of `usb_ep_queue`. That is 0 on success,
  not the reply length.
- SET_CONFIGURATION ignores wValue. Every such request, 0 included, enables
  the sink endpoint.
- A failed enable disables the sink endpoint and sets `out_ep` to NULL.
  Nothing ever sets it again. A later SET_CONFIGURATION or read would pass
  NULL to the controller, so `Setup` (for SET_CONFIGURATION) and `Read`
  require `outEp != null`.
- `usb_zero_read` ignores `count` and returns `data_size`. When the receive
  could not be started, no completion runs, and the model returns the slot
  as it was.
- Every completion status other than 0 (reset, shutdown, overflow, short
  read) leaves the data slot alone. The model does not tell these statuses
  apart.
- The string index is the low byte of wValue. The language id in wIndex is
  not consulted.

## Model

| member | source | states |
|---|---|---|
| Ch9.DeviceRoundTrip | zero.c:107-118 | the 18-byte device descriptor parses back to the record it was written from, and the only bytes that parse to a record are its own serialisation |
| Ch9.ConfigRoundTrip | zero.c:127-136 | the same round trip for the 9-byte configuration descriptor, with wTotalLength little-endian |
| Ch9.InterfaceRoundTrip | zero.c:137-144 | the same round trip for the 9-byte interface descriptor |
| Ch9.EndpointRoundTrip | zero.c:119-125 | the same round trip for the 7-byte endpoint descriptor, with wMaxPacketSize little-endian |
| GadgetLib.FillBufFits | zero.c:334-336 | copying the descriptor list after the header succeeds exactly when its total length fits the remaining room, and then yields the descriptors end to end |
| GadgetLib.ConcatLength | zero.c:334-335 | the concatenated descriptor list is as long as the sum of its members' lengths |
| GadgetLib.ConfigBufLayout | zero.c:336-338 | the configuration buffer succeeds exactly when buffer length ≥ 9 and header plus descriptors fit both the buffer and 16 bits, failing otherwise with -EINVAL; on success its length is the total, wTotalLength equals it, the header parses to the configuration with bit 7 of bmAttributes set, and the descriptors follow unchanged |
| GadgetLib.Lookup | zero.c:150-157 | a string id is found exactly when some table entry carries it, and what is found is the text of the first entry that carries it |
| GadgetLib.StringRoundTrip | zero.c:413 | a string descriptor is 2 + 2·n bytes (UTF-16LE), its length byte is its size, and it parses back to the text |
| GadgetLib.GetString | zero.c:412-416 | index 0 gives the 4-byte language list; another index succeeds exactly when the table holds it, with a descriptor of at most 254 bytes that decodes to the text cut to 126 characters; a miss is -EINVAL |
| ZeroDescriptors.DeviceDescWire | zero.c:107-118 | the device descriptor on the wire is `[18,1,0x10,0x01,0xff,0,0,maxpacket0,0xef,0xef,0x36,0x00,bcd lo,bcd hi,25,42,101,1]` |
| ZeroDescriptors.DeviceDescBcd | zero.c:473-479 | what the host reads as bcdDevice (descriptor bytes 12-13): `[n, 0x02]` for a recognised controller numbered n < 0x100, the little-endian word 0x0200 + n (kept to 16 bits) for any recognised controller, and `[0x99, 0x99]` for an unrecognised one |
| ZeroDescriptors.LoopbackFunctionLength | zero.c:164-168 | the loopback function list (interface, then sink endpoint) is 9 + 7 bytes: the interface bytes followed by the endpoint bytes |
| ZeroDescriptors.LoopbackConfigAssembled | zero.c:334-336 | assembling the loopback configuration into the 256-byte ep0 buffer succeeds, giving the header with wTotalLength 25, then the interface, then the endpoint |
| ZeroDescriptors.ConfigBufLoopback | zero.c:328-341 | `config_buf` never fails: 25 bytes, length byte 9, type byte the requested type, wTotalLength 25, header fields `[1,2,249,0xc0,1]`, and the interface and endpoint descriptors parse back from bytes 9..18 and 18..25 |
| ZeroDescriptors.StringTabIndices | zero.c:145-162 | exactly indices 0, 25, 42, 101, 248 and 249 have a string descriptor; index 0 is `[4,3,0x09,0x04]` (en-us); index 42 decodes to "Gadget Zero" |
| Control.Dispatch | zero.c:383-432 | a reply happens only for a GET_DESCRIPTOR with request type 0x80, and its length is at most wLength and fits the 256-byte buffer; a configuration change happens exactly for SET_CONFIGURATION with request type 0, carrying wValue; every stall code is negative |
| Control.GetDeviceDescriptor | zero.c:401-405 | GET_DESCRIPTOR(DEVICE) sends min(wLength, 18) bytes, a prefix of the device descriptor, and parses back to it when wLength ≥ 18 |
| Control.GetConfigDescriptor | zero.c:406-410 | GET_DESCRIPTOR(CONFIG) writes exactly `config_buf`'s 25 bytes (length byte 9, type byte CONFIG, wTotalLength 25, header fields `[1,2,249,0xc0,1]`, then the interface and the sink endpoint) and sends min(wLength, 25) bytes of it |
| Control.GetStringDescriptor | zero.c:412-416 | GET_DESCRIPTOR(STRING) looks up the low byte of wValue; a miss stalls with -EINVAL, a hit sends min(wLength, length) bytes of the string descriptor |
| Control.StallCases | zero.c:387-432 | a request stalls exactly when it is none of GET_DESCRIPTOR (type 0x80) of a device, configuration or known string descriptor, or SET_CONFIGURATION with type 0; apart from a string lookup miss the code is -EOPNOTSUPP |
| Zero.FreeEpReq | zero.c:183-187 | the request and its buffer both leave the live sets; nothing else changes |
| Zero.AllocEpReq | zero.c:188-202 | either null with no request or buffer left allocated (a request whose buffer failed is released), or a fresh request of the given length with a fresh buffer of that size |
| Zero.StartEp | zero.c:238-256 | either a fresh 128-byte request with an all-zero buffer now held by the controller, or null with the allocation and queue sets unchanged |
| Zero.ZeroDev.constructor | zero.c:480-496 | after bind the device descriptor carries ep0's packet size and the controller's bcdDevice, the sink endpoint is autoconfiguration's, and the data slot is zeroed and empty |
| Zero.ZeroDev.SetLoopbackConfig | zero.c:343-360 | when the result is 0 the sink endpoint is enabled with the sink descriptor; otherwise nothing is enabled and a negative errno is returned |
| Zero.ZeroDev.ResetConfig | zero.c:310-314 | the sink endpoint is disabled and `outEp` becomes null |
| Zero.ZeroDev.SetConfig | zero.c:361-379 | whatever the configuration number, result 0 leaves `outEp` unchanged and enabled with the sink descriptor; a negative result leaves it disabled and null |
| Zero.ZeroDev.Setup | zero.c:383-447 | the ep0 request keeps its buffer and `actual`, and its status changes only to 0 when queueing fails; per Dispatch's action: a stall returns its error with nothing queued and the ep0 request untouched apart from the cleared zero flag; a reply writes the bytes to the ep0 buffer, sets `length` to the clamped value and `zero` to `value < wLength`, and queues; a configuration change runs SetConfig, enabling the sink endpoint with the sink descriptor, and on success queues a zero-length reply; the result is 0 exactly when the reply was queued, and a failed queue returns its negative status |
| Zero.ZeroDev.SetupComplete | zero.c:305-309 | the controller gives the ep0 request back with its status and actual length; its buffer, length and zero flag and everything else are unchanged |
| Zero.ZeroDev.Complete | zero.c:203-236 | on status 0 for the sink endpoint the first `actual` bytes of the request land in the slot and `dataSize == actual` (≤ 128), the rest of the slot unchanged; on any other status the slot and `dataSize` are unchanged; on every path the request and its buffer are freed once and the reader is woken once |
| Zero.ZeroDev.Read | zero.c:257-285 | the read returns `dataSize` and the slot's first `dataSize` bytes, whatever `count` is; after a started receive completing with status 0 those are the first min(n, 128) bytes the host sent; no request or buffer is left allocated or queued |

## Left out

- Character-device registration, open, release, the file operations table, and module init and exit (zero.c:170-182, 287-303, 503-510, 536-548): operating-system plumbing.
- The wait queue and the spinlock (zero.c:235, 272, 422-424). The read is modelled as start, then one completion, then the copy-out, and `wakeups` is a ghost counter. Interleavings are not modelled, for example a completion that runs before the reader sleeps, or a reader woken by a signal.
- `copy_to_user` faults (-EFAULT) and the `count < 0` test, which is always false for a `size_t` (zero.c:269-278): user-space memory is not modelled.
- The bodies of `usb_gadget_config_buf`, `usb_gadget_get_string` (config.c, usbstring.c) and `usb_ep_autoconfig` (epautoconf.c) are not part of this model. The first two are given by their documented behaviour in `GadgetLib`. Autoconfiguration's endpoint address and packet size are parameters.
- GadgetLib.GetString: only ASCII text is modelled. The UTF-8 to UTF-16 conversion of other characters and its error path are not.
- The controller's `usb_ep_enable`, `usb_ep_disable`, `usb_ep_queue`, request allocation, and `kmalloc`/`kfree` are foreign. They are nondeterministic methods of `Transport.Platform`. Disabling an endpoint does not model the controller flushing requests still queued on it.
- The manufacturer string composed from `utsname` with `snprintf` (zero.c:499-500) is a constructor parameter: any ASCII text shorter than its 50-byte buffer.
- The speed-name switch (zero.c:369-376; its values are never used), `zero_disconnect` (its body is compiled out, zero.c:315-326), and all `printk` logging.
- The failure paths of `zero_bind` and all of `zero_unbind` (zero.c:448-462, 470-471, 481-491). The constructor models the state after a successful bind.
- Zero.ZeroDev.Setup: requires `outEp != null` for SET_CONFIGURATION. After a failed enable the code would pass a NULL endpoint to the controller, whose behaviour then is not modelled.
- Zero.ZeroDev.Read: requires `outEp != null`, for the same reason. When the receive could not be started, the code sleeps until a signal. The model returns at once with the slot unchanged.
- Zero.ZeroDev.Setup: the ep0 data stage after a successful queue is a separate step (`SetupComplete`). `Setup` says nothing about what the host receives beyond the buffer contents and `length`.
