/**
  The decision half of `zero_setup`: given one setup packet (section 9.3 of
  the USB 2.0 specification), what goes into the ep0 reply buffer and how
  long the data stage is, whether the configuration must be changed, or
  whether to stall. The state changes that follow the decision are in
  module Zero.
 */
module Control {
  import opened Ch9
  import opened GadgetLib
  import opened ZeroDescriptors

  datatype SetupPacket = SetupPacket(
    bRequestType: Byte,
    bRequest: Byte,
    wValue: U16,
    wIndex: U16,
    wLength: U16)

  /** The descriptor type asked for: the high byte of wValue. */
  function DescType(ctrl: SetupPacket): Byte { ctrl.wValue / 0x100 }

  /** The descriptor index asked for: the low byte of wValue. */
  function DescIndex(ctrl: SetupPacket): Byte { ctrl.wValue % 0x100 }

  datatype Action =
    /** `written` goes to the start of the ep0 buffer; `value` bytes of it are the data stage. */
    | Reply(written: seq<Byte>, value: nat)
    /** SET_CONFIGURATION with the value the host sent. */
    | Configure(number: U16)
    /** A negative errno: the control endpoint stalls. */
    | Stall(error: int)

  /** The bytes the data stage carries. */
  function Sent(a: Action): seq<Byte>
    requires a.Reply? && a.value <= |a.written|
  {
    a.written[..a.value]
  }

  predicate IsGetDescriptor(ctrl: SetupPacket)
  {
    ctrl.bRequest == USB_REQ_GET_DESCRIPTOR && ctrl.bRequestType == USB_DIR_IN
  }

  predicate IsSetConfiguration(ctrl: SetupPacket)
  {
    ctrl.bRequest == USB_REQ_SET_CONFIGURATION && ctrl.bRequestType == 0
  }

  /**
    GET_DESCRIPTOR answers only a standard device-to-host request (type
    0x80) for a device, configuration or string descriptor, clamped to
    wLength; SET_CONFIGURATION is handled only with request type 0, whatever
    wValue is; everything else stalls with -EOPNOTSUPP.
   */
  function Dispatch(ctrl: SetupPacket, device: DeviceDescriptor, sink: EndpointDescriptor, table: GadgetStrings): (a: Action)
    ensures a.Reply? ==> IsGetDescriptor(ctrl) && a.value <= ctrl.wLength && a.value <= |a.written| <= USB_BUFSIZ
    ensures a.Configure? <==> IsSetConfiguration(ctrl)
    ensures a.Configure? ==> a.number == ctrl.wValue
    ensures a.Stall? ==> a.error < 0
  {
    if ctrl.bRequest == USB_REQ_GET_DESCRIPTOR then
      if ctrl.bRequestType != USB_DIR_IN then Stall(-EOPNOTSUPP)
      else if DescType(ctrl) == USB_DT_DEVICE then
        var value := Min(ctrl.wLength, USB_DT_DEVICE_SIZE);
        Reply(DeviceBytes(device)[..value], value)
      else if DescType(ctrl) == USB_DT_CONFIG then
        ConfigBufLoopback(DescType(ctrl), sink);
        match ConfigBuf(DescType(ctrl), sink)
        case Err(e) => Stall(e)
        case Ok(r) => Reply(r, Min(ctrl.wLength, |r|))
      else if DescType(ctrl) == USB_DT_STRING then
        match GetString(table, DescIndex(ctrl))
        case Err(e) => Stall(e)
        case Ok(r) => Reply(r, Min(ctrl.wLength, |r|))
      else Stall(-EOPNOTSUPP)
    else if ctrl.bRequest == USB_REQ_SET_CONFIGURATION then
      if ctrl.bRequestType != 0 then Stall(-EOPNOTSUPP)
      else Configure(ctrl.wValue)
    else Stall(-EOPNOTSUPP)
  }

  /**
    GET_DESCRIPTOR(DEVICE) sends min(wLength, 18) bytes, a prefix of the
    18-byte device descriptor; when the host asks for all of it, the reply
    parses back to the device descriptor.
   */
  lemma GetDeviceDescriptor(ctrl: SetupPacket, device: DeviceDescriptor, sink: EndpointDescriptor, table: GadgetStrings)
    requires IsGetDescriptor(ctrl) && DescType(ctrl) == USB_DT_DEVICE
    ensures var a := Dispatch(ctrl, device, sink, table);
      && a.Reply?
      && a.value == Min(ctrl.wLength, USB_DT_DEVICE_SIZE)
      && Sent(a) == DeviceBytes(device)[..a.value]
      && (ctrl.wLength >= USB_DT_DEVICE_SIZE ==> ParseDevice(Sent(a)) == Some(device))
  {
    var a := Dispatch(ctrl, device, sink, table);
    DeviceRoundTrip(device, Sent(a));
    if ctrl.wLength >= USB_DT_DEVICE_SIZE {
      assert Sent(a) == DeviceBytes(device);
    }
  }

  /**
    GET_DESCRIPTOR(CONFIG) writes the whole 25-byte configuration, its type
    byte set to the requested type, and sends min(wLength, 25) bytes of it,
    whatever the configuration index.
   */
  lemma GetConfigDescriptor(ctrl: SetupPacket, device: DeviceDescriptor, sink: EndpointDescriptor, table: GadgetStrings)
    requires IsGetDescriptor(ctrl) && DescType(ctrl) == USB_DT_CONFIG
    ensures var a := Dispatch(ctrl, device, sink, table);
      && a.Reply?
      && a.written == ConfigBuf(USB_DT_CONFIG, sink).value
      && |a.written| == CONFIG_TOTAL
      && a.value == Min(ctrl.wLength, CONFIG_TOTAL)
      && a.written[0] == USB_DT_CONFIG_SIZE && a.written[1] == USB_DT_CONFIG
      && a.written[4..USB_DT_CONFIG_SIZE] == [1, CONFIG_LOOPBACK, STRING_LOOPBACK, 0xc0, 1]
      && Le16(a.written[2], a.written[3]) == CONFIG_TOTAL
      && ParseInterface(a.written[9..18]) == Some(LOOPBACK_INTF)
      && ParseEndpoint(a.written[18..25]) == Some(sink)
  {
    ConfigBufLoopback(DescType(ctrl), sink);
  }

  /**
    GET_DESCRIPTOR(STRING) looks up index `wValue & 0xff` (the language in
    wIndex is not consulted): a lookup error stalls with that error, a hit
    sends min(wLength, length) bytes of the string descriptor.
   */
  lemma GetStringDescriptor(ctrl: SetupPacket, device: DeviceDescriptor, sink: EndpointDescriptor, table: GadgetStrings)
    requires IsGetDescriptor(ctrl) && DescType(ctrl) == USB_DT_STRING
    ensures var a := Dispatch(ctrl, device, sink, table);
      match GetString(table, DescIndex(ctrl))
      case Err(e) => a == Stall(e) && e == -EINVAL
      case Ok(r) => a == Reply(r, Min(ctrl.wLength, |r|)) && Sent(a) == r[..Min(ctrl.wLength, r[0])]
  {
  }

  /**
    The request stalls exactly when it is neither a GET_DESCRIPTOR of a
    device, configuration or known string descriptor nor a SET_CONFIGURATION
    with request type 0; apart from a string lookup error the stall code is
    -EOPNOTSUPP.
   */
  lemma StallCases(ctrl: SetupPacket, device: DeviceDescriptor, sink: EndpointDescriptor, table: GadgetStrings)
    ensures var a := Dispatch(ctrl, device, sink, table);
      a.Stall? <==>
        !IsSetConfiguration(ctrl) &&
        !(IsGetDescriptor(ctrl) &&
          (DescType(ctrl) == USB_DT_DEVICE || DescType(ctrl) == USB_DT_CONFIG ||
           (DescType(ctrl) == USB_DT_STRING && GetString(table, DescIndex(ctrl)).Ok?)))
    ensures var a := Dispatch(ctrl, device, sink, table);
      a.Stall? && !(IsGetDescriptor(ctrl) && DescType(ctrl) == USB_DT_STRING) ==> a.error == -EOPNOTSUPP
  {
    if IsGetDescriptor(ctrl) && DescType(ctrl) == USB_DT_CONFIG {
      ConfigBufLoopback(DescType(ctrl), sink);
    }
  }
}
