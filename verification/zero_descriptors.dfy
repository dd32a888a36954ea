/**
  The descriptor catalogue of Gadget Zero: the device descriptor (whose
  bMaxPacketSize0 and bcdDevice are fixed at bind time), the one loopback
  configuration with its single interface and bulk OUT sink endpoint, the
  string table, and `config_buf`, which assembles the 25-byte configuration
  reply.
 */
module ZeroDescriptors {
  import opened Ch9
  import opened GadgetLib

  const STRING_MANUFACTURER: Byte := 25
  const STRING_PRODUCT: Byte := 42
  const STRING_SERIAL: Byte := 101
  const STRING_SOURCE_SINK: Byte := 248
  const STRING_LOOPBACK: Byte := 249

  const DRIVER_VENDOR_NUM: U16 := 0xefef
  const DRIVER_PRODUCT_NUM: U16 := 0x0036

  const CONFIG_LOOPBACK: Byte := 2

  /** Size of the ep0 reply buffer, big enough for the biggest descriptor. */
  const USB_BUFSIZ := 256

  /** bcdDevice when the controller is not recognised. */
  const UNKNOWN_BCD_DEVICE: U16 := 0x9999

  /**
    bcdDevice is 0x0200 plus the controller number, kept to 16 bits, or
    0x9999 when the controller number is negative (not recognised).
   */
  function BcdDevice(gcnum: int): U16
  {
    if gcnum >= 0 then (0x0200 + gcnum) % 0x1_0000 else UNKNOWN_BCD_DEVICE
  }

  /** The device descriptor once bind has filled in ep0's packet size (kept to 8 bits) and bcdDevice. */
  function DeviceDesc(ep0MaxPacket: nat, gcnum: int): DeviceDescriptor
  {
    DeviceDescriptor(
      bcdUSB := 0x0110,
      bDeviceClass := USB_CLASS_VENDOR_SPEC,
      bDeviceSubClass := 0,
      bDeviceProtocol := 0,
      bMaxPacketSize0 := ep0MaxPacket % 0x100,
      idVendor := DRIVER_VENDOR_NUM,
      idProduct := DRIVER_PRODUCT_NUM,
      bcdDevice := BcdDevice(gcnum),
      iManufacturer := STRING_MANUFACTURER,
      iProduct := STRING_PRODUCT,
      iSerialNumber := STRING_SERIAL,
      bNumConfigurations := 1)
  }

  /** The 18 bytes the host reads for the device descriptor, byte by byte. */
  lemma DeviceDescWire(ep0MaxPacket: nat, gcnum: int)
    ensures var bcd := BcdDevice(gcnum);
      DeviceBytes(DeviceDesc(ep0MaxPacket, gcnum))
      == [18, 1, 0x10, 0x01, 0xff, 0, 0, ep0MaxPacket % 0x100, 0xef, 0xef, 0x36, 0x00,
          bcd % 0x100, bcd / 0x100, 25, 42, 101, 1]
  {
  }

  /**
    What the host reads as bcdDevice (bytes 12 and 13, little-endian): for
    a recognised controller numbered below 0x100 the bytes are the number
    and 0x02, for any recognised controller the word is 0x0200 plus the
    number kept to 16 bits, and for an unrecognised one both bytes are 0x99.
   */
  lemma DeviceDescBcd(ep0MaxPacket: nat, gcnum: int)
    ensures var r := DeviceBytes(DeviceDesc(ep0MaxPacket, gcnum));
      && (0 <= gcnum < 0x100 ==> r[12..14] == [gcnum, 0x02])
      && (0 <= gcnum ==> Le16(r[12], r[13]) == (0x0200 + gcnum) % 0x1_0000)
      && (gcnum < 0 ==> r[12..14] == [0x99, 0x99])
  {
    var bcd := BcdDevice(gcnum);
    var r := DeviceBytes(DeviceDesc(ep0MaxPacket, gcnum));
    assert r[12] == Lo(bcd) && r[13] == Hi(bcd);
    Le16Split(bcd);
    if 0 <= gcnum < 0x100 {
      assert bcd == 0x0200 + gcnum;
      assert r[12..14] == [r[12], r[13]];
    } else if gcnum < 0 {
      assert bcd == 0x9999;
      assert r[12..14] == [r[12], r[13]];
    }
  }

  /** The loopback configuration header; wTotalLength is computed when it is sent. */
  const LOOPBACK_CONFIG := ConfigDescriptor(
    wTotalLength := 0,
    bNumInterfaces := 1,
    bConfigurationValue := CONFIG_LOOPBACK,
    iConfiguration := STRING_LOOPBACK,
    bmAttributes := USB_CONFIG_ATT_ONE + USB_CONFIG_ATT_SELFPOWER,
    bMaxPower := 1)

  const LOOPBACK_INTF := InterfaceDescriptor(
    bInterfaceNumber := 0,
    bAlternateSetting := 0,
    bNumEndpoints := 1,
    bInterfaceClass := USB_CLASS_VENDOR_SPEC,
    bInterfaceSubClass := 0,
    bInterfaceProtocol := 0,
    iInterface := STRING_LOOPBACK)

  /**
    The bulk OUT sink endpoint; its address and wMaxPacketSize are the ones
    endpoint autoconfiguration picked for the controller.
   */
  function SinkDesc(address: Byte, maxPacket: U16): EndpointDescriptor
  {
    EndpointDescriptor(
      bEndpointAddress := address,
      bmAttributes := USB_ENDPOINT_XFER_BULK,
      wMaxPacketSize := maxPacket,
      bInterval := 0)
  }

  /** The descriptors that follow the configuration header, in order. */
  function LoopbackFunction(sink: EndpointDescriptor): seq<seq<Byte>>
  {
    [InterfaceBytes(LOOPBACK_INTF), EndpointBytes(sink)]
  }

  /** `config_buf`: assemble the configuration into the ep0 buffer, then overwrite its type byte. */
  function ConfigBuf(descType: Byte, sink: EndpointDescriptor): Outcome<seq<Byte>>
  {
    match UsbGadgetConfigBuf(LOOPBACK_CONFIG, USB_BUFSIZ, LoopbackFunction(sink))
    case Err(e) => Err(e)
    case Ok(r) => Ok(r[1 := descType])
  }

  const CONFIG_TOTAL := USB_DT_CONFIG_SIZE + USB_DT_INTERFACE_SIZE + USB_DT_ENDPOINT_SIZE

  lemma {:induction false} LoopbackFunctionLength(sink: EndpointDescriptor)
    ensures TotalLength(LoopbackFunction(sink)) == USB_DT_INTERFACE_SIZE + USB_DT_ENDPOINT_SIZE
    ensures Concat(LoopbackFunction(sink)) == InterfaceBytes(LOOPBACK_INTF) + EndpointBytes(sink)
  {
    var descs: seq<seq<Byte>> := LoopbackFunction(sink);
    var tail: seq<seq<Byte>> := descs[1..][1..];
    assert tail == [];
    assert TotalLength(descs[1..]) == USB_DT_ENDPOINT_SIZE + TotalLength(tail);
    assert Concat(descs[1..]) == EndpointBytes(sink) + Concat(tail);
  }

  /** The assembled loopback configuration before its type byte is overwritten. */
  lemma LoopbackConfigAssembled(sink: EndpointDescriptor)
    ensures UsbGadgetConfigBuf(LOOPBACK_CONFIG, USB_BUFSIZ, LoopbackFunction(sink))
         == Ok(ConfigBytes(LOOPBACK_CONFIG.(wTotalLength := 25)) + InterfaceBytes(LOOPBACK_INTF) + EndpointBytes(sink))
  {
    LoopbackFunctionLength(sink);
    FillBufFits(LoopbackFunction(sink), USB_BUFSIZ - USB_DT_CONFIG_SIZE);
    assert SetBit7(LOOPBACK_CONFIG.bmAttributes) == LOOPBACK_CONFIG.bmAttributes;
    var body := InterfaceBytes(LOOPBACK_INTF) + EndpointBytes(sink);
    assert ConfigBytes(LOOPBACK_CONFIG.(wTotalLength := 25)) + body
        == ConfigBytes(LOOPBACK_CONFIG.(wTotalLength := 25)) + InterfaceBytes(LOOPBACK_INTF) + EndpointBytes(sink);
  }

  /**
    The configuration reply never fails: it is 9 + 9 + 7 = 25 bytes whose
    type byte is the requested type, whose wTotalLength is 25, and which is
    the configuration header, the interface and the endpoint end to end.
   */
  lemma ConfigBufLoopback(descType: Byte, sink: EndpointDescriptor)
    ensures ConfigBuf(descType, sink).Ok?
    ensures var r := ConfigBuf(descType, sink).value;
      && |r| == CONFIG_TOTAL == 25
      && r[0] == USB_DT_CONFIG_SIZE && r[1] == descType
      && Le16(r[2], r[3]) == 25
      && r[4..USB_DT_CONFIG_SIZE] == [1, CONFIG_LOOPBACK, STRING_LOOPBACK, 0xc0, 1]
      && ParseInterface(r[9..18]) == Some(LOOPBACK_INTF)
      && ParseEndpoint(r[18..25]) == Some(sink)
  {
    LoopbackConfigAssembled(sink);
    var r := ConfigBuf(descType, sink).value;
    assert r[9..18] == InterfaceBytes(LOOPBACK_INTF);
    assert r[18..25] == EndpointBytes(sink);
    InterfaceRoundTrip(LOOPBACK_INTF, r[9..18]);
    EndpointRoundTrip(sink, r[18..25]);
  }

  // ---------------------------------------------------------------------
  // String table

  const LANGUAGE_EN_US: U16 := 0x0409
  const LONGNAME: AsciiText := "Gadget Zero"
  const SERIAL: AsciiText := "0123456789.0123456789.0123456789"
  const LOOPBACK: AsciiText := "loop input to output"
  const SOURCE_SINK: AsciiText := "source and sink data"

  /** The size of the manufacturer buffer, NUL included. */
  const MANUFACTURER_SIZE := 50

  /** The string table; the manufacturer text is composed at bind time. */
  function StringTab(manufacturer: AsciiText): GadgetStrings
  {
    GadgetStrings(LANGUAGE_EN_US, [
      UsbString(STRING_MANUFACTURER, manufacturer),
      UsbString(STRING_PRODUCT, LONGNAME),
      UsbString(STRING_SERIAL, SERIAL),
      UsbString(STRING_LOOPBACK, LOOPBACK),
      UsbString(STRING_SOURCE_SINK, SOURCE_SINK)])
  }

  /**
    Exactly the five indices of the table, and index 0 (the language list
    0x0409), have a string descriptor; every string index the device,
    configuration and interface descriptors name is among them.
   */
  lemma StringTabIndices(manufacturer: AsciiText, id: Byte)
    ensures GetString(StringTab(manufacturer), id).Ok?
        <==> id in {0, STRING_MANUFACTURER, STRING_PRODUCT, STRING_SERIAL, STRING_LOOPBACK, STRING_SOURCE_SINK}
    ensures GetString(StringTab(manufacturer), 0) == Ok([4, USB_DT_STRING, 0x09, 0x04])
    ensures id == STRING_PRODUCT ==> ParseString(GetString(StringTab(manufacturer), id).value) == Some(LONGNAME)
  {
    var t := StringTab(manufacturer).strings;
    if id in {STRING_MANUFACTURER, STRING_PRODUCT, STRING_SERIAL, STRING_LOOPBACK, STRING_SOURCE_SINK} {
      var i := if id == STRING_MANUFACTURER then 0 else if id == STRING_PRODUCT then 1
               else if id == STRING_SERIAL then 2 else if id == STRING_LOOPBACK then 3 else 4;
      assert t[i].id == id;
    }
    if id == STRING_PRODUCT {
      assert LONGNAME[..Min(MAX_STRING_CHARS, |LONGNAME|)] == LONGNAME;
    }
  }
}
