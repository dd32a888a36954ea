/**
  Chapter 9 of the USB 2.0 specification, as far as the gadget uses it:
  bytes and little-endian 16-bit words, the request and descriptor codes,
  and the fixed binary layouts of the device (section 9.6.1), configuration
  (9.6.3), interface (9.6.5) and endpoint (9.6.6) descriptors, each with a
  serialiser and a parser that undoes it.
 */
module Ch9 {

  type Byte = b: int | 0 <= b < 0x100
  type U16 = w: int | 0 <= w < 0x1_0000

  datatype Option<+T> = None | Some(value: T)

  /** A C-style result: a value, or a negative errno. */
  datatype Outcome<+T> = Ok(value: T) | Err(code: int)

  // Linux errno values used by the gadget and its helpers
  const EINVAL := 22
  const EOPNOTSUPP := 95
  /** Every errno a kernel call returns lies in -MAX_ERRNO .. -1. */
  const MAX_ERRNO := 4095

  // bmRequestType directions and bRequest codes (section 9.3, table 9-4)
  const USB_DIR_IN: Byte := 0x80
  const USB_REQ_GET_DESCRIPTOR: Byte := 0x06
  const USB_REQ_SET_CONFIGURATION: Byte := 0x09

  // descriptor types (table 9-5) and sizes
  const USB_DT_DEVICE: Byte := 1
  const USB_DT_CONFIG: Byte := 2
  const USB_DT_STRING: Byte := 3
  const USB_DT_INTERFACE: Byte := 4
  const USB_DT_ENDPOINT: Byte := 5
  const USB_DT_DEVICE_SIZE := 18
  const USB_DT_CONFIG_SIZE := 9
  const USB_DT_INTERFACE_SIZE := 9
  const USB_DT_ENDPOINT_SIZE := 7

  const USB_CLASS_VENDOR_SPEC: Byte := 0xff
  const USB_ENDPOINT_XFER_BULK: Byte := 2
  const USB_CONFIG_ATT_ONE: Byte := 0x80
  const USB_CONFIG_ATT_SELFPOWER: Byte := 0x40

  function Min(a: int, b: int): int { if a < b then a else b }

  /** Low and high byte of a 16-bit word, the wire order of every multi-byte field. */
  function Lo(w: U16): Byte { w % 0x100 }
  function Hi(w: U16): Byte { w / 0x100 }
  function Le16(lo: Byte, hi: Byte): U16 { lo + 0x100 * hi }

  lemma Le16Split(w: U16)
    ensures Le16(Lo(w), Hi(w)) == w
  {
  }

  lemma Le16Parts(lo: Byte, hi: Byte)
    ensures Lo(Le16(lo, hi)) == lo && Hi(Le16(lo, hi)) == hi
  {
  }

  /** Setting bit 7 of a byte (`b |= 0x80`). */
  function SetBit7(b: Byte): (r: Byte)
    ensures r >= 0x80 && r % 0x80 == b % 0x80
  {
    if b >= 0x80 then b else b + 0x80
  }

  // ---------------------------------------------------------------------
  // Device descriptor, section 9.6.1 (18 bytes)

  datatype DeviceDescriptor = DeviceDescriptor(
    bcdUSB: U16,
    bDeviceClass: Byte,
    bDeviceSubClass: Byte,
    bDeviceProtocol: Byte,
    bMaxPacketSize0: Byte,
    idVendor: U16,
    idProduct: U16,
    bcdDevice: U16,
    iManufacturer: Byte,
    iProduct: Byte,
    iSerialNumber: Byte,
    bNumConfigurations: Byte)

  function DeviceBytes(d: DeviceDescriptor): (r: seq<Byte>)
    ensures |r| == USB_DT_DEVICE_SIZE && r[0] == |r| && r[1] == USB_DT_DEVICE
  {
    [USB_DT_DEVICE_SIZE, USB_DT_DEVICE, Lo(d.bcdUSB), Hi(d.bcdUSB),
     d.bDeviceClass, d.bDeviceSubClass, d.bDeviceProtocol, d.bMaxPacketSize0,
     Lo(d.idVendor), Hi(d.idVendor), Lo(d.idProduct), Hi(d.idProduct),
     Lo(d.bcdDevice), Hi(d.bcdDevice),
     d.iManufacturer, d.iProduct, d.iSerialNumber, d.bNumConfigurations]
  }

  function ParseDevice(r: seq<Byte>): Option<DeviceDescriptor>
  {
    if |r| != USB_DT_DEVICE_SIZE || r[0] != USB_DT_DEVICE_SIZE || r[1] != USB_DT_DEVICE then None
    else Some(DeviceDescriptor(Le16(r[2], r[3]), r[4], r[5], r[6], r[7],
                               Le16(r[8], r[9]), Le16(r[10], r[11]), Le16(r[12], r[13]),
                               r[14], r[15], r[16], r[17]))
  }

  /** Serialising and parsing are inverse: the 18 bytes determine the record and back. */
  lemma DeviceRoundTrip(d: DeviceDescriptor, r: seq<Byte>)
    ensures ParseDevice(DeviceBytes(d)) == Some(d)
    ensures ParseDevice(r) == Some(d) ==> DeviceBytes(d) == r
  {
    Le16Split(d.bcdUSB);
    Le16Split(d.idVendor);
    Le16Split(d.idProduct);
    Le16Split(d.bcdDevice);
    if ParseDevice(r) == Some(d) {
      Le16Parts(r[2], r[3]);
      Le16Parts(r[8], r[9]);
      Le16Parts(r[10], r[11]);
      Le16Parts(r[12], r[13]);
    }
  }

  // ---------------------------------------------------------------------
  // Configuration descriptor, section 9.6.3 (9 bytes)

  datatype ConfigDescriptor = ConfigDescriptor(
    wTotalLength: U16,
    bNumInterfaces: Byte,
    bConfigurationValue: Byte,
    iConfiguration: Byte,
    bmAttributes: Byte,
    bMaxPower: Byte)

  function ConfigBytes(c: ConfigDescriptor): (r: seq<Byte>)
    ensures |r| == USB_DT_CONFIG_SIZE && r[0] == |r| && r[1] == USB_DT_CONFIG
  {
    [USB_DT_CONFIG_SIZE, USB_DT_CONFIG, Lo(c.wTotalLength), Hi(c.wTotalLength),
     c.bNumInterfaces, c.bConfigurationValue, c.iConfiguration, c.bmAttributes, c.bMaxPower]
  }

  function ParseConfig(r: seq<Byte>): Option<ConfigDescriptor>
  {
    if |r| != USB_DT_CONFIG_SIZE || r[0] != USB_DT_CONFIG_SIZE || r[1] != USB_DT_CONFIG then None
    else Some(ConfigDescriptor(Le16(r[2], r[3]), r[4], r[5], r[6], r[7], r[8]))
  }

  lemma ConfigRoundTrip(c: ConfigDescriptor, r: seq<Byte>)
    ensures ParseConfig(ConfigBytes(c)) == Some(c)
    ensures ParseConfig(r) == Some(c) ==> ConfigBytes(c) == r
  {
    Le16Split(c.wTotalLength);
    if ParseConfig(r) == Some(c) {
      Le16Parts(r[2], r[3]);
    }
  }

  // ---------------------------------------------------------------------
  // Interface descriptor, section 9.6.5 (9 bytes)

  datatype InterfaceDescriptor = InterfaceDescriptor(
    bInterfaceNumber: Byte,
    bAlternateSetting: Byte,
    bNumEndpoints: Byte,
    bInterfaceClass: Byte,
    bInterfaceSubClass: Byte,
    bInterfaceProtocol: Byte,
    iInterface: Byte)

  function InterfaceBytes(i: InterfaceDescriptor): (r: seq<Byte>)
    ensures |r| == USB_DT_INTERFACE_SIZE && r[0] == |r| && r[1] == USB_DT_INTERFACE
  {
    [USB_DT_INTERFACE_SIZE, USB_DT_INTERFACE, i.bInterfaceNumber, i.bAlternateSetting,
     i.bNumEndpoints, i.bInterfaceClass, i.bInterfaceSubClass, i.bInterfaceProtocol, i.iInterface]
  }

  function ParseInterface(r: seq<Byte>): Option<InterfaceDescriptor>
  {
    if |r| != USB_DT_INTERFACE_SIZE || r[0] != USB_DT_INTERFACE_SIZE || r[1] != USB_DT_INTERFACE then None
    else Some(InterfaceDescriptor(r[2], r[3], r[4], r[5], r[6], r[7], r[8]))
  }

  lemma InterfaceRoundTrip(i: InterfaceDescriptor, r: seq<Byte>)
    ensures ParseInterface(InterfaceBytes(i)) == Some(i)
    ensures ParseInterface(r) == Some(i) ==> InterfaceBytes(i) == r
  {
  }

  // ---------------------------------------------------------------------
  // Endpoint descriptor, section 9.6.6 (7 bytes)

  datatype EndpointDescriptor = EndpointDescriptor(
    bEndpointAddress: Byte,
    bmAttributes: Byte,
    wMaxPacketSize: U16,
    bInterval: Byte)

  function EndpointBytes(e: EndpointDescriptor): (r: seq<Byte>)
    ensures |r| == USB_DT_ENDPOINT_SIZE && r[0] == |r| && r[1] == USB_DT_ENDPOINT
  {
    [USB_DT_ENDPOINT_SIZE, USB_DT_ENDPOINT, e.bEndpointAddress, e.bmAttributes,
     Lo(e.wMaxPacketSize), Hi(e.wMaxPacketSize), e.bInterval]
  }

  function ParseEndpoint(r: seq<Byte>): Option<EndpointDescriptor>
  {
    if |r| != USB_DT_ENDPOINT_SIZE || r[0] != USB_DT_ENDPOINT_SIZE || r[1] != USB_DT_ENDPOINT then None
    else Some(EndpointDescriptor(r[2], r[3], Le16(r[4], r[5]), r[6]))
  }

  lemma EndpointRoundTrip(e: EndpointDescriptor, r: seq<Byte>)
    ensures ParseEndpoint(EndpointBytes(e)) == Some(e)
    ensures ParseEndpoint(r) == Some(e) ==> EndpointBytes(e) == r
  {
    Le16Split(e.wMaxPacketSize);
    if ParseEndpoint(r) == Some(e) {
      Le16Parts(r[4], r[5]);
    }
  }
}
