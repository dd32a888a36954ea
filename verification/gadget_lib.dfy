/**
  The two descriptor helpers the gadget calls but does not define:
  `usb_gadget_config_buf` (with `usb_descriptor_fillbuf`), which lays a
  configuration header and a list of descriptors end to end and patches the
  header's wTotalLength, and `usb_gadget_get_string`, which answers a string
  descriptor request from a table (section 9.6.7 of the USB 2.0
  specification). Their source files are not part of this model; they are
  given bodies that follow the layouts the standard fixes. Strings are
  restricted to ASCII text, whose UTF-16LE form is each byte followed by 0.
 */
module GadgetLib {
  import opened Ch9

  // ---------------------------------------------------------------------
  // Concatenating descriptors

  /** The sum of the sizes of a list of serialised descriptors. */
  function TotalLength(descs: seq<seq<Byte>>): nat
  {
    if descs == [] then 0 else |descs[0]| + TotalLength(descs[1..])
  }

  function Concat(descs: seq<seq<Byte>>): (r: seq<Byte>)
  {
    if descs == [] then [] else descs[0] + Concat(descs[1..])
  }

  lemma {:induction false} ConcatLength(descs: seq<seq<Byte>>)
    ensures |Concat(descs)| == TotalLength(descs)
  {
    if descs != [] {
      ConcatLength(descs[1..]);
    }
  }

  /**
    Copies each descriptor in turn into a buffer with `room` bytes left,
    failing as soon as the next one does not fit.
   */
  function FillBuf(descs: seq<seq<Byte>>, room: nat): Option<seq<Byte>>
  {
    if descs == [] then Some([])
    else if |descs[0]| > room then None
    else match FillBuf(descs[1..], room - |descs[0]|)
      case None => None
      case Some(rest) => Some(descs[0] + rest)
  }

  /** FillBuf succeeds exactly when the descriptors fit, whatever their order, and then yields them end to end. */
  lemma {:induction false} FillBufFits(descs: seq<seq<Byte>>, room: nat)
    ensures FillBuf(descs, room) == if TotalLength(descs) <= room then Some(Concat(descs)) else None
  {
    if descs != [] {
      if |descs[0]| <= room {
        FillBufFits(descs[1..], room - |descs[0]|);
      }
    }
  }

  /**
    A configuration header followed by `descs` in a buffer of `length` bytes;
    the header's wTotalLength is computed here and bit 7 of its attributes is
    forced on.
   */
  function UsbGadgetConfigBuf(config: ConfigDescriptor, length: nat, descs: seq<seq<Byte>>): Outcome<seq<Byte>>
  {
    if length < USB_DT_CONFIG_SIZE then Err(-EINVAL)
    else match FillBuf(descs, length - USB_DT_CONFIG_SIZE)
      case None => Err(-EINVAL)
      case Some(body) =>
        var total := USB_DT_CONFIG_SIZE + |body|;
        if total > 0xffff then Err(-EINVAL)
        else Ok(ConfigBytes(config.(wTotalLength := total, bmAttributes := SetBit7(config.bmAttributes))) + body)
  }

  /**
    The assembled configuration succeeds exactly when header and descriptors
    fit both the buffer and a 16-bit length; its wTotalLength then equals its
    own size, the header parses back, and the descriptors follow unchanged.
   */
  lemma ConfigBufLayout(config: ConfigDescriptor, length: nat, descs: seq<seq<Byte>>)
    ensures var total := USB_DT_CONFIG_SIZE + TotalLength(descs);
      UsbGadgetConfigBuf(config, length, descs).Ok? <==> total <= length && total <= 0xffff
    ensures UsbGadgetConfigBuf(config, length, descs).Err? ==> UsbGadgetConfigBuf(config, length, descs).code == -EINVAL
    ensures match UsbGadgetConfigBuf(config, length, descs)
      case Err(_) => true
      case Ok(r) =>
        && |r| == USB_DT_CONFIG_SIZE + TotalLength(descs)
        && Le16(r[2], r[3]) == |r|
        && ParseConfig(r[..USB_DT_CONFIG_SIZE])
           == Some(config.(wTotalLength := |r|, bmAttributes := SetBit7(config.bmAttributes)))
        && r[USB_DT_CONFIG_SIZE..] == Concat(descs)
  {
    ConcatLength(descs);
    if length >= USB_DT_CONFIG_SIZE {
      FillBufFits(descs, length - USB_DT_CONFIG_SIZE);
      var total := USB_DT_CONFIG_SIZE + TotalLength(descs);
      if total <= length && total <= 0xffff {
        var c := config.(wTotalLength := total, bmAttributes := SetBit7(config.bmAttributes));
        var r := ConfigBytes(c) + Concat(descs);
        assert r[..USB_DT_CONFIG_SIZE] == ConfigBytes(c);
        ConfigRoundTrip(c, r[..USB_DT_CONFIG_SIZE]);
        Le16Split(total);
      }
    }
  }

  // ---------------------------------------------------------------------
  // String descriptors, section 9.6.7

  /** Text without NUL and below 0x80: its UTF-8 and its character count agree. */
  type AsciiText = s: string | forall i :: 0 <= i < |s| ==> 0 < s[i] as int < 0x80 witness ""

  datatype UsbString = UsbString(id: Byte, text: AsciiText)
  datatype GadgetStrings = GadgetStrings(language: U16, strings: seq<UsbString>)

  /** At most 126 characters fit in a string descriptor (2 + 2 * 126 = 254 bytes). */
  const MAX_STRING_CHARS := 126

  predicate HasId(strings: seq<UsbString>, id: Byte)
  {
    exists i :: 0 <= i < |strings| && strings[i].id == id
  }

  /** Entry `i` is the first one carrying `id`. */
  predicate FirstWithId(strings: seq<UsbString>, id: Byte, i: int)
  {
    0 <= i < |strings| && strings[i].id == id && forall j :: 0 <= j < i ==> strings[j].id != id
  }

  /** The text of the first entry carrying `id`, scanning the table in order. */
  function Lookup(strings: seq<UsbString>, id: Byte): (r: Option<AsciiText>)
    ensures r.Some? <==> HasId(strings, id)
    ensures r.Some? ==> exists i :: FirstWithId(strings, id, i) && strings[i].text == r.value
  {
    if strings == [] then None
    else if strings[0].id == id then Some(strings[0].text)
    else
      var r := Lookup(strings[1..], id);
      assert HasId(strings, id) ==> strings[0].id == id || HasId(strings[1..], id) by {
        if HasId(strings, id) {
          var i :| 0 <= i < |strings| && strings[i].id == id;
          if i > 0 { assert strings[1..][i - 1].id == id; }
        }
      }
      assert r.Some? ==> exists i :: FirstWithId(strings, id, i) && strings[i].text == r.value by {
        if r.Some? {
          var i :| FirstWithId(strings[1..], id, i) && strings[1..][i].text == r.value;
          forall j | 0 <= j < i + 1 ensures strings[j].id != id {
            if j > 0 { assert strings[j] == strings[1..][j - 1]; }
          }
          assert FirstWithId(strings, id, i + 1);
        }
      }
      r
  }

  /** UTF-16LE of ASCII text: each character as a 16-bit little-endian code unit. */
  function Utf16Le(s: AsciiText): (r: seq<Byte>)
    ensures |r| == 2 * |s|
  {
    if s == [] then [] else [s[0] as int, 0] + Utf16Le(s[1..])
  }

  /** Reads ASCII code units back as text; any other code unit is refused. */
  function ParseUnits(u: seq<Byte>): Option<string>
  {
    if u == [] then Some([])
    else if |u| < 2 || !(0 < u[0] < 0x80) || u[1] != 0 then None
    else match ParseUnits(u[2..])
      case None => None
      case Some(t) => Some([u[0] as char] + t)
  }

  lemma {:induction false} UnitsRoundTrip(s: AsciiText)
    ensures ParseUnits(Utf16Le(s)) == Some(s)
  {
    if s != [] {
      var u := Utf16Le(s);
      assert u[2..] == Utf16Le(s[1..]);
      UnitsRoundTrip(s[1..]);
      assert [s[0]] + s[1..] == s;
    }
  }

  /** A string descriptor: length byte, type byte, UTF-16LE text. */
  function StringBytes(s: AsciiText): (r: seq<Byte>)
    requires |s| <= MAX_STRING_CHARS
    ensures |r| == 2 + 2 * |s| && r[0] == |r| && r[1] == USB_DT_STRING
  {
    [2 + 2 * |s|, USB_DT_STRING] + Utf16Le(s)
  }

  /** Reads back the text of a string descriptor whose code units are all ASCII. */
  function ParseString(r: seq<Byte>): Option<string>
  {
    if |r| < 2 || r[0] != |r| || r[1] != USB_DT_STRING then None
    else ParseUnits(r[2..])
  }

  /** Parsing a serialised string descriptor gives the text back. */
  lemma StringRoundTrip(s: AsciiText)
    requires |s| <= MAX_STRING_CHARS
    ensures ParseString(StringBytes(s)) == Some(s)
  {
    assert StringBytes(s)[2..] == Utf16Le(s);
    UnitsRoundTrip(s);
  }

  /**
    `usb_gadget_get_string`: index 0 gives the language list (one language);
    any other index gives the first table entry with that id, its text cut to
    126 characters; an id not in the table is -EINVAL.
   */
  function GetString(table: GadgetStrings, id: Byte): (r: Outcome<seq<Byte>>)
    ensures r.Ok? <==> id == 0 || HasId(table.strings, id)
    ensures r.Err? ==> r.code == -EINVAL
    ensures r.Ok? ==> 2 <= |r.value| <= 2 + 2 * MAX_STRING_CHARS && r.value[0] == |r.value| && r.value[1] == USB_DT_STRING
    ensures r.Ok? && id == 0 ==> r.value == [4, USB_DT_STRING, Lo(table.language), Hi(table.language)]
    ensures r.Ok? && id != 0 ==>
      var text := Lookup(table.strings, id).value;
      ParseString(r.value) == Some(text[..Min(MAX_STRING_CHARS, |text|)])
  {
    if id == 0 then
      Ok([4, USB_DT_STRING, Lo(table.language), Hi(table.language)])
    else match Lookup(table.strings, id)
      case None => Err(-EINVAL)
      case Some(text) =>
        var shown: AsciiText := text[..Min(MAX_STRING_CHARS, |text|)];
        StringRoundTrip(shown);
        Ok(StringBytes(shown))
  }
}
