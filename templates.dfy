/**
  The texts the responder sends: the reply and NOTIFY datagrams that ssdp_send
  prints with SSDP_PACKET_TEMPLATE, and the XML device description that
  get_ssdp_schema_str prints with SSDP_SCHEMA_TEMPLATE, together with the buffer
  sizes ssdp.c computes by hand for them. NULL strings are printed as "".
*/
module Templates {
  import opened CText
  import Uuid

  const RESPONSE_TEMPLATE: string :=
    "HTTP/1.1 200 OK\r\n" + "EXT:\r\n"

  const NOTIFY_TEMPLATE: string :=
    "NOTIFY * HTTP/1.1\r\n" + "HOST: 239.255.255.250:1900\r\n" + "NTS: ssdp:alive\r\n"

  /** Twelve conversions: envelope, interval, three SERVER parts, uuid, suffix, tag, type, address, port, schema URL. */
  const PACKET_TEMPLATE: string :=
    "%s" + "CACHE-CONTROL: max-age=%u\r\n" + "SERVER: %s UPNP/1.1 %s/%s\r\n" + "USN: uuid:%s%s\r\n"
    + "%s: %s\r\n" + "LOCATION: http://%s:%u/%s\r\n" + "\r\n"
  const PACKET_CONVERSIONS: nat := 12

  /** Fifteen conversions: address, port, then thirteen strings. */
  const SCHEMA_TEMPLATE: string :=
    "<?xml version=\"1.0\"?>" + "<root xmlns=\"urn:schemas-upnp-org:device-1-0\">" + "<specVersion>"
    + "<major>1</major>" + "<minor>0</minor>" + "</specVersion>" + "<URLBase>http://%s:%u/</URLBase>"
    + "<device>" + "<deviceType>urn:schemas-upnp-org:device:%s:1</deviceType>"
    + "<friendlyName>%s</friendlyName>" + "<presentationURL>%s</presentationURL>"
    + "<serialNumber>%s</serialNumber>" + "<modelName>%s</modelName>"
    + "<modelDescription>%s</modelDescription>" + "<modelNumber>%s</modelNumber>"
    + "<modelURL>%s</modelURL>" + "<manufacturer>%s</manufacturer>"
    + "<manufacturerURL>%s</manufacturerURL>" + "<UDN>uuid:%s</UDN>"
    + "<serviceList>%s</serviceList>" + "<iconList>%s</iconList>" + "</device>" + "</root>\r\n" + "\r\n"
  const SCHEMA_CONVERSIONS: nat := 15

  /** The fixed parts of SSDP_SCHEMA_TEMPLATE before the URLBase element and after the iconList element. */
  const SCHEMA_HEAD: string :=
    "<?xml version=\"1.0\"?>" + "<root xmlns=\"urn:schemas-upnp-org:device-1-0\">" + "<specVersion>"
    + "<major>1</major>" + "<minor>0</minor>" + "</specVersion>"
  const SCHEMA_TAIL: string := "</device>" + "</root>\r\n" + "\r\n"

  /** Capacity, without the terminator, of the respond_type and usn_suffix buffers. */
  const DEVICE_TYPE_SIZE: nat := 64
  const USN_SUFFIX_SIZE: nat := 64

  lemma TemplateLengths()
    ensures |RESPONSE_TEMPLATE| == 23 && |NOTIFY_TEMPLATE| == 64 && |PACKET_TEMPLATE| == 109
    ensures |SCHEMA_TEMPLATE| == 596 && |SCHEMA_HEAD| == 126 && |SCHEMA_TAIL| == 20
  {
  }

  /** An IPv4 address as its four octets, most significant first. */
  datatype Ip4 = Ip4(a: uint8, b: uint8, c: uint8, d: uint8)

  /** The address ssdp_get_LocalIP reports when no interface has one. */
  const NO_ADDRESS: Ip4 := Ip4(0, 0, 0, 0)

  /** ip4addr_ntoa: dotted decimal, at most 15 characters, digits and dots only. */
  function Dotted(ip: Ip4): (s: string)
    ensures 7 <= |s| <= 15
    ensures forall i :: 0 <= i < |s| ==> s[i] == '.' || IsDigit(s[i])
  {
    Uint8Digits(ip.a);
    Uint8Digits(ip.b);
    Uint8Digits(ip.c);
    Uint8Digits(ip.d);
    Dec(ip.a) + "." + Dec(ip.b) + "." + Dec(ip.c) + "." + Dec(ip.d)
  }

  lemma Uint8Digits(n: uint8)
    ensures |Dec(n)| <= 3
  {
    assert Pow10(3) == 1000 by {
      assert Pow10(1) == 10 && Pow10(2) == 100;
    }
    DecLength(n, 3);
  }

  /** A device without a network interface puts "0.0.0.0" in its LOCATION and URLBase. */
  lemma NoAddressText()
    ensures Dotted(NO_ADDRESS) == "0.0.0.0"
  {
  }

  /** The ssdp_method_t passed to ssdp_send: NONE for a reply to a search, NOTIFY for an announcement. */
  datatype SendKind = Reply | Notify

  /** The strings of the running task configuration that the templates print. */
  datatype Identity = Identity(
    uuid: string,
    schemaUrl: Option<string>,
    deviceType: Option<string>,
    friendlyName: Option<string>,
    serialNumber: Option<string>,
    presentationUrl: Option<string>,
    manufacturerName: Option<string>,
    manufacturerUrl: Option<string>,
    modelName: Option<string>,
    modelUrl: Option<string>,
    modelNumber: Option<string>,
    modelDescription: Option<string>,
    serverName: Option<string>,
    servicesDescription: Option<string>,
    iconsDescription: Option<string>)

  // ---- the datagram ----

  function Envelope(kind: SendKind): string
  {
    if kind == Reply then RESPONSE_TEMPLATE else NOTIFY_TEMPLATE
  }

  /** The name of the header that carries the search or notification type. */
  function Tag(kind: SendKind): string
  {
    if kind == Reply then "ST" else "NT"
  }

  /** The lines of the envelope, each of which the template ends with CRLF. */
  function EnvelopeLines(kind: SendKind): seq<string>
  {
    if kind == Reply then ["HTTP/1.1 200 OK", "EXT:"]
    else ["NOTIFY * HTTP/1.1", "HOST: 239.255.255.250:1900", "NTS: ssdp:alive"]
  }

  /** A header line as the template prints it. */
  function Header(name: string, value: string): string
  {
    name + ": " + value
  }

  /**
    The lines SSDP_PACKET_TEMPLATE prints after the envelope. The last, empty,
    line is the blank line that ends the header block.
  */
  function PacketBody(kind: SendKind, id: Identity, interval: uint32, port: uint16,
                      usnSuffix: string, respondType: string, ip: Ip4): seq<string>
  {
    [Header("CACHE-CONTROL", "max-age=" + Dec(interval)),
     Header("SERVER", OrEmpty(id.serverName) + " UPNP/1.1 " + OrEmpty(id.modelName) + "/" + OrEmpty(id.modelNumber)),
     Header("USN", "uuid:" + id.uuid + usnSuffix),
     Header(Tag(kind), respondType),
     Header("LOCATION", "http://" + Dotted(ip) + ":" + Dec(port) + "/" + OrEmpty(id.schemaUrl)),
     ""]
  }

  /** Lines, each followed by CRLF. */
  function Join(ls: seq<string>): string
  {
    if ls == [] then "" else ls[0] + "\r\n" + Join(ls[1..])
  }

  /** The datagram ssdp_send prints: the envelope, then each template line followed by CRLF. */
  function PacketText(kind: SendKind, id: Identity, interval: uint32, port: uint16,
                      usnSuffix: string, respondType: string, ip: Ip4): string
  {
    Envelope(kind) + Join(PacketBody(kind, id, interval, port, usnSuffix, respondType, ip))
  }

  lemma JoinStep(ls: seq<string>, k: nat)
    requires k < |ls|
    ensures Join(ls[k..]) == ls[k] + "\r\n" + Join(ls[k + 1..])
  {
    assert ls[k..][1..] == ls[k + 1..];
  }

  lemma JoinLength6(ls: seq<string>)
    requires |ls| == 6
    ensures |Join(ls)| == |ls[0]| + |ls[1]| + |ls[2]| + |ls[3]| + |ls[4]| + |ls[5]| + 12
  {
    assert ls[0..] == ls;
    JoinStep(ls, 0); JoinStep(ls, 1); JoinStep(ls, 2);
    JoinStep(ls, 3); JoinStep(ls, 4); JoinStep(ls, 5);
    assert ls[6..] == [];
  }

  /** The datagram's length: the template's, less its conversions, plus what they print. */
  lemma PacketLength(kind: SendKind, id: Identity, interval: uint32, port: uint16,
                     usnSuffix: string, respondType: string, ip: Ip4)
    ensures |PacketText(kind, id, interval, port, usnSuffix, respondType, ip)|
            == |PACKET_TEMPLATE| - 2 * PACKET_CONVERSIONS + |Envelope(kind)| + |Dec(interval)|
               + |OrEmpty(id.serverName)| + |OrEmpty(id.modelName)| + |OrEmpty(id.modelNumber)|
               + |id.uuid| + |usnSuffix| + |Tag(kind)| + |respondType| + |Dotted(ip)| + |Dec(port)|
               + |OrEmpty(id.schemaUrl)|
  {
    JoinLength6(PacketBody(kind, id, interval, port, usnSuffix, respondType, ip));
    TemplateLengths();
  }

  /**
    msg_buffer_size of ssdp_send: a fixed allowance for the interval (5), the UUID,
    the suffix, the tag (2), the address (16) and the port (5), strlen for the
    other strings and 1 for a NULL one.
  */
  function PacketBufferSize(kind: SendKind, id: Identity, respondType: string): nat
  {
    |PACKET_TEMPLATE| + |Envelope(kind)| + 5
    + LenOrOne(id.serverName) + LenOrOne(id.modelName) + LenOrOne(id.modelNumber)
    + Uuid.UUID_SIZE + USN_SUFFIX_SIZE + 2 + |respondType| + 16 + 5 + LenOrOne(id.schemaUrl)
  }

  /**
    snprintf into msg_buffer_size characters keeps the whole datagram: the text is
    strictly shorter than the size (room for the terminator) whenever the UUID and
    the suffix fit their buffers, even for a ten-digit interval.
  */
  lemma PacketFits(kind: SendKind, id: Identity, interval: uint32, port: uint16,
                   usnSuffix: string, respondType: string, ip: Ip4)
    requires |id.uuid| <= Uuid.UUID_SIZE && |usnSuffix| <= USN_SUFFIX_SIZE
    ensures |PacketText(kind, id, interval, port, usnSuffix, respondType, ip)|
            < PacketBufferSize(kind, id, respondType)
  {
    PacketLength(kind, id, interval, port, usnSuffix, respondType, ip);
    Uint32Digits(interval);
    Uint16Digits(port);
  }

  // ---- the description ----

  /** An XML element with its text content. */
  function Element(tag: string, content: string): (r: string)
    ensures |r| == 2 * |tag| + 5 + |content|
  {
    "<" + tag + ">" + content + "</" + tag + ">"
  }

  /** The parts of the description, one per element of SSDP_SCHEMA_TEMPLATE. */
  function DescriptionParts(id: Identity, ip: Ip4, port: uint16): seq<string>
  {
    [SCHEMA_HEAD,
     Element("URLBase", "http://" + Dotted(ip) + ":" + Dec(port) + "/"),
     "<device>",
     Element("deviceType", "urn:schemas-upnp-org:device:" + OrEmpty(id.deviceType) + ":1"),
     Element("friendlyName", OrEmpty(id.friendlyName)),
     Element("presentationURL", OrEmpty(id.presentationUrl)),
     Element("serialNumber", OrEmpty(id.serialNumber)),
     Element("modelName", OrEmpty(id.modelName)),
     Element("modelDescription", OrEmpty(id.modelDescription)),
     Element("modelNumber", OrEmpty(id.modelNumber)),
     Element("modelURL", OrEmpty(id.modelUrl)),
     Element("manufacturer", OrEmpty(id.manufacturerName)),
     Element("manufacturerURL", OrEmpty(id.manufacturerUrl)),
     Element("UDN", "uuid:" + id.uuid),
     Element("serviceList", OrEmpty(id.servicesDescription)),
     Element("iconList", OrEmpty(id.iconsDescription)),
     SCHEMA_TAIL]
  }

  /** The parts one after the other. */
  function Concat(parts: seq<string>): string
  {
    if parts == [] then "" else parts[0] + Concat(parts[1..])
  }

  /** The description get_ssdp_schema_str prints. */
  function DescriptionText(id: Identity, ip: Ip4, port: uint16): string
  {
    Concat(DescriptionParts(id, ip, port))
  }

  lemma ConcatStep(parts: seq<string>, k: nat)
    requires k < |parts|
    ensures |Concat(parts[k..])| == |parts[k]| + |Concat(parts[k + 1..])|
  {
    assert parts[k..][1..] == parts[k + 1..];
  }

  lemma ConcatLength17(parts: seq<string>)
    requires |parts| == 17
    ensures |Concat(parts)| == |parts[0]| + |parts[1]| + |parts[2]| + |parts[3]| + |parts[4]| + |parts[5]|
                               + |parts[6]| + |parts[7]| + |parts[8]| + |parts[9]| + |parts[10]| + |parts[11]|
                               + |parts[12]| + |parts[13]| + |parts[14]| + |parts[15]| + |parts[16]|
  {
    assert parts[0..] == parts;
    ConcatStep(parts, 0); ConcatStep(parts, 1); ConcatStep(parts, 2); ConcatStep(parts, 3);
    ConcatStep(parts, 4); ConcatStep(parts, 5); ConcatStep(parts, 6); ConcatStep(parts, 7);
    ConcatStep(parts, 8); ConcatStep(parts, 9); ConcatStep(parts, 10); ConcatStep(parts, 11);
    ConcatStep(parts, 12); ConcatStep(parts, 13); ConcatStep(parts, 14); ConcatStep(parts, 15);
    ConcatStep(parts, 16);
    assert parts[17..] == [];
  }

  /** The description's length: the template's, less its conversions, plus what they print. */
  lemma DescriptionLength(id: Identity, ip: Ip4, port: uint16)
    ensures |DescriptionText(id, ip, port)|
            == |SCHEMA_TEMPLATE| - 2 * SCHEMA_CONVERSIONS + |Dotted(ip)| + |Dec(port)|
               + |OrEmpty(id.deviceType)| + |OrEmpty(id.friendlyName)| + |OrEmpty(id.presentationUrl)|
               + |OrEmpty(id.serialNumber)| + |OrEmpty(id.modelName)| + |OrEmpty(id.modelDescription)|
               + |OrEmpty(id.modelNumber)| + |OrEmpty(id.modelUrl)| + |OrEmpty(id.manufacturerName)|
               + |OrEmpty(id.manufacturerUrl)| + |id.uuid| + |OrEmpty(id.servicesDescription)|
               + |OrEmpty(id.iconsDescription)|
  {
    ConcatLength17(DescriptionParts(id, ip, port));
    HeadPartsLength(id, ip, port);
    TailPartsLength(id, ip, port);
    TemplateLengths();
  }

  lemma HeadPartsLength(id: Identity, ip: Ip4, port: uint16)
    ensures var p := DescriptionParts(id, ip, port);
            |p[0]| + |p[1]| + |p[2]| + |p[3]| + |p[4]| + |p[5]| + |p[6]| + |p[7]| + |p[8]|
            == 370 + |Dotted(ip)| + |Dec(port)| + |OrEmpty(id.deviceType)| + |OrEmpty(id.friendlyName)|
               + |OrEmpty(id.presentationUrl)| + |OrEmpty(id.serialNumber)| + |OrEmpty(id.modelName)|
               + |OrEmpty(id.modelDescription)|
  {
    TemplateLengths();
  }

  lemma TailPartsLength(id: Identity, ip: Ip4, port: uint16)
    ensures var p := DescriptionParts(id, ip, port);
            |p[9]| + |p[10]| + |p[11]| + |p[12]| + |p[13]| + |p[14]| + |p[15]| + |p[16]|
            == 196 + |OrEmpty(id.modelNumber)| + |OrEmpty(id.modelUrl)| + |OrEmpty(id.manufacturerName)|
               + |OrEmpty(id.manufacturerUrl)| + |id.uuid| + |OrEmpty(id.servicesDescription)|
               + |OrEmpty(id.iconsDescription)|
  {
    TemplateLengths();
  }

  /**
    template_size of get_ssdp_schema_str: sizeof the template (its length plus the
    terminator), 15 for the address, 5 for the port, strlen of each string and 1
    for a NULL one. The buffer allocated is one longer.
  */
  function DescriptionSize(id: Identity): nat
  {
    |SCHEMA_TEMPLATE| + 1 + 15 + 5
    + LenOrOne(id.deviceType) + LenOrOne(id.friendlyName) + LenOrOne(id.presentationUrl)
    + LenOrOne(id.serialNumber) + LenOrOne(id.modelName) + LenOrOne(id.modelDescription)
    + LenOrOne(id.modelNumber) + LenOrOne(id.modelUrl) + LenOrOne(id.manufacturerName)
    + LenOrOne(id.manufacturerUrl) + |id.uuid| + LenOrOne(id.servicesDescription)
    + LenOrOne(id.iconsDescription)
  }

  /** The sprintf of get_ssdp_schema_str never overruns: text and terminator fit the template_size + 1 chars allocated. */
  lemma DescriptionFits(id: Identity, ip: Ip4, port: uint16)
    ensures |DescriptionText(id, ip, port)| + 1 <= DescriptionSize(id) + 1
  {
    DescriptionLength(id, ip, port);
    Uint16Digits(port);
  }

  /** e occurs in s at index i. */
  predicate OccursAt(s: string, e: string, i: nat)
  {
    i + |e| <= |s| && s[i..i + |e|] == e
  }

  predicate Contains(s: string, e: string)
  {
    exists i: nat | i <= |s| :: OccursAt(s, e, i)
  }

  lemma {:induction false} ConcatContains(parts: seq<string>, k: nat)
    requires k < |parts|
    ensures Contains(Concat(parts), parts[k])
  {
    if k == 0 {
      assert OccursAt(Concat(parts), parts[0], 0);
    } else {
      ConcatContains(parts[1..], k - 1);
      var i: nat :| i <= |Concat(parts[1..])| && OccursAt(Concat(parts[1..]), parts[k], i);
      assert OccursAt(Concat(parts), parts[k], |parts[0]| + i);
    }
  }

  /**
    The description names the device by its UUID in the UDN element and by its
    type in the deviceType element, carries the friendly name and points back to
    the responder's own address and port.
  */
  lemma DescriptionElements(id: Identity, ip: Ip4, port: uint16)
    ensures var doc := DescriptionText(id, ip, port);
            && Contains(doc, Element("UDN", "uuid:" + id.uuid))
            && Contains(doc, Element("deviceType", "urn:schemas-upnp-org:device:" + OrEmpty(id.deviceType) + ":1"))
            && Contains(doc, Element("URLBase", "http://" + Dotted(ip) + ":" + Dec(port) + "/"))
            && Contains(doc, Element("friendlyName", OrEmpty(id.friendlyName)))
  {
    DescriptionHas(id, ip, port, 1);
    DescriptionHas(id, ip, port, 3);
    DescriptionHas(id, ip, port, 4);
    DescriptionHas(id, ip, port, 13);
  }

  lemma DescriptionHas(id: Identity, ip: Ip4, port: uint16, k: nat)
    requires k < 17
    ensures Contains(DescriptionText(id, ip, port), DescriptionParts(id, ip, port)[k])
  {
    ConcatContains(DescriptionParts(id, ip, port), k);
  }
}
