/**
  The responder's state and its operations: the task configuration record that
  onPacket, ssdp_send and the notify block of the receive loop update in place,
  and the two globals (ssdp_task_config and multicast_socket) that ssdp_start,
  ssdp_stop and get_ssdp_schema_str set, clear and read.
*/
module Engine {
  import opened CText
  import opened Timing
  import opened Templates
  import Uuid
  import opened Parser
  import ParserFacts

  const SSDP_PORT: uint16 := 1900
  const MULTICAST_ADDR: Ip4 := Ip4(239, 255, 255, 250)

  /** Caps on the configured strings; a string as long as its cap is accepted. */
  const SCHEMA_URL_SIZE: nat := 64
  const FRIENDLY_NAME_SIZE: nat := 64
  const SERIAL_NUMBER_SIZE: nat := 32
  const PRESENTATION_URL_SIZE: nat := 128
  const MODEL_NAME_SIZE: nat := 64
  const MODEL_URL_SIZE: nat := 128
  const MODEL_NUMBER_SIZE: nat := 32
  const MODEL_DESCRIPTION_SIZE: nat := 64
  const SERVER_NAME_SIZE: nat := 64
  const MANUFACTURER_NAME_SIZE: nat := 64
  const MANUFACTURER_URL_SIZE: nat := 128
  const SERVICES_DESCRIPTION_SIZE: nat := 256
  const ICONS_DESCRIPTION_SIZE: nat := 256

  /** The esp_err_t values the lifecycle calls return. */
  datatype EspErr = Ok | InvalidArg | InvalidState | Fail

  /** ssdp_config_t without the task priority, stack size and core. */
  datatype Config = Config(
    ttl: uint8,
    port: uint16,
    interval: uint32,
    mxMaxDelay: uint16,
    uuidRoot: Option<string>,
    uuid: Option<string>,
    schemaUrl: Option<string>,
    deviceType: Option<string>,
    friendlyName: Option<string>,
    serialNumber: Option<string>,
    presentationUrl: Option<string>,
    manufacturerName: Option<string>,
    manufacturerUrl: Option<string>,
    modelName: Option<string>,
    modelUrl: Option<string>,
    modelNumber: Option<string>,
    modelDescription: Option<string>,
    serverName: Option<string>,
    servicesDescription: Option<string>,
    iconsDescription: Option<string>)

  /** SDDP_DEFAULT_CONFIG. */
  const DEFAULT_CONFIG: Config := Config(
    2, 80, 1200, 10000, None, None,
    Some("description.xml"), Some("Basic"), Some("ESP32"), Some("000000"), Some("/"),
    Some("Espressif Systems"), Some("https://www.espressif.com"), Some("ESP32"),
    Some("https://www.espressif.com"), Some("12345"), None, Some("SSDPServer/1.0"), None, None)

  /** An IPv4 address and port. */
  datatype Endpoint = Endpoint(addr: Ip4, port: uint16)

  /** A datagram handed to sendto. */
  datatype Datagram = Datagram(to: Endpoint, payload: string)

  /** A NULL string or one no longer than cap. */
  predicate Fits(o: Option<string>, cap: nat) { o.None? || |o.value| <= cap }

  /** The length checks ssdp_start makes on the configured strings, in its order. */
  predicate FieldsFit(c: Config)
  {
    && Fits(c.schemaUrl, SCHEMA_URL_SIZE) && Fits(c.deviceType, DEVICE_TYPE_SIZE)
    && Fits(c.friendlyName, FRIENDLY_NAME_SIZE) && Fits(c.serialNumber, SERIAL_NUMBER_SIZE)
    && Fits(c.presentationUrl, PRESENTATION_URL_SIZE) && Fits(c.manufacturerName, MANUFACTURER_NAME_SIZE)
    && Fits(c.manufacturerUrl, MANUFACTURER_URL_SIZE) && Fits(c.modelName, MODEL_NAME_SIZE)
    && Fits(c.modelUrl, MODEL_URL_SIZE) && Fits(c.modelNumber, MODEL_NUMBER_SIZE)
    && Fits(c.modelDescription, MODEL_DESCRIPTION_SIZE) && Fits(c.serverName, SERVER_NAME_SIZE)
    && Fits(c.servicesDescription, SERVICES_DESCRIPTION_SIZE) && Fits(c.iconsDescription, ICONS_DESCRIPTION_SIZE)
  }

  /** The same caps on the strings held by the task configuration. */
  predicate IdentityFits(id: Identity)
  {
    && |id.uuid| <= Uuid.UUID_SIZE
    && Fits(id.schemaUrl, SCHEMA_URL_SIZE) && Fits(id.deviceType, DEVICE_TYPE_SIZE)
    && Fits(id.friendlyName, FRIENDLY_NAME_SIZE) && Fits(id.serialNumber, SERIAL_NUMBER_SIZE)
    && Fits(id.presentationUrl, PRESENTATION_URL_SIZE) && Fits(id.manufacturerName, MANUFACTURER_NAME_SIZE)
    && Fits(id.manufacturerUrl, MANUFACTURER_URL_SIZE) && Fits(id.modelName, MODEL_NAME_SIZE)
    && Fits(id.modelUrl, MODEL_URL_SIZE) && Fits(id.modelNumber, MODEL_NUMBER_SIZE)
    && Fits(id.modelDescription, MODEL_DESCRIPTION_SIZE) && Fits(id.serverName, SERVER_NAME_SIZE)
    && Fits(id.servicesDescription, SERVICES_DESCRIPTION_SIZE) && Fits(id.iconsDescription, ICONS_DESCRIPTION_SIZE)
  }

  /** The strings a successful start copies, with the selected UUID. */
  function IdentityOf(c: Config, uuid: string): Identity
  {
    Identity(uuid, c.schemaUrl, c.deviceType, c.friendlyName, c.serialNumber, c.presentationUrl,
             c.manufacturerName, c.manufacturerUrl, c.modelName, c.modelUrl, c.modelNumber,
             c.modelDescription, c.serverName, c.servicesDescription, c.iconsDescription)
  }

  /**
    What ssdp_start returns for a configuration: INVALID_STATE while a task
    configuration or a socket is left, INVALID_ARG for a UUID that cannot be
    selected or a string over its cap, FAIL when the task cannot be created.
  */
  function StartOutcome(c: Config, started: bool, mac: seq<uint8>, macRead: bool, taskCreated: bool): EspErr
    requires |mac| == 6
  {
    if started then InvalidState
    else if Uuid.SelectUuid(c.uuidRoot, c.uuid, mac, macRead).None? then InvalidArg
    else if !FieldsFit(c) then InvalidArg
    else if !taskCreated then Fail
    else Ok
  }

  /**
    The rules of ssdp_start: INVALID_STATE while started; INVALID_ARG for a root
    that is not 30 characters, for a full UUID that is not 37, and for any string
    over its cap.
  */
  lemma StartRules(c: Config, mac: seq<uint8>, macRead: bool, taskCreated: bool)
    requires |mac| == 6
    ensures |Uuid.UUID_ROOT| == 30
    ensures StartOutcome(c, true, mac, macRead, taskCreated) == InvalidState
    ensures Uuid.Blank(c.uuid) && !Uuid.Blank(c.uuidRoot) && |c.uuidRoot.value| != 30
            ==> StartOutcome(c, false, mac, macRead, taskCreated) == InvalidArg
    ensures !Uuid.Blank(c.uuid) && |c.uuid.value| != 37
            ==> StartOutcome(c, false, mac, macRead, taskCreated) == InvalidArg
    ensures !FieldsFit(c) ==> StartOutcome(c, false, mac, macRead, taskCreated) == InvalidArg
  {
    assert |Uuid.UUID_ROOT| == 30;
  }

  /** A string exactly as long as its cap is accepted, one character more is not. */
  lemma CapIsInclusive(mac: seq<uint8>, macRead: bool)
    requires |mac| == 6
    ensures StartOutcome(DEFAULT_CONFIG.(serialNumber := Some(Zeros32())), false, mac, macRead, true) == Ok
    ensures StartOutcome(DEFAULT_CONFIG.(serialNumber := Some(Zeros32() + "0")), false, mac, macRead, true)
            == InvalidArg
  {
    assert |Zeros32()| == SERIAL_NUMBER_SIZE;
  }

  /** A serial number of 32 characters. */
  function Zeros32(): (s: string)
    ensures |s| == 32
  {
    "00000000000000000000000000000000"
  }

  /** ssdp_start copies friendly_name without a NULL check once the checks before it pass. */
  predicate ReachesFriendlyName(c: Config, mac: seq<uint8>, macRead: bool)
    requires |mac| == 6
  {
    && Uuid.SelectUuid(c.uuidRoot, c.uuid, mac, macRead).Some?
    && Fits(c.schemaUrl, SCHEMA_URL_SIZE) && Fits(c.deviceType, DEVICE_TYPE_SIZE)
  }

  /** buffer[cursor++] = c; buffer[cursor] = '\0'; */
  method Store(buffer: array<char>, cursor: nat, c: char) returns (next: nat)
    requires buffer.Length == BUFFER_SIZE && cursor < BUFFER_SIZE - 1
    modifies buffer
    ensures next == cursor + 1
    ensures buffer[..] == old(buffer[..])[cursor := c][cursor + 1 := '\0']
  {
    buffer[cursor] := c;
    next := cursor + 1;
    buffer[next] := '\0';
  }

  /** The METHOD case of onPacket's switch, on the reader state s it holds. */
  method MethodByte(buffer: array<char>, cursor: nat, c: char, ghost s: Scanner) returns (phase: Phase, next: nat)
    requires buffer.Length == BUFFER_SIZE && Shaped(s) && s.phase == Method
    requires s.buffer == buffer[..] && s.cursor == cursor
    modifies buffer
    ensures MethodStep(s, c) == s.(phase := phase, cursor := next, buffer := buffer[..])
  {
    phase, next := Method, cursor;
    if c == ' ' {
      phase := if CStr(buffer[..]) == "M-SEARCH" then Uri else Abort;
      next := 0;
    } else if cursor < METHOD_SIZE - 1 {
      next := Store(buffer, cursor, c);
    }
  }

  /** The URI case of onPacket's switch. */
  method UriByte(buffer: array<char>, cursor: nat, c: char, ghost s: Scanner) returns (phase: Phase, next: nat)
    requires buffer.Length == BUFFER_SIZE && Shaped(s) && s.phase == Uri
    requires s.buffer == buffer[..] && s.cursor == cursor
    modifies buffer
    ensures UriStep(s, c) == s.(phase := phase, cursor := next, buffer := buffer[..])
  {
    phase, next := Uri, cursor;
    if c == ' ' {
      phase := if CStr(buffer[..]) != "*" then Abort else Proto;
      next := 0;
    } else if cursor < URI_SIZE - 1 {
      next := Store(buffer, cursor, c);
    }
  }

  /** The KEY case of onPacket's switch. */
  method KeyByte(buffer: array<char>, cursor: nat, cr: uint8, pending: bool, stmatch: bool, c: char, ghost s: Scanner)
    returns (phase: Phase, pend: bool, next: nat)
    requires buffer.Length == BUFFER_SIZE && Shaped(s) && s.phase == Key
    requires s.buffer == buffer[..] && s.cursor == cursor && s.cr == cr && s.pending == pending && s.stmatch == stmatch
    modifies buffer
    ensures KeyStep(s, c) == s.(phase := phase, pending := pend, cursor := next, buffer := buffer[..])
  {
    phase, pend, next := Key, pending, cursor;
    if cr == 4 {
      if stmatch {
        pend := true;
      }
    } else if c == ':' {
      next := 0;
      phase := Value;
    } else if c != '\r' && c != '\n' && c != ' ' && cursor < BUFFER_SIZE - 1 {
      next := Store(buffer, cursor, c);
    }
  }

  /** strncmp(buffer, "MA", 2) == 0 looks at the first two bytes of the buffer. */
  lemma StartsWithMA(b: seq<char>)
    requires |b| >= 2
    ensures (b[0] == 'M' && b[1] == 'A') <==> (|CStr(b)| >= 2 && CStr(b)[..2] == "MA")
  {
    var k := CStr(b);
    if b[0] == 'M' && b[1] == 'A' {
      assert |k| != 0 && |k| != 1;
      assert k[..2] == b[..2];
    }
    if |k| >= 2 && k[..2] == "MA" {
      assert b[0] == k[..2][0] && b[1] == k[..2][1];
    }
  }

  /** A VALUE byte other than CR and LF: the header kind is fixed at the first byte that is not a space. */
  method ValueText(buffer: array<char>, header: HeaderKind, cursor: nat, c: char, ghost s: Scanner)
    returns (h: HeaderKind, next: nat)
    requires buffer.Length == BUFFER_SIZE && Shaped(s) && s.phase == Value && !IsCrLf(c)
    requires s.buffer == buffer[..] && s.cursor == cursor && s.header == header && header != Start
    modifies buffer
    ensures ValueChar(s, c) == s.(header := h, cursor := next, buffer := buffer[..])
  {
    h, next := header, cursor;
    if h == Strip {
      if c == ' ' {
        return;
      }
      h := Start;
    }
    if h == Start {
      StartsWithMA(buffer[..]);
      if buffer[0] == 'M' && buffer[1] == 'A' {
        h := Man;
      } else if CStr(buffer[..]) == "ST" {
        h := St;
      } else if CStr(buffer[..]) == "MX" {
        h := Mx;
      } else {
        h := Skip;
      }
    }
    if next < BUFFER_SIZE - 1 {
      next := Store(buffer, next, c);
    }
  }

  /**
    snprintf(dest, limit, "%s", text): at most limit - 1 characters and a
    terminator; n is what strlen reads back.
  */
  method Print(dest: array<char>, text: string, limit: nat) returns (n: nat)
    requires 0 < limit <= dest.Length
    modifies dest
    ensures n == Min(|text|, limit - 1)
    ensures dest[..n] == text[..n] && dest[n] == '\0'
  {
    n := Min(|text|, limit - 1);
    for k := 0 to n
      invariant dest[..k] == text[..k]
    {
      dest[k] := text[k];
    }
    dest[n] := '\0';
  }

  /** The task configuration record ssdp_task_config points to. */
  class TaskConfig {
    var ttl: uint8
    var port: uint16
    var interval: uint32
    var mxMaxDelay: uint16
    /** uuid and the strings copied from the configuration. */
    var id: Identity
    var respondType: string
    var usnSuffix: string
    var schema: Option<string>
    var delay: int
    var notifyTime: uint64

    /** What every operation keeps: strings within their caps and the reader's fields within theirs. */
    ghost predicate Valid()
      reads this
    {
      IdentityFits(id) && FieldsWithinLimits(respondType, usnSuffix)
    }

    /** The zeroed record calloc returns, with the numbers copied from the configuration. */
    constructor(port: uint16, ttl: uint8, interval: uint32, mxMaxDelay: uint16)
      ensures this.port == port && this.ttl == ttl && this.interval == interval && this.mxMaxDelay == mxMaxDelay
      ensures id == Identity("", None, None, None, None, None, None, None, None, None, None, None, None, None, None)
      ensures respondType == "" && usnSuffix == "" && schema == None && delay == 0 && notifyTime == 0
      ensures Valid()
    {
      this.port := port;
      this.ttl := ttl;
      this.interval := interval;
      this.mxMaxDelay := mxMaxDelay;
      id := Identity("", None, None, None, None, None, None, None, None, None, None, None, None, None, None);
      respondType := "";
      usnSuffix := "";
      schema := None;
      delay := 0;
      notifyTime := 0;
    }

    /** What the reader takes from the record, with rand()'s value. */
    function Ctx(draw: RandValue): Context
      reads this
    {
      Context(id.deviceType, mxMaxDelay, draw)
    }

    /** onPacket's variables and the fields it writes, as a reader state. */
    ghost function Reader(phase: Phase, header: HeaderKind, pending: bool, stmatch: bool,
                          cursor: nat, cr: uint8, buffer: array<char>): Scanner
      reads this, buffer
    {
      Scanner(phase, header, pending, stmatch, cursor, cr, buffer[..], respondType, usnSuffix, delay, false)
    }

    /** The VALUE case when CR LF ends the value: the ST or MX header takes effect. */
    method EndOfValue(buffer: array<char>, header: HeaderKind, cursor: nat, stmatch: bool,
                      draw: RandValue, ghost s: Scanner)
      returns (phase: Phase, h: HeaderKind, matched: bool, next: nat)
      requires buffer.Length == BUFFER_SIZE && Shaped(s) && s.phase == Value
      requires s.buffer == buffer[..] && s.cursor == cursor && s.header == header && s.stmatch == stmatch
      requires s.respondType == respondType && s.usnSuffix == usnSuffix && s.delay == delay
      requires !EndValue(Ctx(draw), s).undefined
      modifies this`respondType, this`usnSuffix, this`delay
      ensures EndValue(Ctx(draw), s)
              == s.(phase := phase, header := h, stmatch := matched, cursor := next,
                    respondType := respondType, usnSuffix := usnSuffix, delay := delay)
    {
      var v := CStr(buffer[..]);
      phase, h, matched, next := Value, header, stmatch, cursor;
      if header == St {
        phase, matched := StHeader(v, stmatch, draw, s);
      } else if header == Mx {
        MxHeader(v, draw, s);
      }
      if phase != Abort {
        phase, h, next := Key, Strip, 0;
      }
    }

    /** An ST value: the search target is kept, and matched against ssdp:all, upnp:rootdevice and the device type. */
    method StHeader(v: string, stmatch: bool, draw: RandValue, ghost s: Scanner) returns (phase: Phase, matched: bool)
      requires s.phase == Value && s.stmatch == stmatch && !StValue(Ctx(draw), s, v).undefined
      modifies this`respondType, this`usnSuffix
      ensures StValue(Ctx(draw), s, v)
              == s.(phase := phase, stmatch := matched, respondType := respondType, usnSuffix := usnSuffix)
    {
      respondType := Truncate(v, DEVICE_TYPE_SIZE);
      usnSuffix := "";
      phase, matched := Value, stmatch;
      if v == "ssdp:all" || v == "upnp:rootdevice" {
        matched := true;
        usnSuffix := "::upnp:rootdevice";
      } else if CaseEqual(v, id.deviceType.value) {
        matched := true;
        usnSuffix := Truncate("::" + id.deviceType.value, USN_SUFFIX_SIZE);
      } else {
        phase := Abort;
      }
    }

    /** An MX value: a random delay up to the given seconds, in milliseconds, capped at mx_max_delay. */
    method MxHeader(v: string, draw: RandValue, ghost s: Scanner)
      requires !MxValue(Ctx(draw), s, v).undefined
      modifies this`delay
      ensures MxValue(Ctx(draw), s, v) == s.(delay := delay)
    {
      delay := Random(0, Atoi(v), draw) * 1000;
      if delay > mxMaxDelay {
        delay := mxMaxDelay;
      }
    }

    /** One iteration of onPacket's loop: the CR/LF count, then the case of the switch for the current state. */
    method ReadByte(buffer: array<char>, phase: Phase, header: HeaderKind, pending: bool, stmatch: bool,
                    cursor: nat, cr: uint8, c: char, draw: RandValue)
      returns (phase': Phase, header': HeaderKind, pending': bool, stmatch': bool, cursor': nat, cr': uint8)
      requires buffer.Length == BUFFER_SIZE
      requires Inv(Reader(phase, header, pending, stmatch, cursor, cr, buffer))
      requires !Step(Ctx(draw), Reader(phase, header, pending, stmatch, cursor, cr, buffer), c).undefined
      modifies buffer, this`respondType, this`usnSuffix, this`delay
      ensures Reader(phase', header', pending', stmatch', cursor', cr', buffer)
              == Step(Ctx(draw), old(Reader(phase, header, pending, stmatch, cursor, cr, buffer)), c)
    {
      ghost var s := Reader(phase, header, pending, stmatch, cursor, cr, buffer);
      phase', header', pending', stmatch', cursor' := phase, header, pending, stmatch, cursor;
      if c == '\r' || c == '\n' {
        cr' := (cr + 1) % 256;
      } else {
        cr' := 0;
      }
      ghost var s1 := s.(cr := cr');
      match phase {
        case Method =>
          phase', cursor' := MethodByte(buffer, cursor, c, s1);
        case Uri =>
          phase', cursor' := UriByte(buffer, cursor, c, s1);
        case Proto =>
          if cr' == 2 {
            phase', cursor' := Key, 0;
          }
        case Key =>
          phase', pending', cursor' := KeyByte(buffer, cursor, cr', pending, stmatch, c, s1);
        case Value =>
          if cr' == 2 {
            phase', header', stmatch', cursor' := EndOfValue(buffer, header, cursor, stmatch, draw, s1);
          } else if c != '\r' && c != '\n' {
            header', cursor' := ValueText(buffer, header, cursor, c, s1);
          }
        case Abort =>
          pending' := false;
          delay := 0;
      }
    }

    /**
      onPacket: one pass over the len bytes of buf with a zeroed 64-byte scratch
      buffer; afterwards a reply is sent to the sender iff pending is set, and the
      delay is reset to 0 first. The result is what the reader function Scan
      computes from the same bytes and the fields as they were.
    */
    method OnPacket(buf: array<char>, len: nat, remote: Endpoint, ip: Ip4, draw: RandValue)
      returns (reply: Option<Datagram>)
      requires Valid() && len <= buf.Length
      requires !Scan(Ctx(draw), Initial(respondType, usnSuffix, delay), buf[..len]).undefined
      modifies this`respondType, this`usnSuffix, this`delay
      ensures Valid()
      ensures var r := Scan(Ctx(draw), Initial(old(respondType), old(usnSuffix), old(delay)), buf[..len]);
              && (reply.Some? <==> r.pending)
              && respondType == r.respondType && usnSuffix == r.usnSuffix
              && delay == (if r.pending then 0 else r.delay)
      ensures reply.Some? ==>
                reply.value == Datagram(remote, PacketText(Reply, id, interval, port, usnSuffix, respondType, ip))
    {
      if len == 0 {
        assert buf[..len] == [];
        return None;
      }
      ghost var ctx := Ctx(draw);
      ghost var s0 := Initial(respondType, usnSuffix, delay);
      var phase, header, pending, stmatch := Method, Strip, false, false;
      var cursor: nat, cr: uint8 := 0, 0;
      var buffer := new char[BUFFER_SIZE](_ => '\0');
      assert buf[..0] == [];
      for i := 0 to len
        invariant buffer.Length == BUFFER_SIZE && ctx == Ctx(draw)
        invariant Reader(phase, header, pending, stmatch, cursor, cr, buffer) == Scan(ctx, s0, buf[..i])
        invariant Inv(Reader(phase, header, pending, stmatch, cursor, cr, buffer))
      {
        assert buf[..len][..i] == buf[..i] && buf[..len][..i + 1] == buf[..i + 1];
        ParserFacts.ScanNext(ctx, s0, buf[..len], i);
        phase, header, pending, stmatch, cursor, cr := ReadByte(buffer, phase, header, pending, stmatch, cursor, cr, buf[i], draw);
      }
      reply := Answer(pending, remote, ip);
    }

    /** The end of onPacket: a pending reply resets the delay and is sent to the sender. */
    method Answer(pending: bool, remote: Endpoint, ip: Ip4) returns (reply: Option<Datagram>)
      requires Valid()
      modifies this`respondType, this`usnSuffix, this`delay
      ensures Valid() && respondType == old(respondType) && usnSuffix == old(usnSuffix)
      ensures (reply.Some? <==> pending) && delay == (if pending then 0 else old(delay))
      ensures reply.Some? ==>
                reply.value == Datagram(remote, PacketText(Reply, id, interval, port, usnSuffix, respondType, ip))
    {
      reply := None;
      if pending {
        delay := 0;
        var d := Send(Reply, remote, ip);
        reply := Some(d);
      }
    }

    /**
      ssdp_send: a notify first sets the respond type and USN suffix to
      upnp:rootdevice; the datagram is the packet template printed into a buffer
      of the hand-computed size, sent to the sender for a reply and to
      239.255.255.250:1900 for a notify.
    */
    method Send(kind: SendKind, remote: Endpoint, ip: Ip4) returns (d: Datagram)
      requires Valid()
      modifies this`respondType, this`usnSuffix
      ensures Valid()
      ensures kind == Reply ==> respondType == old(respondType) && usnSuffix == old(usnSuffix)
      ensures kind == Notify ==> respondType == "upnp:rootdevice" && usnSuffix == "::upnp:rootdevice"
      ensures d.to == (if kind == Reply then remote else Endpoint(MULTICAST_ADDR, SSDP_PORT))
      ensures d.payload == PacketText(kind, id, interval, port, usnSuffix, respondType, ip)
    {
      if kind == Notify {
        RootDeviceFields();
        respondType := "upnp:rootdevice";
        usnSuffix := "::upnp:rootdevice";
      }
      var payload := ComposePacket(kind, id, interval, port, usnSuffix, respondType, ip);
      var to := if kind == Reply then remote else Endpoint(MULTICAST_ADDR, SSDP_PORT);
      d := Datagram(to, payload);
    }

    /**
      The notify block of the receive loop, at clock value now: when a notify is
      due, notify_time becomes now and a NOTIFY for upnp:rootdevice is sent.
    */
    method NotifyTick(now: uint64, ip: Ip4) returns (d: Option<Datagram>)
      requires Valid()
      modifies this`notifyTime, this`respondType, this`usnSuffix
      ensures Valid()
      ensures d.Some? <==> NotifyDue(old(notifyTime), now, interval)
      ensures d.Some? ==> notifyTime == now && respondType == "upnp:rootdevice" && usnSuffix == "::upnp:rootdevice"
      ensures d.Some? ==>
                d.value == Datagram(Endpoint(MULTICAST_ADDR, SSDP_PORT),
                                    PacketText(Notify, id, interval, port, "::upnp:rootdevice", "upnp:rootdevice", ip))
      ensures d.None? ==> notifyTime == old(notifyTime) && respondType == old(respondType) && usnSuffix == old(usnSuffix)
    {
      d := None;
      if notifyTime == 0 || (now - notifyTime) % TWO_64 > (interval * 1000) % TWO_32 {
        notifyTime := now;
        var sent := Send(Notify, Endpoint(NO_ADDRESS, 0), ip);
        d := Some(sent);
      }
    }

    /**
      The description print of get_ssdp_schema_str into this record: the old
      description is dropped and the new one kept.
    */
    method Describe(ip: Ip4) returns (r: string)
      modifies this`schema
      ensures r == DescriptionText(id, ip, port) && schema == Some(r)
    {
      schema := None;
      r := ComposeDescription(id, ip, port);
      schema := Some(r);
    }
  }

  /** The notify's respond type and USN suffix are within the reader's limits. */
  lemma RootDeviceFields()
    ensures FieldsWithinLimits("upnp:rootdevice", "::upnp:rootdevice")
  {
    assert |"upnp:rootdevice"| == 15;
  }

  /**
    The print of ssdp_send: calloc(msg_buffer_size + 1), then snprintf of at most
    msg_buffer_size characters; the text is never cut.
  */
  method ComposePacket(kind: SendKind, id: Identity, interval: uint32, port: uint16,
                       usnSuffix: string, respondType: string, ip: Ip4) returns (payload: string)
    requires |id.uuid| <= Uuid.UUID_SIZE && |usnSuffix| <= USN_SUFFIX_SIZE
    ensures payload == PacketText(kind, id, interval, port, usnSuffix, respondType, ip)
  {
    PacketFits(kind, id, interval, port, usnSuffix, respondType, ip);
    payload := PrintWhole(PacketText(kind, id, interval, port, usnSuffix, respondType, ip),
                          PacketBufferSize(kind, id, respondType), PacketBufferSize(kind, id, respondType));
  }

  /**
    The print of get_ssdp_schema_str: calloc(template_size + 1), then sprintf,
    taken here as writing within the allocation; the text always fits whole.
  */
  method ComposeDescription(id: Identity, ip: Ip4, port: uint16) returns (text: string)
    ensures text == DescriptionText(id, ip, port)
  {
    var size := DescriptionSize(id);
    DescriptionFits(id, ip, port);
    text := PrintWhole(DescriptionText(id, ip, port), size, size + 1);
  }

  /** A zeroed buffer of size + 1 characters, printed into with the given limit, read back with strlen. */
  method PrintWhole(text: string, size: nat, limit: nat) returns (r: string)
    requires 0 < limit <= size + 1 && |text| < limit
    ensures r == text
  {
    var buffer := new char[size + 1](_ => '\0');
    var n := Print(buffer, text, limit);
    assert text[..n] == text;
    r := buffer[..n];
  }

  /**
    One string check of ssdp_start: a configured string over its cap fails;
    otherwise a configured string is copied and a NULL one leaves the field.
  */
  method CheckString(o: Option<string>, cap: nat, held: Option<string>) returns (ok: bool, v: Option<string>)
    ensures ok <==> Fits(o, cap)
    ensures v == (if ok then Or(o, held) else held)
  {
    ok, v := true, held;
    if o.Some? {
      if |o.value| > cap {
        return false, held;
      }
      v := o;
    }
  }

  /** The string checks of ssdp_start from schema_url to serial_number, in order. */
  method CheckStringsA(c: Config, id0: Identity) returns (ok: bool, id: Identity)
    requires IdentityFits(id0)
    ensures IdentityFits(id) && Between(id0, id, c)
    ensures ok <==>
              && Fits(c.schemaUrl, SCHEMA_URL_SIZE)
              && Fits(c.deviceType, DEVICE_TYPE_SIZE) && Fits(c.friendlyName, FRIENDLY_NAME_SIZE)
              && Fits(c.serialNumber, SERIAL_NUMBER_SIZE)
    ensures ok ==> id == id0.(
                 schemaUrl := Or(c.schemaUrl, id0.schemaUrl),
                 deviceType := Or(c.deviceType, id0.deviceType),
                 friendlyName := Or(c.friendlyName, id0.friendlyName),
                 serialNumber := Or(c.serialNumber, id0.serialNumber))
  {
    var v: Option<string>;
    id := id0;
    ok, v := CheckString(c.schemaUrl, SCHEMA_URL_SIZE, id.schemaUrl);
    id := id.(schemaUrl := v);
    if !ok { return; }
    ok, v := CheckString(c.deviceType, DEVICE_TYPE_SIZE, id.deviceType);
    id := id.(deviceType := v);
    if !ok { return; }
    ok, v := CheckString(c.friendlyName, FRIENDLY_NAME_SIZE, id.friendlyName);
    id := id.(friendlyName := v);
    if !ok { return; }
    ok, v := CheckString(c.serialNumber, SERIAL_NUMBER_SIZE, id.serialNumber);
    id := id.(serialNumber := v);
    if !ok { return; }
  }

  /** The string checks from presentation_url to model_url. */
  method CheckStringsB(c: Config, id0: Identity) returns (ok: bool, id: Identity)
    requires IdentityFits(id0)
    ensures IdentityFits(id) && Between(id0, id, c)
    ensures ok <==>
              && Fits(c.presentationUrl, PRESENTATION_URL_SIZE) && Fits(c.manufacturerName, MANUFACTURER_NAME_SIZE)
              && Fits(c.manufacturerUrl, MANUFACTURER_URL_SIZE) && Fits(c.modelName, MODEL_NAME_SIZE)
              && Fits(c.modelUrl, MODEL_URL_SIZE)
    ensures ok ==> id == id0.(
                 presentationUrl := Or(c.presentationUrl, id0.presentationUrl),
                 manufacturerName := Or(c.manufacturerName, id0.manufacturerName),
                 manufacturerUrl := Or(c.manufacturerUrl, id0.manufacturerUrl),
                 modelName := Or(c.modelName, id0.modelName),
                 modelUrl := Or(c.modelUrl, id0.modelUrl))
  {
    var v: Option<string>;
    id := id0;
    ok, v := CheckString(c.presentationUrl, PRESENTATION_URL_SIZE, id.presentationUrl);
    id := id.(presentationUrl := v);
    if !ok { return; }
    ok, v := CheckString(c.manufacturerName, MANUFACTURER_NAME_SIZE, id.manufacturerName);
    id := id.(manufacturerName := v);
    if !ok { return; }
    ok, v := CheckString(c.manufacturerUrl, MANUFACTURER_URL_SIZE, id.manufacturerUrl);
    id := id.(manufacturerUrl := v);
    if !ok { return; }
    ok, v := CheckString(c.modelName, MODEL_NAME_SIZE, id.modelName);
    id := id.(modelName := v);
    if !ok { return; }
    ok, v := CheckString(c.modelUrl, MODEL_URL_SIZE, id.modelUrl);
    id := id.(modelUrl := v);
    if !ok { return; }
  }

  /** The string checks from model_number to icons_description. */
  method CheckStringsC(c: Config, id0: Identity) returns (ok: bool, id: Identity)
    requires IdentityFits(id0)
    ensures IdentityFits(id) && Between(id0, id, c)
    ensures ok <==>
              && Fits(c.modelNumber, MODEL_NUMBER_SIZE) && Fits(c.modelDescription, MODEL_DESCRIPTION_SIZE)
              && Fits(c.serverName, SERVER_NAME_SIZE) && Fits(c.servicesDescription, SERVICES_DESCRIPTION_SIZE)
              && Fits(c.iconsDescription, ICONS_DESCRIPTION_SIZE)
    ensures ok ==> id == id0.(
                 modelNumber := Or(c.modelNumber, id0.modelNumber),
                 modelDescription := Or(c.modelDescription, id0.modelDescription),
                 serverName := Or(c.serverName, id0.serverName),
                 servicesDescription := Or(c.servicesDescription, id0.servicesDescription),
                 iconsDescription := Or(c.iconsDescription, id0.iconsDescription))
  {
    var v: Option<string>;
    id := id0;
    ok, v := CheckString(c.modelNumber, MODEL_NUMBER_SIZE, id.modelNumber);
    id := id.(modelNumber := v);
    if !ok { return; }
    ok, v := CheckString(c.modelDescription, MODEL_DESCRIPTION_SIZE, id.modelDescription);
    id := id.(modelDescription := v);
    if !ok { return; }
    ok, v := CheckString(c.serverName, SERVER_NAME_SIZE, id.serverName);
    id := id.(serverName := v);
    if !ok { return; }
    ok, v := CheckString(c.servicesDescription, SERVICES_DESCRIPTION_SIZE, id.servicesDescription);
    id := id.(servicesDescription := v);
    if !ok { return; }
    ok, v := CheckString(c.iconsDescription, ICONS_DESCRIPTION_SIZE, id.iconsDescription);
    id := id.(iconsDescription := v);
    if !ok { return; }
  }

  /** A configured string replaces the held one; a NULL one leaves it. */
  function Or(o: Option<string>, held: Option<string>): Option<string>
  {
    if o.Some? then o else held
  }

  /** A string check either left the held string or stored the configured one. */
  predicate Kept(before: Option<string>, after: Option<string>, o: Option<string>)
  {
    after == before || after == Or(o, before)
  }

  /** Every string of id is as in id0 or as the checks of c would store it; the UUID is id0's. */
  predicate Between(id0: Identity, id: Identity, c: Config)
  {
    && id.uuid == id0.uuid
    && Kept(id0.schemaUrl, id.schemaUrl, c.schemaUrl) && Kept(id0.deviceType, id.deviceType, c.deviceType)
    && Kept(id0.friendlyName, id.friendlyName, c.friendlyName)
    && Kept(id0.serialNumber, id.serialNumber, c.serialNumber)
    && Kept(id0.presentationUrl, id.presentationUrl, c.presentationUrl)
    && Kept(id0.manufacturerName, id.manufacturerName, c.manufacturerName)
    && Kept(id0.manufacturerUrl, id.manufacturerUrl, c.manufacturerUrl)
    && Kept(id0.modelName, id.modelName, c.modelName) && Kept(id0.modelUrl, id.modelUrl, c.modelUrl)
    && Kept(id0.modelNumber, id.modelNumber, c.modelNumber)
    && Kept(id0.modelDescription, id.modelDescription, c.modelDescription)
    && Kept(id0.serverName, id.serverName, c.serverName)
    && Kept(id0.servicesDescription, id.servicesDescription, c.servicesDescription)
    && Kept(id0.iconsDescription, id.iconsDescription, c.iconsDescription)
  }

  /** A freshly zeroed record's strings, all NULL, with the given UUID. */
  function NoStrings(uuid: string): Identity
  {
    Identity(uuid, None, None, None, None, None, None, None, None, None, None, None, None, None, None)
  }

  /** Every string of id is NULL or the configured one. */
  predicate PartlyCopied(id: Identity, c: Config)
  {
    Between(NoStrings(id.uuid), id, c)
  }

  /** Two rounds of string checks leave each string unchanged or as configured. */
  lemma BetweenTrans(id0: Identity, id1: Identity, id2: Identity, c: Config)
    requires Between(id0, id1, c) && Between(id1, id2, c)
    ensures Between(id0, id2, c)
  {
  }

  /** The globals ssdp_task_config and multicast_socket. */
  class Ssdp {
    var config: TaskConfig?
    var socket: int

    ghost predicate Valid()
      reads this, config
    {
      config != null ==> config.Valid()
    }

    /** No task configuration and no socket. */
    constructor()
      ensures config == null && socket == -1 && Valid()
    {
      config := null;
      socket := -1;
    }

    /** The receive task stores the socket it opened, or -1 when it closed it. */
    method SetSocket(sock: int)
      modifies this`socket
      ensures socket == sock
    {
      socket := sock;
    }

    /**
      ssdp_start: the checks run in order and the first failure returns. A
      configuration record allocated before a failure is kept, each of its
      strings NULL or the configured one, so every later start reports
      INVALID_STATE until stop.
    */
    method Start(conf: Option<Config>, mac: seq<uint8>, macRead: bool, taskCreated: bool) returns (r: EspErr)
      requires |mac| == 6 && Valid()
      requires conf.Some? && config == null && socket == -1 && ReachesFriendlyName(conf.value, mac, macRead)
               ==> conf.value.friendlyName.Some?
      modifies this`config
      ensures Valid()
      ensures conf.None? ==> r == InvalidArg
      ensures conf.Some? ==> r == StartOutcome(conf.value, old(config) != null || socket != -1, mac, macRead, taskCreated)
      ensures conf.None? || r == InvalidState ==> config == old(config)
      ensures conf.Some? && r != InvalidState ==>
                var c := conf.value;
                && config != null && fresh(config)
                && config.port == c.port && config.ttl == c.ttl && config.interval == c.interval
                && config.mxMaxDelay == c.mxMaxDelay && config.delay == 0 && config.notifyTime == 0
                && config.respondType == "" && config.usnSuffix == "" && config.schema == None
      ensures conf.Some? && (r == Ok || r == Fail) ==>
                var c := conf.value;
                config.id == IdentityOf(c, Uuid.SelectUuid(c.uuidRoot, c.uuid, mac, macRead).value)
      ensures conf.Some? && r == InvalidArg ==>
                var selected := Uuid.SelectUuid(conf.value.uuidRoot, conf.value.uuid, mac, macRead);
                && PartlyCopied(config.id, conf.value)
                && config.id.uuid == (if selected.None? then "" else selected.value)
    {
      if conf.None? {
        return InvalidArg;
      }
      var c := conf.value;
      if config != null || socket != -1 {
        return InvalidState;
      }
      var t := new TaskConfig(c.port, c.ttl, c.interval, c.mxMaxDelay);
      config := t;
      r := Configure(t, c, mac, macRead, taskCreated);
    }

    /** The part of ssdp_start after the record is allocated: the UUID, the strings, the task. */
    static method Configure(t: TaskConfig, c: Config, mac: seq<uint8>, macRead: bool, taskCreated: bool) returns (r: EspErr)
      requires |mac| == 6 && t.Valid()
      requires t.id == NoStrings("")
      requires ReachesFriendlyName(c, mac, macRead) ==> c.friendlyName.Some?
      modifies t`id
      ensures t.Valid()
      ensures r == StartOutcome(c, false, mac, macRead, taskCreated)
      ensures r == Ok || r == Fail ==> t.id == IdentityOf(c, Uuid.SelectUuid(c.uuidRoot, c.uuid, mac, macRead).value)
      ensures PartlyCopied(t.id, c)
      ensures t.id.uuid == (var selected := Uuid.SelectUuid(c.uuidRoot, c.uuid, mac, macRead);
                            if selected.None? then "" else selected.value)
    {
      var selected := Uuid.SelectUuid(c.uuidRoot, c.uuid, mac, macRead);
      if selected.None? {
        return InvalidArg;
      }
      t.id := t.id.(uuid := selected.value);
      var ok, id := CheckStringsA(c, t.id);
      t.id := id;
      if !ok {
        return InvalidArg;
      }
      ok, id := CheckStringsB(c, t.id);
      BetweenTrans(NoStrings(selected.value), t.id, id, c);
      t.id := id;
      if !ok {
        return InvalidArg;
      }
      ok, id := CheckStringsC(c, t.id);
      BetweenTrans(NoStrings(selected.value), t.id, id, c);
      t.id := id;
      if !ok {
        return InvalidArg;
      }
      if !taskCreated {
        return Fail;
      }
      r := Ok;
    }

    /** ssdp_stop: always ESP_OK, with no task configuration and no socket left. */
    method Stop() returns (r: EspErr)
      modifies this`config, this`socket
      ensures r == Ok && config == null && socket == -1 && Valid()
    {
      if config != null {
        if socket != -1 {
          socket := -1;
        }
        config := null;
      }
      if socket != -1 {
        socket := -1;
      }
      r := Ok;
    }

    /**
      get_ssdp_schema_str: NULL before start; otherwise the description printed
      from the running configuration, which is also kept in the record.
    */
    method SchemaStr(ip: Ip4) returns (r: Option<string>)
      requires Valid()
      modifies config
      ensures config == null ==> r.None?
      ensures config != null ==>
                && r == Some(DescriptionText(config.id, ip, config.port)) && config.schema == r
                && config.id == old(config.id) && config.port == old(config.port)
                && config.ttl == old(config.ttl) && config.interval == old(config.interval)
                && config.mxMaxDelay == old(config.mxMaxDelay) && config.delay == old(config.delay)
                && config.notifyTime == old(config.notifyTime)
                && config.respondType == old(config.respondType) && config.usnSuffix == old(config.usnSuffix)
      ensures Valid()
    {
      if config == null {
        return None;
      }
      var text := config.Describe(ip);
      r := Some(text);
    }
  }

  /**
    A start that fails on a string check leaves its record behind: the next
    start with the default configuration reports INVALID_STATE, and only after
    stop does it succeed.
  */
  method FailedStartBlocks(mac: seq<uint8>, macRead: bool)
    returns (first: EspErr, second: EspErr, stopped: EspErr, third: EspErr)
    requires |mac| == 6
    ensures first == InvalidArg && second == InvalidState && stopped == Ok && third == Ok
  {
    var ssdp := new Ssdp();
    var long := DEFAULT_CONFIG.(serialNumber := Some("000000000000000000000000000000000"));
    assert |long.serialNumber.value| == 33;
    first := ssdp.Start(Some(long), mac, macRead, true);
    second := ssdp.Start(Some(DEFAULT_CONFIG), mac, macRead, true);
    stopped := ssdp.Stop();
    third := ssdp.Start(Some(DEFAULT_CONFIG), mac, macRead, true);
  }
}
