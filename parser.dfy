/**
  The M-SEARCH reader of onPacket as a step function over one byte at a time.
  A Scanner holds onPacket's local variables (state, header, pending, stmatch,
  cursor, cr and the 64-byte scratch buffer) together with the three fields of
  the task configuration that the reader writes: respond_type, usn_suffix and
  delay. The method Engine.TaskConfig.OnPacket is proved to compute Scan.
*/
module Parser {
  import opened CText
  import opened Timing
  import opened Templates

  const METHOD_SIZE: nat := 10
  const URI_SIZE: nat := 2
  const BUFFER_SIZE: nat := 64

  /** The state of the request reader. */
  datatype Phase = Method | Uri | Proto | Key | Value | Abort

  /** The kind of the header whose value is being read. */
  datatype HeaderKind = Strip | Start | Skip | Man | St | Mx

  /**
    What the reader takes from the task configuration besides the fields it
    writes, and the value rand() returns while the datagram is read.
  */
  datatype Context = Context(deviceType: Option<string>, mxMaxDelay: uint16, draw: RandValue)

  datatype Scanner = Scanner(
    phase: Phase,
    header: HeaderKind,
    pending: bool,
    stmatch: bool,
    cursor: nat,
    cr: uint8,
    buffer: seq<char>,
    respondType: string,
    usnSuffix: string,
    delay: int,
    /** Set once the datagram drives the C code into undefined behaviour. */
    undefined: bool)

  predicate IsCrLf(c: char) { c == '\r' || c == '\n' }

  predicate NoCrLf(s: string) { forall i :: 0 <= i < |s| ==> !IsCrLf(s[i]) }

  /** A byte that the KEY state stores. */
  predicate KeyChar(c: char) { !IsCrLf(c) && c != ' ' }

  /** The limits of the configuration fields that the reader writes. */
  predicate FieldsWithinLimits(respondType: string, usnSuffix: string)
  {
    |respondType| <= DEVICE_TYPE_SIZE && NoCrLf(respondType) && '\0' !in respondType
    && |usnSuffix| <= USN_SUFFIX_SIZE
  }

  /** The shape every reader state keeps: a 64-byte buffer with the cursor inside it. */
  predicate Shaped(s: Scanner)
  {
    |s.buffer| == BUFFER_SIZE && s.cursor < BUFFER_SIZE
  }

  /** What stays true of the reader's variables from byte to byte. */
  predicate Inv(s: Scanner)
  {
    && Shaped(s)
    // every byte stored is followed by a terminator
    && (s.cursor > 0 ==> s.buffer[s.cursor] == '\0')
    && (s.pending ==> s.stmatch)
    && (s.phase == Method ==> s.cursor < METHOD_SIZE)
    && (s.phase == Uri ==> s.cursor < URI_SIZE)
    && (s.phase in {Method, Uri, Proto, Key} ==> s.header == Strip)
    && s.header != Start
    && (s.phase == Key ==> forall j :: 0 <= j < s.cursor ==> KeyChar(s.buffer[j]))
    && (s.phase == Value && s.header == Strip ==> s.cursor == 0)
    && (s.phase == Value && s.header != Strip ==> 0 < s.cursor && NoCrLf(s.buffer[..s.cursor]))
    && FieldsWithinLimits(s.respondType, s.usnSuffix)
  }

  /** A buffer of n NUL bytes. */
  function Zeros(n: nat): (z: seq<char>)
    ensures |z| == n && forall i :: 0 <= i < n ==> z[i] == '\0'
  {
    seq(n, _ => '\0')
  }

  /** The variables of onPacket as it starts, and the configuration fields as they are. */
  function Initial(respondType: string, usnSuffix: string, delay: int): (s: Scanner)
    ensures FieldsWithinLimits(respondType, usnSuffix) ==> Inv(s)
    ensures s.phase == Method && s.cursor == 0 && !s.pending && !s.stmatch && !s.undefined
    ensures forall j :: 0 <= j < |s.buffer| ==> s.buffer[j] == '\0'
  {
    Scanner(Method, Strip, false, false, 0, 0, Zeros(BUFFER_SIZE),
            respondType, usnSuffix, delay, false)
  }

  /** buffer[cursor++] = c; buffer[cursor] = '\0'; */
  function Put(s: Scanner, c: char): (r: Scanner)
    requires Shaped(s) && s.cursor < BUFFER_SIZE - 1
    ensures Shaped(r)
  {
    s.(buffer := s.buffer[s.cursor := c][s.cursor + 1 := '\0'], cursor := s.cursor + 1)
  }

  /** The header kind, fixed from the key text still in the buffer. */
  function Classify(key: string): (h: HeaderKind)
    ensures h != Strip && h != Start
    ensures h == Man <==> |key| >= 2 && key[..2] == "MA"
    ensures h == St <==> key == "ST"
    ensures h == Mx <==> key == "MX"
  {
    if |key| >= 2 && key[..2] == "MA" then
      assert key[0] == key[..2][0] == 'M' && key[1] == key[..2][1] == 'A';
      Man
    else if key == "ST" then St
    else if key == "MX" then Mx
    else Skip
  }

  /** The METHOD state: the first token, of which at most 9 bytes are kept. */
  function MethodStep(s: Scanner, c: char): Scanner
    requires Shaped(s)
  {
    if c == ' ' then s.(phase := if CStr(s.buffer) == "M-SEARCH" then Uri else Abort, cursor := 0)
    else if s.cursor < METHOD_SIZE - 1 then Put(s, c)
    else s
  }

  /** The URI state: the second token, of which only the first byte is kept. */
  function UriStep(s: Scanner, c: char): Scanner
    requires Shaped(s)
  {
    if c == ' ' then s.(phase := if CStr(s.buffer) == "*" then Proto else Abort, cursor := 0)
    else if s.cursor < URI_SIZE - 1 then Put(s, c)
    else s
  }

  /** The PROTO state: the rest of the request line is skipped up to CRLF. */
  function ProtoStep(s: Scanner): Scanner
  {
    if s.cr == 2 then s.(phase := Key, cursor := 0) else s
  }

  /** The KEY state: a header name, without CR, LF or space. */
  function KeyStep(s: Scanner, c: char): Scanner
    requires Shaped(s)
  {
    if s.cr == 4 then (if s.stmatch then s.(pending := true) else s)
    else if c == ':' then s.(cursor := 0, phase := Value)
    else if KeyChar(c) && s.cursor < BUFFER_SIZE - 1 then Put(s, c)
    else s
  }

  /** An ST value asks for this device: "ssdp:all", "upnp:rootdevice" or the device type, ignoring case. */
  predicate Matches(deviceType: string, v: string)
  {
    v == "ssdp:all" || v == "upnp:rootdevice" || CaseEqual(v, deviceType)
  }

  /** The USN suffix that a matching ST value selects. */
  function SuffixFor(deviceType: string, v: string): string
  {
    if v == "ssdp:all" || v == "upnp:rootdevice" then "::upnp:rootdevice"
    else Truncate("::" + deviceType, USN_SUFFIX_SIZE)
  }

  /**
    The end of an ST value v: it becomes the respond type and the USN suffix is
    cleared; "ssdp:all" and "upnp:rootdevice" match with the suffix
    "::upnp:rootdevice"; otherwise the device type, compared ignoring case,
    matches with the suffix "::" + device type; otherwise the request is aborted.
    Comparing with a NULL device type is undefined.
  */
  function StValue(ctx: Context, s: Scanner, v: string): (r: Scanner)
    ensures r.buffer == s.buffer && r.cursor == s.cursor && r.header == s.header && r.pending == s.pending
    ensures (s.stmatch ==> r.stmatch) && (s.undefined ==> r.undefined) && (r.phase == s.phase || r.phase == Abort)
    ensures r.respondType == Truncate(v, DEVICE_TYPE_SIZE) && |r.usnSuffix| <= USN_SUFFIX_SIZE
    ensures (v == "ssdp:all" || v == "upnp:rootdevice") ==>
              r.phase == s.phase && r.stmatch && r.usnSuffix == "::upnp:rootdevice" && r.undefined == s.undefined
    ensures ctx.deviceType.Some? && !Matches(ctx.deviceType.value, v) ==> r.phase == Abort && r.usnSuffix == ""
  {
    var s1 := s.(respondType := Truncate(v, DEVICE_TYPE_SIZE), usnSuffix := "");
    if v == "ssdp:all" || v == "upnp:rootdevice" then
      s1.(stmatch := true, usnSuffix := "::upnp:rootdevice")
    else if ctx.deviceType.None? then
      s1.(undefined := true)
    else if CaseEqual(v, ctx.deviceType.value) then
      s1.(stmatch := true, usnSuffix := Truncate("::" + ctx.deviceType.value, USN_SUFFIX_SIZE))
    else
      s1.(phase := Abort)
  }

  /** The end of an MX value: the reply delay is drawn and capped. */
  function MxValue(ctx: Context, s: Scanner, v: string): (r: Scanner)
    ensures r == s.(delay := r.delay, undefined := r.undefined) && (s.undefined ==> r.undefined)
  {
    var n := Atoi(v);
    if MxDefined(n, ctx.draw) then s.(delay := MxDelay(n, ctx.draw, ctx.mxMaxDelay))
    else s.(undefined := true)
  }

  /** CR LF after a value: the header takes effect, and unless aborted the next key follows. */
  function EndValue(ctx: Context, s: Scanner): (r: Scanner)
    requires Shaped(s)
    ensures Shaped(r) && (s.undefined ==> r.undefined)
  {
    var v := CStr(s.buffer);
    var s1 :=
      if s.header == St then StValue(ctx, s, v)
      else if s.header == Mx then MxValue(ctx, s, v)
      else s;
    if s1.phase != Abort then s1.(phase := Key, header := Strip, cursor := 0) else s1
  }

  /**
    A value byte other than CR and LF: leading spaces are dropped; the first other
    byte fixes the header kind from the key text still in the buffer.
  */
  function ValueChar(s: Scanner, c: char): Scanner
    requires Shaped(s)
  {
    if s.header == Strip && c == ' ' then s
    else
      var h := if s.header == Strip then Classify(CStr(s.buffer)) else s.header;
      if s.cursor < BUFFER_SIZE - 1 then Put(s.(header := h), c) else s.(header := h)
  }

  function ValueStep(ctx: Context, s: Scanner, c: char): Scanner
    requires Shaped(s)
  {
    if s.cr == 2 then EndValue(ctx, s)
    else if IsCrLf(c) then s
    else ValueChar(s, c)
  }

  /** The ABORT state: every further byte clears pending and the delay. */
  function AbortStep(s: Scanner): Scanner
  {
    s.(pending := false, delay := 0)
  }

  /** The count of consecutive CR and LF bytes, kept in a uint8_t that wraps at 256. */
  function CountCr(cr: uint8, c: char): uint8
  {
    if IsCrLf(c) then (cr + 1) % 256 else 0
  }

  /** One iteration of onPacket's loop. */
  function Step(ctx: Context, s: Scanner, c: char): (r: Scanner)
    requires Shaped(s)
    ensures Shaped(r)
    ensures s.undefined ==> r.undefined
  {
    var s1 := s.(cr := CountCr(s.cr, c));
    match s1.phase
    case Method => MethodStep(s1, c)
    case Uri => UriStep(s1, c)
    case Proto => ProtoStep(s1)
    case Key => KeyStep(s1, c)
    case Value => ValueStep(ctx, s1, c)
    case Abort => AbortStep(s1)
  }

  /** No state touches the CR/LF count but the step itself. */
  lemma StepCr(ctx: Context, s: Scanner, c: char)
    requires Shaped(s)
    ensures Step(ctx, s, c).cr == CountCr(s.cr, c)
  {
    var s1 := s.(cr := CountCr(s.cr, c));
    if s.phase == Value && s1.cr == 2 {
      assert EndValue(ctx, s1).cr == s1.cr;
    }
  }

  /** The reader after the bytes of data, one iteration per byte. */
  function Scan(ctx: Context, s: Scanner, data: seq<char>): (r: Scanner)
    requires Shaped(s)
    ensures Shaped(r)
    ensures s.undefined ==> r.undefined
    decreases |data|
  {
    if data == [] then s
    else Scan(ctx, Step(ctx, s, data[0]), data[1..])
  }

  /** The respond type an ST value leaves: a value read from the buffer fits the field whole. */
  lemma StValueFields(ctx: Context, s: Scanner, v: string)
    requires |v| < BUFFER_SIZE && NoCrLf(v) && '\0' !in v
    ensures var r := StValue(ctx, s, v);
            r.respondType == v && FieldsWithinLimits(r.respondType, r.usnSuffix)
  {
  }

  /** Put appends c to the stored bytes and writes the terminator after it. */
  lemma PutStored(s: Scanner, c: char)
    requires Shaped(s) && s.cursor < BUFFER_SIZE - 1
    ensures var r := Put(s, c);
            r.buffer[..r.cursor] == s.buffer[..s.cursor] + [c] && r.buffer[r.cursor] == '\0'
  {
    var r := Put(s, c);
    assert r.buffer[..r.cursor] == s.buffer[..s.cursor] + [c];
  }

  /** A METHOD byte keeps the invariant. */
  lemma MethodInv(s: Scanner, c: char)
    requires Inv(s) && s.phase == Method
    ensures Inv(MethodStep(s, c))
  {
    if c != ' ' && s.cursor < METHOD_SIZE - 1 {
      PutStored(s, c);
    }
  }

  /** A URI byte keeps the invariant. */
  lemma UriInv(s: Scanner, c: char)
    requires Inv(s) && s.phase == Uri
    ensures Inv(UriStep(s, c))
  {
    if c != ' ' && s.cursor < URI_SIZE - 1 {
      PutStored(s, c);
    }
  }

  /** A KEY byte keeps the invariant: stored key bytes are never CR, LF or space. */
  lemma KeyInv(s: Scanner, c: char)
    requires Inv(s) && s.phase == Key
    ensures Inv(KeyStep(s, c))
  {
    if s.cr != 4 && c != ':' && KeyChar(c) && s.cursor < BUFFER_SIZE - 1 {
      PutStored(s, c);
    }
  }

  /** A value byte other than CR and LF keeps the invariant. */
  lemma ValueCharInv(s: Scanner, c: char)
    requires Inv(s) && s.phase == Value && !IsCrLf(c)
    ensures Inv(ValueChar(s, c))
  {
    if !(s.header == Strip && c == ' ') && s.cursor < BUFFER_SIZE - 1 {
      var h := if s.header == Strip then Classify(CStr(s.buffer)) else s.header;
      PutStored(s.(header := h), c);
    }
  }

  /** The end of a value keeps the invariant: an ST value fits the respond type whole. */
  lemma EndValueInv(ctx: Context, s: Scanner)
    requires Inv(s) && s.phase == Value
    ensures Inv(EndValue(ctx, s))
  {
    if s.header == St {
      var v := CStr(s.buffer);
      assert v == CStr(s.buffer[..s.cursor]) by { CStrCut(s.buffer, s.cursor); }
      StValueFields(ctx, s, v);
    }
  }

  /** The reader's invariant holds after every byte. */
  lemma StepInv(ctx: Context, s: Scanner, c: char)
    requires Inv(s)
    ensures Inv(Step(ctx, s, c))
  {
    var s1 := s.(cr := CountCr(s.cr, c));
    match s.phase
    case Method => MethodInv(s1, c);
    case Uri => UriInv(s1, c);
    case Key => KeyInv(s1, c);
    case Value =>
      if s1.cr == 2 {
        EndValueInv(ctx, s1);
      } else if !IsCrLf(c) {
        ValueCharInv(s1, c);
      }
    case _ =>
  }

  lemma {:induction false} ScanInv(ctx: Context, s: Scanner, data: seq<char>)
    requires Inv(s)
    ensures Inv(Scan(ctx, s, data))
    decreases |data|
  {
    if data != [] {
      StepInv(ctx, s, data[0]);
      ScanInv(ctx, Step(ctx, s, data[0]), data[1..]);
    }
  }
}
