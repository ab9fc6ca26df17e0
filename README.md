# SSDP responder for ESP-IDF, modelled in Dafny

This project models the SSDP responder in `ssdp.c`. The responder announces one UPnP root device. It does four things:

- It answers M-SEARCH requests for `ssdp:all`, `upnp:rootdevice` or its own device type with an HTTP/1.1 `200 OK` datagram.
- It multicasts a `NOTIFY * HTTP/1.1` `ssdp:alive` to 239.255.255.250:1900 every `interval` seconds.
- It derives its UUID from a root and the MAC address.
- It prints the device description XML on demand.

The model follows the code as written. It keeps the same state machine, the same buffer sizes, the same constants and the same order of checks. The proofs cover several things:

- the request-line gate;
- the effect of each header line;
- when a reply is sent;
- the MX delay draw and clamp;
- the notify-due test with its 32-bit wrap;
- the byte order of the UUID;
- that the hand-computed buffer sizes hold the text printed into them;
- the line and header structure of the packets;
- the return codes of `ssdp_start` and `ssdp_stop`.

Modules, one per piece of the source:

- `CText`: C-string helpers:
  - `CStr`, which reads up to the first NUL;
  - `Truncate`, for `strlcpy`;
  - `Dec`, for `%u`;
  - `Atoi`, for `atoi`;
  - the fixed-width integer types.
- `Uuid`: `ssdp_set_UUID` and the UUID selection of `ssdp_start`.
- `Timing`: `ssdp_random`, which takes the value of `rand()` as a parameter; the MX delay; the notify-due test.
- `Templates`:
  - the packet text and the description XML, as functions of the configuration record;
  - `msg_buffer_size` and `template_size`, as functions;
  - proofs that each size is large enough.
- `Wire`: the packet text as CRLF-separated lines and the header fields a client reads from it.
- `Parser`: the step function of `onPacket`'s state machine.
  - It works on a `Scanner`, a value holding the loop's variables, the 64-byte scratch buffer and the three record fields the loop writes.
  - `Scan` folds `Step` over the bytes.
  - `Inv` is the invariant every step keeps.
- `ParserFacts`: what `Scan` does on request lines, header lines and blank lines.
- `Engine`: the imperative part.
  - `TaskConfig` is the record `ssdp_task_config` points to. It holds these methods:
    - `OnPacket`, a loop over a byte array that writes a 64-character `array`;
    - `Send`;
    - the notify block, as `NotifyTick`;
    - the description print, as `Describe`.
  - `Ssdp` holds the two globals, with `Start`, `Stop`, `SchemaStr` and `SetSocket`.
  - `OnPacket` is proved against `Parser.Scan`: after the loop the record's fields are those of `Scan` on the same bytes, and a reply is sent exactly when `Scan` ends pending.

Some inputs are parameters:

- the value of `rand()`;
- the clock value;
- the MAC address and whether it could be read;
- the local IPv4 address returned by `ssdp_get_LocalIP`;
- whether the task could be created.

Undefined behaviour in the C code becomes a precondition:

- a NULL `device_type` compared by `strcasecmp`, which the parser tracks with an `undefined` flag;
- an MX value whose `atoi` result does not fit an `int` (such as `MX: 99999999999`), or for which `rand() % (n + 1)` divides by zero or `n + 1` or `r * 1000` overflows `int`;
- a NULL `friendly_name` that reaches `strcpy` in `ssdp_start`.

Where the code and the protocol documentation disagree, the model follows the code:

- The UUID suffix is `mac[2] mac[1] mac[0]` in lower-case hex. It is not the last three bytes.
- A configured full UUID must be 37 characters long (`SSDP_UUID_SIZE`), not 36.
- A notify is due only when strictly more than `interval * 1000` ms have passed, computed in 32 bits.
- Header names are compared case-sensitively. `ssdp:all` and `upnp:rootdevice` are also matched case-sensitively.
- Only the first URI byte is kept, so any URI starting with `*` passes.

## Model

| member | source | states |
|---|---|---|
| CText.CStr | ssdp.c:350-351 | the C string in a buffer is the prefix before the first NUL, and a NUL follows it when it is shorter than the buffer |
| CText.CStrCut | ssdp.c:362-365 | a NUL at index k means the C string stops at or before k |
| CText.Truncate | ssdp.c:413-415 | strlcpy into a field of n characters keeps the first min(len, n) characters |
| CText.DecLength | ssdp.c:79 | %u of n < 10^k has at most k digits |
| CText.Uint16Digits | ssdp.c:83 | a uint16 prints in at most 5 digits, the allowance for the port |
| CText.Uint32Digits | ssdp.c:79 | a uint32 prints in at most 10 digits |
| CText.AtoiNonNumeric | ssdp.c:452 | atoi of a value that does not start with a digit after spaces and a sign is 0 |
| CText.DecValue | ssdp.c:452 | the digits %u prints read back as the same number |
| CText.AtoiDec | ssdp.c:452 | atoi reads back what %u prints |
| Uuid.Hex2RoundTrip | ssdp.c:699 | %02x gives two lower-case hex digits that decode to the byte |
| Uuid.SetUuid | ssdp.c:691-700 | the UUID is the root followed by six lower-case hex digits |
| Uuid.SetUuidEncodesMac | ssdp.c:693-699 | the six digits encode mac[2], mac[1], mac[0], in that order, or zeros when the MAC cannot be read |
| Uuid.SetUuidInjective | ssdp.c:699 | MACs that differ in their first three bytes give different UUIDs |
| Uuid.DefaultRootExample | ssdp.c:691-700 | MAC aa:bb:cc:dd:ee:ff with the built-in root gives 38323636-4558-4dda-9188-cda0e6ccbbaa |
| Uuid.SelectUuid | ssdp.c:748-769 | neither root nor UUID: built-in root plus MAC; root only: accepted iff 30 characters, then root plus MAC; a full UUID: accepted iff 37 characters, then copied |
| Timing.CRem | ssdp.c:182 | C's % truncates toward zero: the remainder is smaller than the divisor, has the dividend's sign, and a = (a / b) b + r with C's truncating quotient, so a - r is a multiple of b |
| Timing.Random | ssdp.c:180-183 | lowval + rand() % (highval - lowval + 1) lies in [lowval, highval] when lowval <= highval |
| Timing.MxDelay | ssdp.c:451-455 | the delay lies in [0, mx_max_delay], is at most 1000 n, and is a whole number of seconds unless clamped |
| Timing.MxDelayReachable | ssdp.c:451-455 | every draw r in [0, n] gives delay min(1000 r, mx_max_delay) |
| Timing.MxDelayRange | ssdp.c:451-455 | for n >= 0 the delay is min(1000 r, mx_max_delay) for some r in [0, n] |
| Timing.MxZero | ssdp.c:451-455 | MX 0 gives delay 0; with CText.AtoiNonNumeric, so does a non-numeric MX |
| Timing.NotifyDueIff | ssdp.c:672-675 | without wrap-around a notify is due iff now - notify_time > 1000 interval |
| Timing.NotifyBoundary | ssdp.c:674-675 | the comparison is strict: exactly 1000 interval ms later is not due, one more ms is |
| Timing.NotifyDueMonotonic | ssdp.c:672-675 | once due, a notify stays due at every later clock value |
| Timing.IntervalWrapExample | ssdp.c:675 | interval * 1000L wraps at 2^32: interval 4294968 makes a notify due after 705 ms |
| Templates.TemplateLengths | ssdp.c:68-110 | the response, notify, packet and description templates have the lengths strlen and sizeof see |
| Templates.Dotted | ssdp.c:531 | a dotted IPv4 address has 7 to 15 characters, all digits and dots |
| Templates.NoAddressText | ssdp.c:679 | the address 0 prints as 0.0.0.0 |
| Templates.PacketLength | ssdp.c:543-553 | the packet length is the template's fixed text plus each converted field |
| Templates.PacketFits | ssdp.c:524-553 | with uuid <= 37 and usn_suffix <= 64 characters, msg_buffer_size exceeds the packet length, so snprintf never cuts it |
| Templates.DescriptionLength | ssdp.c:1096-1126 | the description length is the template's fixed text plus each converted field |
| Templates.DescriptionFits | ssdp.c:1060-1126 | text and terminator fit in the template_size + 1 characters allocated |
| Templates.DescriptionElements | ssdp.c:86-110 | the description contains URLBase http://ip:port/, deviceType urn:schemas-upnp-org:device:<type>:1, friendlyName and UDN uuid:<uuid> |
| Wire.ReplyEnvelopeJoin | ssdp.c:68-70 | the response envelope is the lines HTTP/1.1 200 OK and EXT:, each ended by CRLF |
| Wire.NotifyEnvelopeJoin | ssdp.c:72-75 | the notify envelope is the NOTIFY, HOST and NTS lines, each ended by CRLF |
| Wire.LinesJoin | ssdp.c:77-84 | splitting CRLF-joined lines without CR gives the lines back |
| Wire.HeaderRead | ssdp.c:78-83 | a header line "name: value" is named name and carries value |
| Wire.BodyNoCr | ssdp.c:77-84 | no line of the packet body holds a CR when the fields hold none |
| Wire.PacketLines | ssdp.c:77-84 | the packet is the envelope lines, the six body lines and a blank line |
| Wire.PacketHeaders | ssdp.c:68-84 | the first line is the status or request line; CACHE-CONTROL, USN, ST or NT, and LOCATION carry max-age=interval, uuid:<uuid><suffix>, the respond type and http://ip:port/schema_url |
| Parser.Initial | ssdp.c:327-337 | the loop starts in METHOD with cursor 0, nothing pending and a zeroed buffer |
| Parser.Classify | ssdp.c:464-477 | the header kind is MAN iff the key starts with MA, ST iff it is ST, MX iff it is MX, and SKIP otherwise |
| Parser.StValue | ssdp.c:411-449 | an ST value becomes respond_type; ssdp:all and upnp:rootdevice match with suffix ::upnp:rootdevice; with a device type, a value that matches nothing aborts with an empty suffix; a match never clears the match flag |
| Parser.MxValue | ssdp.c:451-455 | an MX value changes only the delay |
| Parser.Step | ssdp.c:339-494 | one byte keeps the buffer at 64 characters with the cursor inside it |
| Parser.StepCr | ssdp.c:342-346 | cr counts consecutive CR and LF bytes and wraps at 256 |
| Parser.Scan | ssdp.c:339-495 | the pass over the bytes keeps the buffer's shape, and an undefined run stays undefined |
| Parser.StValueFields | ssdp.c:413-415 | an ST value read from the buffer is stored whole in respond_type, and both fields stay within 64 characters |
| Parser.PutStored | ssdp.c:363-364 | storing a byte appends it and writes a terminator after it |
| Parser.MethodInv | ssdp.c:349-366 | the METHOD case keeps Inv: at most 9 method bytes, each followed by a terminator |
| Parser.UriInv | ssdp.c:367-379 | the URI case keeps Inv: at most 1 URI byte |
| Parser.KeyInv | ssdp.c:386-398 | the KEY case keeps Inv: CR, LF and space never enter a key |
| Parser.ValueCharInv | ssdp.c:464-488 | a value byte keeps Inv: at most 63 bytes, none of them CR or LF |
| Parser.EndValueInv | ssdp.c:399-463 | CR LF after a value keeps Inv, including the 64-character limits of respond_type and usn_suffix |
| Parser.StepInv | ssdp.c:339-494 | every byte keeps Inv: all writes land below index 64 |
| Parser.ScanInv | ssdp.c:339-495 | every input keeps Inv |
| ParserFacts.ScanAppend | ssdp.c:339-495 | the pass is one left-to-right fold: scanning a + b is scanning b from where a ended |
| ParserFacts.StoreRun | ssdp.c:362-398 | a run of stored bytes fills the buffer up to the state's cap and drops the rest |
| ParserFacts.CStrWrites | ssdp.c:362-365 | the token read back is the input cut to the cap |
| ParserFacts.AbortAbsorbs | ssdp.c:490-493 | ABORT is never left, and each later byte clears pending and zeroes the delay |
| ParserFacts.MethodLine | ssdp.c:349-366 | the first token, cut to 9 bytes, decides between URI (M-SEARCH) and ABORT |
| ParserFacts.UriLine | ssdp.c:367-379 | the URI token, cut to 1 byte, decides between PROTO (*) and ABORT |
| ParserFacts.UriGate | ssdp.c:367-379 | the one-byte URI buffer reads * iff the URI starts with * |
| ParserFacts.RequestLine | ssdp.c:349-385 | after two space-ended tokens the state is PROTO iff the gate holds, and ABORT otherwise |
| ParserFacts.GateRejects | ssdp.c:349-385 | a request line that fails the gate never leads to a reply, whatever follows |
| ParserFacts.NoMethodEnd | ssdp.c:349-366 | a datagram without a space never leads to a reply |
| ParserFacts.NoUriEnd | ssdp.c:367-379 | a datagram without a second space never leads to a reply |
| ParserFacts.ReplyNeedsSearchLine | ssdp.c:349-385 | a reply implies the datagram starts with two space-ended tokens that pass the gate |
| ParserFacts.NotifyIgnored | ssdp.c:349-366 | a NOTIFY datagram never leads to a reply |
| ParserFacts.ProtoLine | ssdp.c:380-385 | the protocol token is skipped unchecked up to CR LF, then KEY follows |
| ParserFacts.KeyAndColon | ssdp.c:386-398 | a header name is stored whole; the colon and following spaces lead to VALUE |
| ParserFacts.ValueStart | ssdp.c:464-488 | the first value byte fixes the header kind from the key still in the buffer |
| ParserFacts.HeaderRead | ssdp.c:386-488 | a header line up to CR gives VALUE with the header kind of its name and the value in the buffer |
| ParserFacts.StEffect | ssdp.c:411-449 | an ST line sets respond_type and the match flag and suffix, or aborts; a root search always matches with suffix ::upnp:rootdevice; it is undefined only for a non-root search with no device type |
| ParserFacts.MxEffect | ssdp.c:451-455 | an MX line sets the delay to MxDelay of atoi of the value, and is undefined exactly when that arithmetic is |
| ParserFacts.OtherEffect | ssdp.c:401-410 | a MAN, skipped or empty line changes nothing but the state |
| ParserFacts.HeaderLine | ssdp.c:386-488 | the effect of a whole header line, for ST (a root search matches whatever the device type), MX and the other kinds |
| ParserFacts.EmptyValueLine | ssdp.c:399-463 | a header with an empty or all-space value does nothing |
| ParserFacts.EndOfHeaders | ssdp.c:386-390 | the blank line ending the headers sets pending iff an ST has matched |
| ParserFacts.SearchLine | ssdp.c:349-385 | a request line that passes the gate leads to KEY with nothing pending |
| ParserFacts.RootSearch | ssdp.c:349-449 | a gated request line, then ST: ssdp:all or ST: upnp:rootdevice, then a blank line leaves a reply pending for ::upnp:rootdevice with the ST value as respond_type |
| ParserFacts.CanonicalSearch | ssdp.c:349-449 | M-SEARCH * HTTP/1.1, ST: ssdp:all and a blank line leave a reply pending for ::upnp:rootdevice, defined, with the delay untouched |
| Engine.Store | ssdp.c:363-364 | buffer[cursor++] = c; buffer[cursor] = 0 on the array |
| Engine.MethodByte | ssdp.c:349-366 | the METHOD case on the array does what the parser's step does |
| Engine.UriByte | ssdp.c:367-379 | the URI case on the array does what the parser's step does |
| Engine.KeyByte | ssdp.c:386-398 | the KEY case on the array does what the parser's step does |
| Engine.StartsWithMA | ssdp.c:466 | strncmp(buffer, "MA", 2) == 0 iff the key starts with MA |
| Engine.ValueText | ssdp.c:464-488 | a value byte on the array does what the parser's step does |
| Engine.Print | ssdp.c:543-553 | snprintf writes min(len, limit - 1) characters and a terminator |
| Engine.PrintWhole | ssdp.c:524-553 | a text shorter than the limit is read back whole |
| Engine.ComposePacket | ssdp.c:514-553 | the datagram ssdp_send prints is the packet text, uncut |
| Engine.ComposeDescription | ssdp.c:1060-1126 | the text get_ssdp_schema_str prints is the description, uncut |
| Engine.TaskConfig.EndOfValue | ssdp.c:399-463 | CR LF after a value updates the record as the parser's EndValue does |
| Engine.TaskConfig.StHeader | ssdp.c:411-449 | the ST case updates respond_type, usn_suffix and the match flag as StValue does |
| Engine.TaskConfig.MxHeader | ssdp.c:451-455 | the MX case sets the delay as MxValue does |
| Engine.TaskConfig.ReadByte | ssdp.c:339-494 | one loop iteration maps the variables, the array and the record as Step does |
| Engine.TaskConfig.OnPacket | ssdp.c:318-505 | after the loop the record's fields are those of Scan on the same bytes; a reply goes to the sender iff Scan ends pending, with the delay reset to 0 |
| Engine.TaskConfig.Answer | ssdp.c:497-504 | a pending reply zeroes the delay and sends the response packet to the sender |
| Engine.TaskConfig.Send | ssdp.c:507-605 | a notify first sets upnp:rootdevice; the payload is the packet text; a reply goes to the sender, a notify to 239.255.255.250:1900 |
| Engine.TaskConfig.NotifyTick | ssdp.c:672-680 | a notify is sent iff it is due; then notify_time becomes now and respond_type and usn_suffix are left as upnp:rootdevice; otherwise nothing changes |
| Engine.TaskConfig.Describe | ssdp.c:1054-1134 | the old description is dropped and the new one kept in the record |
| Engine.RootDeviceFields | ssdp.c:516-519 | the notify's respond type and suffix are within the field limits |
| Engine.CheckString | ssdp.c:772-784 | a string over its cap fails; a string within it is copied; NULL leaves the field |
| Engine.CheckStringsA | ssdp.c:772-830 | schema_url to serial_number pass iff each fits its cap, and each is then copied; whatever the outcome, each string either keeps its old value or holds the configured one |
| Engine.CheckStringsB | ssdp.c:832-907 | presentation_url to model_url pass iff each fits its cap, and each is then copied; whatever the outcome, each string either keeps its old value or holds the configured one |
| Engine.CheckStringsC | ssdp.c:909-985 | model_number to icons_description pass iff each fits its cap, and each is then copied; whatever the outcome, each string either keeps its old value or holds the configured one |
| Engine.StartRules | ssdp.c:705-985 | INVALID_STATE while started; INVALID_ARG for a root that is not 30 characters, a UUID that is not 37, or a string over its cap |
| Engine.CapIsInclusive | ssdp.c:817-830 | a serial number of exactly 32 characters is accepted, and one of 33 is not |
| Engine.Ssdp.constructor | ssdp.c:158-160 | no task configuration and socket -1 |
| Engine.Ssdp.SetSocket | ssdp.c:611-685 | the receive task stores the socket it opens, or -1 when it closes it |
| Engine.Ssdp.Start | ssdp.c:705-1001 | NULL gives INVALID_ARG; otherwise the result is StartOutcome; after any check past the state check a fresh record stays in place, even on failure, with the configured numbers and zeroed state; on OK and FAIL it holds all configured strings and the selected UUID; on INVALID_ARG each string is NULL or configured |
| Engine.Ssdp.Configure | ssdp.c:742-1001 | the checks after allocation give StartOutcome; on OK and FAIL the record holds the selected UUID and the configured strings; otherwise each string is NULL or configured and the UUID empty or selected |
| Engine.Ssdp.Stop | ssdp.c:1004-1048 | always ESP_OK, with no record and socket -1, so calling it twice is harmless |
| Engine.Ssdp.SchemaStr | ssdp.c:1049-1135 | NULL before start; otherwise the description of the running configuration, which is also kept; no other field of the record changes |
| Engine.FailedStartBlocks | ssdp.c:711-714 | a start that fails on a string check makes the next start report INVALID_STATE until stop |

## Left out

- Sockets: socket creation, the multicast join, select and recvfrom, getaddrinfo and sendto, and their failures. A datagram is returned as a value with its destination.
- FreeRTOS: task creation is the `taskCreated` flag of `Start`. Task priority, stack size and core are not modelled. Neither are `vTaskDelay` and the `volatile ssdp_running` flag shared between tasks.
- Allocation: calloc failures (ESP_ERR_NO_MEM), and the leaks of `uuid` and `schema_url` in ssdp_stop.
- Logging: every ESP_LOG call.
- Engine.TaskConfig.NotifyTick: reads the clock once, where the C code calls ssdp_millis() twice. A clock that advances between the two reads is not modelled.
- Engine.TaskConfig.OnPacket: requires a run whose arithmetic is defined. A NULL `device_type` on a non-root ST is excluded, and so is an MX value whose `atoi` result does not fit an `int` (such as `MX: 99999999999`) or whose `rand() % (n + 1)` or `* 1000` is undefined in C.
- Engine.TaskConfig.OnPacket: takes one `rand()` value per datagram, where the C code re-seeds and draws at each MX header. Two MX headers in one datagram therefore draw the same value. This affects only the write-only `delay` and which runs are excluded as undefined.
- Engine.Ssdp.Start: requires `friendly_name` to be non-NULL whenever the checks before its `strcpy` pass, because a NULL there is undefined behaviour in C.
- Engine.Ssdp.Configure, and so Engine.Ssdp.Start: on INVALID_ARG the record is only said to hold, for each string, NULL or the configured value. Which strings precede the failing check, and so are copied, is not stated exactly.
- Engine.ComposeDescription: `sprintf` in get_ssdp_schema_str has no limit. The model writes into the allocation and relies on `Templates.DescriptionFits` for the bound. A negative `sprintf` result is not modelled.
- Engine.ComposePacket: a negative `snprintf` result is only logged by the C code and is not modelled.
- `ssdp_get_LocalIP` is a parameter, an `Ip4` value printed dotted.
- Strings are sequences without embedded NUL bytes. A configured string holding a NUL, which `strlen` would cut short, is not modelled.
- The MAC read by `esp_efuse_mac_get_default` is a parameter, and so are `rand()` and `esp_timer_get_time()`.
- `src/ssdp.c` and `examples/ssdp_example/main/ssdp_example.c` are not part of this model: the first is an unfinished draft and the second is application glue.
