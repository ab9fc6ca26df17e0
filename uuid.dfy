/**
  Device identity: the UUID derived from a root prefix and the MAC address
  (ssdp_set_UUID) and the choice, made by ssdp_start, between the built-in root,
  a configured root and a configured full UUID.
*/
module Uuid {
  import opened CText

  /** The built-in root: 30 characters, to which six hex digits are appended. */
  const UUID_ROOT: string := "38323636-4558-4dda-9188-cda0e6"
  /** The length a configured full UUID must have. */
  const UUID_SIZE: nat := 37

  /** One lower-case hex digit, as printed by "%x". */
  function HexDigit(d: nat): (c: char)
    requires d < 16
  {
    if d < 10 then ('0' as int + d) as char else ('a' as int + d - 10) as char
  }

  predicate IsLowerHex(c: char) { '0' <= c <= '9' || 'a' <= c <= 'f' }

  /** The value of a lower-case hex digit. */
  function HexValue(c: char): nat
    requires IsLowerHex(c)
  {
    if c <= '9' then c as int - '0' as int else c as int - 'a' as int + 10
  }

  /** "%02x" of one byte. */
  function Hex2(b: uint8): (r: string)
  {
    [HexDigit(b / 16), HexDigit(b % 16)]
  }

  /** The byte a two-digit lower-case hex string denotes. */
  function HexByte(s: string): nat
    requires |s| == 2 && IsLowerHex(s[0]) && IsLowerHex(s[1])
  {
    16 * HexValue(s[0]) + HexValue(s[1])
  }

  /** "%02x" prints two lower-case hex digits from which the byte reads back. */
  lemma Hex2RoundTrip(b: uint8)
    ensures |Hex2(b)| == 2 && IsLowerHex(Hex2(b)[0]) && IsLowerHex(Hex2(b)[1])
    ensures HexByte(Hex2(b)) == b
  {
  }

  /**
    ssdp_set_UUID: the root followed by mac[2], mac[1], mac[0] in "%02x".
    When the MAC cannot be read the address is taken as all zeros.
  */
  function SetUuid(root: string, mac: seq<uint8>, macRead: bool): (uuid: string)
    requires |mac| == 6
    ensures |uuid| == |root| + 6 && uuid[..|root|] == root
    ensures forall i | |root| <= i < |uuid| :: IsLowerHex(uuid[i])
  {
    var m: seq<uint8> := if macRead then mac else [0, 0, 0, 0, 0, 0];
    root + Hex2(m[2]) + Hex2(m[1]) + Hex2(m[0])
  }

  /**
    The six digits after the root read back as the three low-order MAC bytes,
    in the order mac[2], mac[1], mac[0]; zeros when the MAC read failed.
  */
  lemma SetUuidEncodesMac(root: string, mac: seq<uint8>, macRead: bool)
    requires |mac| == 6
    ensures var u := SetUuid(root, mac, macRead);
            var n := |root|;
            && HexByte(u[n..n + 2]) == (if macRead then mac[2] else 0)
            && HexByte(u[n + 2..n + 4]) == (if macRead then mac[1] else 0)
            && HexByte(u[n + 4..n + 6]) == (if macRead then mac[0] else 0)
  {
    var m: seq<uint8> := if macRead then mac else [0, 0, 0, 0, 0, 0];
    var u := SetUuid(root, mac, macRead);
    var n := |root|;
    assert u[n..n + 2] == Hex2(m[2]);
    assert u[n + 2..n + 4] == Hex2(m[1]);
    assert u[n + 4..n + 6] == Hex2(m[0]);
    Hex2RoundTrip(m[2]);
    Hex2RoundTrip(m[1]);
    Hex2RoundTrip(m[0]);
  }

  /** Two identities that differ in one of the three low MAC bytes get different UUIDs. */
  lemma SetUuidInjective(root: string, mac1: seq<uint8>, mac2: seq<uint8>)
    requires |mac1| == 6 && |mac2| == 6
    requires mac1[..3] != mac2[..3]
    ensures SetUuid(root, mac1, true) != SetUuid(root, mac2, true)
  {
    SetUuidEncodesMac(root, mac1, true);
    SetUuidEncodesMac(root, mac2, true);
    assert mac1[0] != mac2[0] || mac1[1] != mac2[1] || mac1[2] != mac2[2];
  }

  /** With the built-in root and MAC AA:BB:CC:DD:EE:FF the bytes CC, BB, AA are used. */
  lemma DefaultRootExample()
    ensures SetUuid(UUID_ROOT, [0xAA, 0xBB, 0xCC, 0xDD, 0xEE, 0xFF], true)
            == "38323636-4558-4dda-9188-cda0e6ccbbaa"
  {
    assert Hex2(0xCC) == "cc" && Hex2(0xBB) == "bb" && Hex2(0xAA) == "aa";
  }

  /** The digits after the root do not depend on the root. */
  lemma SetUuidSuffix(root: string, mac: seq<uint8>, macRead: bool)
    requires |mac| == 6
    ensures SetUuid(root, mac, macRead)[|root|..] == SetUuid("", mac, macRead)
  {
    var m: seq<uint8> := if macRead then mac else [0, 0, 0, 0, 0, 0];
    assert SetUuid(root, mac, macRead) == root + (Hex2(m[2]) + Hex2(m[1]) + Hex2(m[0]));
    assert SetUuid("", mac, macRead) == Hex2(m[2]) + Hex2(m[1]) + Hex2(m[0]);
  }

  /** A configuration string left out: NULL or "". */
  predicate Blank(o: Option<string>) { o.None? || o.value == "" }

  /**
    The UUID selection of ssdp_start: with neither a root nor a UUID configured,
    the built-in root and the MAC; with only a root, that root (which must have
    the built-in root's length) and the MAC; otherwise the configured UUID, which
    must be UUID_SIZE characters long. None stands for ESP_ERR_INVALID_ARG.
  */
  function SelectUuid(uuidRoot: Option<string>, uuid: Option<string>, mac: seq<uint8>, macRead: bool)
    : (r: Option<string>)
    requires |mac| == 6
    ensures r.Some? ==> |r.value| == |UUID_ROOT| + 6 || |r.value| == UUID_SIZE
    ensures r.Some? && Blank(uuid) ==> r.value[|UUID_ROOT|..] == SetUuid("", mac, macRead)
    ensures !Blank(uuid) ==> (r.Some? <==> |uuid.value| == UUID_SIZE) && (r.Some? ==> r.value == uuid.value)
    ensures Blank(uuid) && !Blank(uuidRoot) ==>
              (r.Some? <==> |uuidRoot.value| == |UUID_ROOT|) && (r.Some? ==> r.value[..|UUID_ROOT|] == uuidRoot.value)
    ensures Blank(uuid) && Blank(uuidRoot) ==> r == Some(SetUuid(UUID_ROOT, mac, macRead))
  {
    if Blank(uuidRoot) && Blank(uuid) then
      SetUuidSuffix(UUID_ROOT, mac, macRead);
      Some(SetUuid(UUID_ROOT, mac, macRead))
    else if Blank(uuid) then
      if |uuidRoot.value| == |UUID_ROOT| then
        SetUuidSuffix(uuidRoot.value, mac, macRead);
        Some(SetUuid(uuidRoot.value, mac, macRead))
      else None
    else
      if |uuid.value| == UUID_SIZE then Some(uuid.value) else None
  }
}
