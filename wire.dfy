/**
  Reading a datagram back the way an SSDP client does: split the text into lines
  at CRLF and look header lines "name: value" up by name. This reader is the
  partner of the packet composer in Templates: every header ssdp_send prints is
  found again, with the value that was printed.
*/
module Wire {
  import opened CText
  import opened Templates

  /** The lines of a text, split at each CRLF; the part after the last CRLF is the last line. */
  function Lines(s: string): (ls: seq<string>)
    ensures |ls| >= 1
    decreases |s|
  {
    if |s| >= 2 && s[0] == '\r' && s[1] == '\n' then [""] + Lines(s[2..])
    else if s == [] then [""]
    else
      var rest := Lines(s[1..]);
      [[s[0]] + rest[0]] + rest[1..]
  }

  predicate NoCr(s: string) { '\r' !in s }

  lemma {:induction false} LinesCrlf(a: string, b: string)
    requires NoCr(a)
    ensures Lines(a + "\r\n" + b) == [a] + Lines(b)
    decreases |a|
  {
    if a == [] {
      assert a + "\r\n" + b == "\r\n" + b;
      assert ("\r\n" + b)[2..] == b;
    } else {
      var s := a + "\r\n" + b;
      assert s[1..] == a[1..] + "\r\n" + b;
      LinesCrlf(a[1..], b);
      assert [a[0]] + a[1..] == a;
    }
  }

  /** Splitting joined CR-free lines gives them back, followed by the empty rest. */
  lemma {:induction false} LinesJoin(ls: seq<string>)
    requires forall i :: 0 <= i < |ls| ==> NoCr(ls[i])
    ensures Lines(Join(ls)) == ls + [""]
  {
    if ls != [] {
      LinesCrlf(ls[0], Join(ls[1..]));
      LinesJoin(ls[1..]);
      assert ls == [ls[0]] + ls[1..];
    }
  }

  lemma {:induction false} JoinAppend(a: seq<string>, b: seq<string>)
    ensures Join(a + b) == Join(a) + Join(b)
  {
    if a != [] {
      assert (a + b)[1..] == a[1..] + b;
      JoinAppend(a[1..], b);
      calc {
        Join(a + b);
        a[0] + "\r\n" + Join(a[1..] + b);
        a[0] + "\r\n" + (Join(a[1..]) + Join(b));
        (a[0] + "\r\n" + Join(a[1..])) + Join(b);
      }
    } else {
      assert a + b == b;
    }
  }

  lemma ReplyEnvelopeJoin()
    ensures Join(EnvelopeLines(Reply)) == RESPONSE_TEMPLATE
  {
    var env := EnvelopeLines(Reply);
    assert env[0..] == env;
    JoinStep(env, 0);
    JoinStep(env, 1);
    assert env[2..] == [];
  }

  lemma NotifyEnvelopeJoin()
    ensures Join(EnvelopeLines(Notify)) == NOTIFY_TEMPLATE
  {
    var env := EnvelopeLines(Notify);
    assert env[0..] == env;
    JoinStep(env, 0);
    JoinStep(env, 1);
    JoinStep(env, 2);
    assert env[3..] == [];
  }

  /** The line is the header "name: value" for some value. */
  predicate HasName(line: string, name: string)
  {
    |line| >= |name| + 2 && line[..|name| + 2] == name + ": "
  }

  /** The value of the first header line with the given name. */
  function Field(ls: seq<string>, name: string): Option<string>
  {
    if ls == [] then None
    else if HasName(ls[0], name) then Some(ls[0][|name| + 2..])
    else Field(ls[1..], name)
  }

  lemma HeaderRead(name: string, value: string)
    ensures HasName(Header(name, value), name) && Header(name, value)[|name| + 2..] == value
    ensures forall i :: 0 <= i < |name| ==> Header(name, value)[i] == name[i]
  {
  }

  /** A line that differs from "name: " at position i is not that header. */
  lemma DiffersAt(line: string, name: string, i: nat)
    requires i < |line| && i < |name| + 2 && line[i] != (name + ": ")[i]
    ensures !HasName(line, name)
  {
    if |line| >= |name| + 2 {
      assert line[..|name| + 2][i] == line[i];
    }
  }

  lemma FieldAt(ls: seq<string>, k: nat, name: string)
    requires k < |ls| && HasName(ls[k], name)
    ensures Field(ls[k..], name) == Some(ls[k][|name| + 2..])
  {
  }

  /** Lines i to k - 1 are not the header: the lookup goes on from line k. */
  lemma {:induction false} FieldSkipTo(ls: seq<string>, i: nat, k: nat, name: string)
    requires i <= k <= |ls|
    requires forall j :: i <= j < k ==> !HasName(ls[j], name)
    ensures Field(ls[i..], name) == Field(ls[k..], name)
    decreases k - i
  {
    if i < k {
      assert ls[i..][1..] == ls[i + 1..];
      FieldSkipTo(ls, i + 1, k, name);
    }
  }

  /** The printed strings that end up inside header lines carry no CR. */
  predicate PrintableFields(id: Identity, usnSuffix: string, respondType: string)
  {
    NoCr(OrEmpty(id.serverName)) && NoCr(OrEmpty(id.modelName)) && NoCr(OrEmpty(id.modelNumber))
    && NoCr(id.uuid) && NoCr(usnSuffix) && NoCr(respondType) && NoCr(OrEmpty(id.schemaUrl))
  }

  lemma NoCrDigits(s: string)
    requires forall i :: 0 <= i < |s| ==> s[i] == '.' || IsDigit(s[i])
    ensures NoCr(s)
  {
  }

  lemma HeaderNoCr(name: string, value: string)
    requires NoCr(name) && NoCr(value)
    ensures NoCr(Header(name, value))
  {
  }

  lemma EnvelopeNoCr(kind: SendKind)
    ensures forall i :: 0 <= i < |EnvelopeLines(kind)| ==> NoCr(EnvelopeLines(kind)[i])
  {
    if kind == Reply {
      assert NoCr("HTTP/1.1 200 OK") && NoCr("EXT:");
    } else {
      assert NoCr("NOTIFY * HTTP/1.1");
      assert NoCr("HOST: 239.255.255.250:1900");
      assert NoCr("NTS: ssdp:alive");
    }
  }

  lemma BodyHeadNoCr(kind: SendKind, id: Identity, interval: uint32, port: uint16,
                     usnSuffix: string, respondType: string, ip: Ip4)
    requires PrintableFields(id, usnSuffix, respondType)
    ensures var body := PacketBody(kind, id, interval, port, usnSuffix, respondType, ip);
            NoCr(body[0]) && NoCr(body[1]) && NoCr(body[2])
  {
    NoCrDigits(Dec(interval));
    HeaderNoCr("CACHE-CONTROL", "max-age=" + Dec(interval));
    HeaderNoCr("SERVER", OrEmpty(id.serverName) + " UPNP/1.1 " + OrEmpty(id.modelName) + "/" + OrEmpty(id.modelNumber));
    HeaderNoCr("USN", "uuid:" + id.uuid + usnSuffix);
  }

  lemma BodyTailNoCr(kind: SendKind, id: Identity, interval: uint32, port: uint16,
                     usnSuffix: string, respondType: string, ip: Ip4)
    requires PrintableFields(id, usnSuffix, respondType)
    ensures var body := PacketBody(kind, id, interval, port, usnSuffix, respondType, ip);
            NoCr(body[3]) && NoCr(body[4]) && NoCr(body[5])
  {
    NoCrDigits(Dec(port));
    NoCrDigits(Dotted(ip));
    HeaderNoCr(Tag(kind), respondType);
    HeaderNoCr("LOCATION", "http://" + Dotted(ip) + ":" + Dec(port) + "/" + OrEmpty(id.schemaUrl));
  }

  lemma BodyNoCr(kind: SendKind, id: Identity, interval: uint32, port: uint16,
                 usnSuffix: string, respondType: string, ip: Ip4)
    requires PrintableFields(id, usnSuffix, respondType)
    ensures var body := PacketBody(kind, id, interval, port, usnSuffix, respondType, ip);
            forall i :: 0 <= i < |body| ==> NoCr(body[i])
  {
    BodyHeadNoCr(kind, id, interval, port, usnSuffix, respondType, ip);
    BodyTailNoCr(kind, id, interval, port, usnSuffix, respondType, ip);
  }

  /**
    A receiver that splits the datagram at CRLF gets back the envelope lines, the
    header lines of the template in order, and a blank line that ends the header
    block, after which nothing follows.
  */
  lemma PacketLines(kind: SendKind, id: Identity, interval: uint32, port: uint16,
                    usnSuffix: string, respondType: string, ip: Ip4)
    requires PrintableFields(id, usnSuffix, respondType)
    ensures Lines(PacketText(kind, id, interval, port, usnSuffix, respondType, ip))
            == EnvelopeLines(kind) + PacketBody(kind, id, interval, port, usnSuffix, respondType, ip) + [""]
  {
    var env := EnvelopeLines(kind);
    var body := PacketBody(kind, id, interval, port, usnSuffix, respondType, ip);
    if kind == Reply {
      ReplyEnvelopeJoin();
    } else {
      NotifyEnvelopeJoin();
    }
    JoinAppend(env, body);
    EnvelopeNoCr(kind);
    BodyNoCr(kind, id, interval, port, usnSuffix, respondType, ip);
    assert forall i :: 0 <= i < |env + body| ==> NoCr((env + body)[i]);
    LinesJoin(env + body);
  }

  /**
    Looking the headers of the datagram up by name yields the cache lifetime, the
    USN built from the UUID and suffix, the search or notification type under ST
    or NT, and the description URL on the device's own address; the first line is
    the start line of the envelope.
  */
  lemma PacketHeaders(kind: SendKind, id: Identity, interval: uint32, port: uint16,
                      usnSuffix: string, respondType: string, ip: Ip4)
    requires PrintableFields(id, usnSuffix, respondType)
    ensures var ls := Lines(PacketText(kind, id, interval, port, usnSuffix, respondType, ip));
            && ls[0] == (if kind == Reply then "HTTP/1.1 200 OK" else "NOTIFY * HTTP/1.1")
            && Field(ls, "CACHE-CONTROL") == Some("max-age=" + Dec(interval))
            && Field(ls, "USN") == Some("uuid:" + id.uuid + usnSuffix)
            && Field(ls, Tag(kind)) == Some(respondType)
            && Field(ls, "LOCATION") == Some("http://" + Dotted(ip) + ":" + Dec(port) + "/" + OrEmpty(id.schemaUrl))
  {
    PacketLines(kind, id, interval, port, usnSuffix, respondType, ip);
    var body := PacketBody(kind, id, interval, port, usnSuffix, respondType, ip);
    HeaderRead("CACHE-CONTROL", "max-age=" + Dec(interval));
    HeaderRead("SERVER", OrEmpty(id.serverName) + " UPNP/1.1 " + OrEmpty(id.modelName) + "/" + OrEmpty(id.modelNumber));
    HeaderRead("USN", "uuid:" + id.uuid + usnSuffix);
    HeaderRead(Tag(kind), respondType);
    HeaderRead("LOCATION", "http://" + Dotted(ip) + ":" + Dec(port) + "/" + OrEmpty(id.schemaUrl));
    var ls := EnvelopeLines(kind) + body + [""];
    var e := |EnvelopeLines(kind)|;
    assert ls[0..] == ls;
    assert ls[e..] == body + [""];
    EnvelopeSkip(kind, body, "CACHE-CONTROL");
    EnvelopeSkip(kind, body, "USN");
    EnvelopeSkip(kind, body, Tag(kind));
    EnvelopeSkip(kind, body, "LOCATION");
    BodyLookups(kind, body);
  }

  /** No envelope line is one of the headers the packet carries. */
  lemma EnvelopeSkip(kind: SendKind, body: seq<string>, name: string)
    requires name == "CACHE-CONTROL" || name == "USN" || name == "LOCATION" || name == Tag(kind)
    ensures var ls := EnvelopeLines(kind) + body + [""];
            Field(ls[0..], name) == Field(ls[|EnvelopeLines(kind)|..], name)
  {
    var ls := EnvelopeLines(kind) + body + [""];
    if kind == Reply {
      assert ls[0] == "HTTP/1.1 200 OK" && ls[1] == "EXT:";
      DiffersAt(ls[0], name, 0);
      DiffersAt(ls[1], name, 0);
      FieldSkipTo(ls, 0, 2, name);
    } else {
      assert ls[0] == "NOTIFY * HTTP/1.1" && ls[1] == "HOST: 239.255.255.250:1900" && ls[2] == "NTS: ssdp:alive";
      if name == "NT" {
        DiffersAt(ls[0], name, 1);
        DiffersAt(ls[1], name, 0);
        DiffersAt(ls[2], name, 2);
      } else {
        DiffersAt(ls[0], name, 0);
        DiffersAt(ls[1], name, 0);
        DiffersAt(ls[2], name, 0);
      }
      FieldSkipTo(ls, 0, 3, name);
    }
  }

  /** After the envelope, each header is the first line with its name. */
  lemma BodyLookups(kind: SendKind, body: seq<string>)
    requires |body| == 6
    requires HasName(body[0], "CACHE-CONTROL") && |body[1]| >= 2 && body[1][..2] == "SE"
    requires HasName(body[2], "USN") && HasName(body[3], Tag(kind)) && HasName(body[4], "LOCATION")
    ensures var ls := body + [""];
            && Field(ls, "CACHE-CONTROL") == Some(body[0][15..])
            && Field(ls, "USN") == Some(body[2][5..])
            && Field(ls, Tag(kind)) == Some(body[3][4..])
            && Field(ls, "LOCATION") == Some(body[4][10..])
  {
    var ls := body + [""];
    assert ls[0..] == ls;
    assert body[0][0] == 'C' && body[2][0] == 'U' && body[4][0] == 'L' by {
      assert body[0][..15][0] == body[0][0];
      assert body[2][..5][0] == body[2][0];
      assert body[4][..10][0] == body[4][0];
    }
    assert body[1][0] == 'S' && body[1][1] == 'E' by {
      assert body[1][..2][0] == body[1][0] && body[1][..2][1] == body[1][1];
    }
    FieldAt(ls, 0, "CACHE-CONTROL");

    DiffersAt(ls[0], "USN", 0);
    DiffersAt(ls[1], "USN", 0);
    FieldSkipTo(ls, 0, 2, "USN");
    FieldAt(ls, 2, "USN");

    DiffersAt(ls[0], Tag(kind), 0);
    DiffersAt(ls[1], Tag(kind), 1);
    DiffersAt(ls[2], Tag(kind), 0);
    FieldSkipTo(ls, 0, 3, Tag(kind));
    FieldAt(ls, 3, Tag(kind));

    DiffersAt(ls[0], "LOCATION", 0);
    DiffersAt(ls[1], "LOCATION", 0);
    DiffersAt(ls[2], "LOCATION", 0);
    DiffersAt(ls[3], "LOCATION", 0);
    FieldSkipTo(ls, 0, 4, "LOCATION");
    FieldAt(ls, 4, "LOCATION");
  }
}
