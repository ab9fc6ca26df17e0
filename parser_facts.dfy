/**
  What the M-SEARCH reader of onPacket does with whole pieces of a datagram: the
  request line gate, header lines, the blank line that ends the headers, and
  the quirks of the byte-at-a-time machine (ABORT that only acts on later bytes).
*/
module ParserFacts {
  import opened CText
  import opened Timing
  import opened Parser

  /** The reader as onPacket starts on a datagram. */
  predicate Fresh(s: Scanner)
  {
    Inv(s) && s == Initial(s.respondType, s.usnSuffix, s.delay)
  }

  /** Reading a and then b is reading a + b. */
  lemma {:induction false} ScanAppend(ctx: Context, s: Scanner, a: seq<char>, b: seq<char>)
    requires Shaped(s)
    ensures Scan(ctx, s, a + b) == Scan(ctx, Scan(ctx, s, a), b)
    decreases |a|
  {
    if a == [] {
      assert a + b == b;
    } else {
      assert (a + b)[0] == a[0] && (a + b)[1..] == a[1..] + b;
      ScanAppend(ctx, Step(ctx, s, a[0]), a[1..], b);
    }
  }

  lemma ScanOne(ctx: Context, s: Scanner, c: char)
    requires Shaped(s)
    ensures Scan(ctx, s, [c]) == Step(ctx, s, c)
  {
    assert [c][1..] == [];
  }

  /** Reading a and then the byte c. */
  lemma ScanSnoc(ctx: Context, s: Scanner, a: seq<char>, c: char)
    requires Shaped(s)
    ensures Scan(ctx, s, a + [c]) == Step(ctx, Scan(ctx, s, a), c)
  {
    ScanAppend(ctx, s, a, [c]);
    ScanOne(ctx, Scan(ctx, s, a), c);
  }

  /** The most bytes a state keeps in the buffer. */
  function Cap(p: Phase): nat
  {
    if p == Method then METHOD_SIZE - 1 else if p == Uri then URI_SIZE - 1 else BUFFER_SIZE - 1
  }

  /** A byte that the current state stores while there is room, and otherwise drops. */
  predicate Stores(s: Scanner, c: char)
  {
    match s.phase
    case Method => c != ' '
    case Uri => c != ' '
    case Key => KeyChar(c) && c != ':'
    case Value => s.header != Strip && !IsCrLf(c)
    case Proto => false
    case Abort => false
  }

  lemma StepStores(ctx: Context, s: Scanner, c: char)
    requires Shaped(s) && s.cursor <= Cap(s.phase) && Stores(s, c)
    ensures var s1 := s.(cr := CountCr(s.cr, c));
            Step(ctx, s, c) == if s.cursor < Cap(s.phase) then Put(s1, c) else s1
  {
  }

  /** The buffer b after the bytes of w are stored from index n on, up to index cap, as Put does. */
  function Writes(b: seq<char>, n: nat, w: seq<char>, cap: nat): (r: seq<char>)
    requires n <= cap < |b|
    ensures |r| == |b|
    decreases |w|
  {
    if w == [] || n == cap then b else Writes(b[n := w[0]][n + 1 := '\0'], n + 1, w[1..], cap)
  }

  /** The buffer b with the bytes t written from index n and a terminator after them. */
  function Fill(b: seq<char>, n: nat, t: seq<char>): (r: seq<char>)
    requires n + |t| < |b|
    ensures |r| == |b|
  {
    if t == [] then b else b[..n] + t + ['\0'] + b[n + |t| + 1..]
  }

  /** The two writes of Put as slices of the buffer. */
  lemma PutSlices(b: seq<char>, n: nat, c: char)
    requires n + 1 < |b|
    ensures b[n := c][n + 1 := '\0'] == b[..n] + [c] + ['\0'] + b[n + 2..]
  {
    var l := b[n := c][n + 1 := '\0'];
    var r := b[..n] + [c] + ['\0'] + b[n + 2..];
    assert |l| == |r|;
    forall i | 0 <= i < |l| ensures l[i] == r[i] {
      if i < n {
        assert r[i] == b[i];
      } else if i >= n + 2 {
        assert r[i] == b[n + 2..][i - n - 2];
      }
    }
  }

  lemma FillPut(b: seq<char>, n: nat, c: char, t: seq<char>)
    requires n + 1 + |t| < |b|
    ensures Fill(b[n := c][n + 1 := '\0'], n + 1, t) == Fill(b, n, [c] + t)
  {
    var b1 := b[n := c][n + 1 := '\0'];
    PutSlices(b, n, c);
    if t != [] {
      assert b1[..n + 1] == b[..n] + [c];
      assert b1[n + 1 + |t| + 1..] == b[n + |t| + 2..];
      assert b[..n] + [c] + t == b[..n] + ([c] + t);
    }
  }

  /** Storing w keeps its first cap - n bytes, each followed by the terminator. */
  lemma {:induction false} WritesFill(b: seq<char>, n: nat, w: seq<char>, cap: nat)
    requires n <= cap < |b|
    ensures Writes(b, n, w, cap) == Fill(b, n, Truncate(w, cap - n))
    decreases |w|
  {
    if w != [] && n < cap {
      WritesFill(b[n := w[0]][n + 1 := '\0'], n + 1, w[1..], cap);
      var t1 := Truncate(w[1..], cap - n - 1);
      FillPut(b, n, w[0], t1);
      assert Truncate(w, cap - n) == [w[0]] + t1;
    } else if w != [] {
      assert Truncate(w, 0) == [];
    }
  }

  /** Bytes written from the start of the buffer lead it, with the terminator after them. */
  lemma FillStart(b: seq<char>, t: seq<char>)
    requires 0 < |t| < |b|
    ensures var r := Fill(b, 0, t); r[..|t|] == t && r[|t|] == '\0'
  {
    var r := Fill(b, 0, t);
    assert b[..0] + t == t;
    assert r == t + ['\0'] + b[|t| + 1..];
  }

  /** The C string of a buffer written from its start is the kept part of what was written. */
  lemma CStrWrites(b: seq<char>, w: seq<char>, cap: nat)
    requires 0 < cap < |b| && w != []
    ensures CStr(Writes(b, 0, w, cap)) == CStr(Truncate(w, cap))
  {
    var t := Truncate(w, cap);
    WritesFill(b, 0, w, cap);
    FillStart(b, t);
    CStrCut(Fill(b, 0, t), |t|);
  }

  /** A token stored whole from the start of the buffer is its C string. */
  lemma CStrStored(b: seq<char>, t: seq<char>)
    requires |b| == BUFFER_SIZE && 0 < |t| < BUFFER_SIZE && '\0' !in t
    ensures CStr(Writes(b, 0, t, BUFFER_SIZE - 1)) == t
  {
    CStrWrites(b, t, BUFFER_SIZE - 1);
    assert Truncate(t, BUFFER_SIZE - 1) == t;
    CStrUnique(t, t);
  }

  /** A C string of a string without NUL is the string itself. */
  lemma CStrWhole(t: seq<char>)
    requires '\0' !in t
    ensures CStr(t) == t
  {
    CStrUnique(t, t);
  }

  /**
    Bytes that the current state stores are kept from the cursor on, up to the
    state's limit, each followed by the terminator; nothing else changes but
    the CR/LF count.
  */
  lemma {:induction false} StoreRun(ctx: Context, s: Scanner, w: seq<char>)
    requires Shaped(s) && s.cursor <= Cap(s.phase) && forall i :: 0 <= i < |w| ==> Stores(s, w[i])
    ensures var r := Scan(ctx, s, w);
            r == s.(cr := r.cr, cursor := s.cursor + Min(|w|, Cap(s.phase) - s.cursor),
                    buffer := Writes(s.buffer, s.cursor, w, Cap(s.phase)))
    decreases |w|
  {
    if w != [] {
      StepStores(ctx, s, w[0]);
      var s1 := Step(ctx, s, w[0]);
      assert forall i :: 0 <= i < |w[1..]| ==> Stores(s1, w[1..][i]) by {
        forall i | 0 <= i < |w[1..]| ensures Stores(s1, w[1..][i]) {
          assert Stores(s, w[i + 1]);
        }
      }
      StoreRun(ctx, s1, w[1..]);
    }
  }

  /** After a byte other than CR and LF the CR/LF count is zero. */
  lemma CrAfter(ctx: Context, s: Scanner, w: seq<char>)
    requires Shaped(s) && w != [] && !IsCrLf(w[|w| - 1])
    ensures Scan(ctx, s, w).cr == 0
  {
    assert w == w[..|w| - 1] + [w[|w| - 1]];
    ScanSnoc(ctx, s, w[..|w| - 1], w[|w| - 1]);
    StepCr(ctx, Scan(ctx, s, w[..|w| - 1]), w[|w| - 1]);
  }

  /** ABORT is never left; every byte read in it clears pending and the delay. */
  lemma {:induction false} AbortAbsorbs(ctx: Context, s: Scanner, data: seq<char>)
    requires Shaped(s) && s.phase == Abort
    ensures var r := Scan(ctx, s, data);
            && r.phase == Abort && r.header == s.header && r.undefined == s.undefined
            && r.respondType == s.respondType && r.usnSuffix == s.usnSuffix && r.stmatch == s.stmatch
            && (data == [] ==> r == s)
            && (data != [] ==> !r.pending && r.delay == 0)
    decreases |data|
  {
    if data != [] {
      var s1 := Step(ctx, s, data[0]);
      assert s1 == s.(cr := CountCr(s.cr, data[0]), pending := false, delay := 0);
      AbortAbsorbs(ctx, s1, data[1..]);
    }
  }

  /** A datagram whose reading is defined was defined at every earlier byte. */
  /** One more byte of a defined scan: the next prefix is one Step on, defined, and keeps Inv. */
  lemma ScanNext(ctx: Context, s: Scanner, data: seq<char>, i: nat)
    requires Shaped(s) && i < |data| && !Scan(ctx, s, data).undefined && Inv(Scan(ctx, s, data[..i]))
    ensures Scan(ctx, s, data[..i + 1]) == Step(ctx, Scan(ctx, s, data[..i]), data[i])
    ensures !Scan(ctx, s, data[..i + 1]).undefined && Inv(Scan(ctx, s, data[..i + 1]))
  {
    assert data[..i + 1] == data[..i] + [data[i]];
    ScanSnoc(ctx, s, data[..i], data[i]);
    PrefixDefined(ctx, s, data, i + 1);
    StepInv(ctx, Scan(ctx, s, data[..i]), data[i]);
  }

  lemma PrefixDefined(ctx: Context, s: Scanner, data: seq<char>, i: nat)
    requires Shaped(s) && i <= |data| && !Scan(ctx, s, data).undefined
    ensures !Scan(ctx, s, data[..i]).undefined
  {
    assert data == data[..i] + data[i..];
    ScanAppend(ctx, s, data[..i], data[i..]);
  }

  /** The method token: bytes up to the first space are stored, at most 9 of them. */
  lemma MethodToken(ctx: Context, s0: Scanner, w: seq<char>)
    requires Fresh(s0) && ' ' !in w
    ensures var r := Scan(ctx, s0, w);
            r == s0.(cr := r.cr, cursor := Min(|w|, METHOD_SIZE - 1),
                     buffer := Writes(Zeros(BUFFER_SIZE), 0, w, METHOD_SIZE - 1))
  {
    assert forall i :: 0 <= i < |w| ==> Stores(s0, w[i]);
    StoreRun(ctx, s0, w);
  }

  /** The space after the method token: only "M-SEARCH", as kept in 9 bytes, leads on to the URI. */
  lemma MethodLine(ctx: Context, s0: Scanner, w: seq<char>)
    requires Fresh(s0) && ' ' !in w
    ensures var b := Writes(Zeros(BUFFER_SIZE), 0, w, METHOD_SIZE - 1);
            && Scan(ctx, s0, w + " ") == s0.(cr := 0, buffer := b, phase := if CStr(b) == "M-SEARCH" then Uri else Abort)
            && CStr(b) == CStr(Truncate(w, METHOD_SIZE - 1))
  {
    MethodToken(ctx, s0, w);
    ScanSnoc(ctx, s0, w, ' ');
    if w != [] {
      CStrWrites(Zeros(BUFFER_SIZE), w, METHOD_SIZE - 1);
    }
  }

  /** The URI token: bytes up to the next space, of which only the first is stored. */
  lemma UriToken(ctx: Context, s: Scanner, u: seq<char>)
    requires Inv(s) && s.phase == Uri && s.cursor == 0 && ' ' !in u
    ensures var r := Scan(ctx, s, u);
            r == s.(cr := r.cr, cursor := Min(|u|, URI_SIZE - 1), buffer := Writes(s.buffer, 0, u, URI_SIZE - 1))
  {
    assert forall i :: 0 <= i < |u| ==> Stores(s, u[i]);
    StoreRun(ctx, s, u);
  }

  /** The space after the URI token: only a first byte '*' leads on to the protocol. */
  lemma UriLine(ctx: Context, s: Scanner, u: seq<char>)
    requires Inv(s) && s.phase == Uri && s.cursor == 0 && ' ' !in u
    ensures var b := Writes(s.buffer, 0, u, URI_SIZE - 1);
            Scan(ctx, s, u + " ") == s.(cr := 0, buffer := b, phase := if CStr(b) == "*" then Proto else Abort)
  {
    UriToken(ctx, s, u);
    ScanSnoc(ctx, s, u, ' ');
  }

  /** The request line passes when the method, cut to 9 bytes, is "M-SEARCH" and the URI starts with '*'. */
  predicate Gate(w: seq<char>, u: seq<char>)
  {
    CStr(Truncate(w, METHOD_SIZE - 1)) == "M-SEARCH" && u != [] && u[0] == '*'
  }

  /** After a method token that passed, the URI's C string is "*" exactly when the URI starts with '*'. */
  lemma UriGate(b: seq<char>, w: seq<char>, u: seq<char>)
    requires |b| == BUFFER_SIZE && CStr(b) == "M-SEARCH" && CStr(Truncate(w, METHOD_SIZE - 1)) == "M-SEARCH"
    ensures CStr(Writes(b, 0, u, URI_SIZE - 1)) == "*" <==> Gate(w, u)
  {
    if u != [] {
      CStrWrites(b, u, URI_SIZE - 1);
      assert Truncate(u, URI_SIZE - 1) == [u[0]];
      assert CStr([u[0]]) == if u[0] == '\0' then [] else [u[0]];
    }
  }

  /**
    After the method token, a space, the URI token and a space, the reader is in
    PROTO exactly when the gate holds and in ABORT otherwise; pending is still
    clear and the configuration fields are untouched.
  */
  lemma RequestLine(ctx: Context, s0: Scanner, w: seq<char>, u: seq<char>)
    requires Fresh(s0) && ' ' !in w && ' ' !in u
    ensures var r := Scan(ctx, s0, w + " " + u + " ");
            && r.phase == (if Gate(w, u) then Proto else Abort)
            && !r.pending && !r.stmatch && !r.undefined && r.header == Strip
            && r.respondType == s0.respondType && r.usnSuffix == s0.usnSuffix
            && (Gate(w, u) ==> r.cr == 0 && r.cursor == 0 && r.delay == s0.delay)
  {
    MethodLine(ctx, s0, w);
    var s1 := Scan(ctx, s0, w + " ");
    assert w + " " + u + " " == (w + " ") + (u + " ");
    ScanAppend(ctx, s0, w + " ", u + " ");
    if s1.phase == Abort {
      AbortAbsorbs(ctx, s1, u + " ");
    } else {
      UriLine(ctx, s1, u);
      UriGate(s1.buffer, w, u);
    }
  }

  /** A request line that fails the gate is never answered, whatever follows it. */
  lemma GateRejects(ctx: Context, s0: Scanner, w: seq<char>, u: seq<char>, rest: seq<char>)
    requires Fresh(s0) && ' ' !in w && ' ' !in u && !Gate(w, u)
    ensures var r := Scan(ctx, s0, w + " " + u + " " + rest);
            r.phase == Abort && !r.pending
  {
    RequestLine(ctx, s0, w, u);
    ScanAppend(ctx, s0, w + " " + u + " ", rest);
    AbortAbsorbs(ctx, Scan(ctx, s0, w + " " + u + " "), rest);
  }

  /** The index of the first space, or the length when there is none. */
  function SpaceAt(data: seq<char>): (i: nat)
    ensures i <= |data| && ' ' !in data[..i]
    ensures i < |data| ==> data[i] == ' '
  {
    if data == [] || data[0] == ' ' then 0
    else
      var j := SpaceAt(data[1..]);
      assert data[..j + 1] == [data[0]] + data[1..][..j];
      j + 1
  }

  /** Without a space after the method token nothing is pending. */
  lemma NoMethodEnd(ctx: Context, s0: Scanner, data: seq<char>)
    requires Fresh(s0) && ' ' !in data
    ensures !Scan(ctx, s0, data).pending
  {
    MethodToken(ctx, s0, data);
  }

  /** Without a space after the URI token nothing is pending. */
  lemma NoUriEnd(ctx: Context, s0: Scanner, w: seq<char>, more: seq<char>)
    requires Fresh(s0) && ' ' !in w && ' ' !in more
    ensures !Scan(ctx, s0, w + " " + more).pending
  {
    MethodLine(ctx, s0, w);
    ScanAppend(ctx, s0, w + " ", more);
    var s1 := Scan(ctx, s0, w + " ");
    if s1.phase == Abort {
      AbortAbsorbs(ctx, s1, more);
    } else {
      UriToken(ctx, s1, more);
    }
  }

  /** A datagram cut at its first two spaces. */
  lemma SplitAtSpaces(data: seq<char>, i: nat, k: nat)
    requires i < |data| && data[i] == ' ' && i + 1 + k < |data| && data[i + 1 + k] == ' '
    ensures data == data[..i] + " " + data[i + 1..][..k] + " " + data[i + 1 + k + 1..]
  {
    assert data[i + 1..][..k] == data[i + 1..i + 1 + k];
  }

  /** After the method token and its space, a reply needs a URI token and a space that pass the gate. */
  lemma ReplyNeedsUri(ctx: Context, s0: Scanner, data: seq<char>, i: nat)
    requires Fresh(s0) && Scan(ctx, s0, data).pending
    requires i < |data| && data[i] == ' ' && ' ' !in data[..i]
    ensures var j := i + 1 + SpaceAt(data[i + 1..]);
            j < |data| && Gate(data[..i], data[i + 1..j])
  {
    var w := data[..i];
    var more := data[i + 1..];
    var k := SpaceAt(more);
    if k == |more| {
      assert more[..k] == more;
      assert data == w + " " + more;
      NoUriEnd(ctx, s0, w, more);
    } else {
      SplitAtSpaces(data, i, k);
      assert data[i + 1..i + 1 + k] == more[..k];
      if !Gate(w, more[..k]) {
        GateRejects(ctx, s0, w, more[..k], data[i + 1 + k + 1..]);
      }
    }
  }

  /**
    A datagram is only answered when it has a method token and a URI token, each
    ended by a space, that pass the gate.
  */
  lemma ReplyNeedsSearchLine(ctx: Context, s0: Scanner, data: seq<char>)
    requires Fresh(s0) && Scan(ctx, s0, data).pending
    ensures SpaceAt(data) < |data|
    ensures var i := SpaceAt(data);
            var j := i + 1 + SpaceAt(data[i + 1..]);
            j < |data| && Gate(data[..i], data[i + 1..j])
  {
    var i := SpaceAt(data);
    if i == |data| {
      assert data[..i] == data;
      NoMethodEnd(ctx, s0, data);
    } else {
      ReplyNeedsUri(ctx, s0, data, i);
    }
  }

  lemma NotifyFailsGate()
    ensures !Gate("NOTIFY", "*")
  {
    assert Truncate("NOTIFY", METHOD_SIZE - 1) == "NOTIFY";
    CStrWhole("NOTIFY");
  }

  /** The NOTIFY request line, cut at the pieces GateRejects reads. */
  lemma NotifyText(rest: seq<char>)
    ensures "NOTIFY * HTTP/1.1\r\n" + rest == "NOTIFY" + " " + "*" + " " + ("HTTP/1.1\r\n" + rest)
  {
    var head := "NOTIFY" + " " + "*" + " ";
    assert "NOTIFY * HTTP/1.1\r\n" == head + "HTTP/1.1\r\n";
    assert (head + "HTTP/1.1\r\n") + rest == head + ("HTTP/1.1\r\n" + rest);
  }

  /** A NOTIFY from another device (or the device's own, looped back) is never answered. */
  lemma NotifyIgnored(ctx: Context, s0: Scanner, rest: seq<char>)
    requires Fresh(s0)
    ensures !Scan(ctx, s0, "NOTIFY * HTTP/1.1\r\n" + rest).pending
  {
    NotifyText(rest);
    NotifyFailsGate();
    GateRejects(ctx, s0, "NOTIFY", "*", "HTTP/1.1\r\n" + rest);
  }

  /** The protocol token is skipped byte by byte. */
  lemma {:induction false} ProtoChars(ctx: Context, s: Scanner, p: seq<char>)
    requires Shaped(s) && s.phase == Proto && s.cr == 0 && NoCrLf(p)
    ensures Scan(ctx, s, p) == s
    decreases |p|
  {
    if p != [] {
      assert Step(ctx, s, p[0]) == s;
      assert NoCrLf(p[1..]) by {
        forall i | 0 <= i < |p[1..]| ensures !IsCrLf(p[1..][i]) { assert p[1..][i] == p[i + 1]; }
      }
      ProtoChars(ctx, s, p[1..]);
    }
  }

  /** Two bytes read one after the other. */
  lemma ScanTwo(ctx: Context, s: Scanner, a: char, b: char)
    requires Shaped(s)
    ensures Scan(ctx, s, [a, b]) == Step(ctx, Step(ctx, s, a), b)
  {
    assert [a, b] == [a] + [b];
    ScanAppend(ctx, s, [a], [b]);
    ScanOne(ctx, s, a);
    ScanOne(ctx, Step(ctx, s, a), b);
  }

  /** The protocol token is not looked at: the request line ends at its CRLF. */
  lemma ProtoLine(ctx: Context, s: Scanner, p: seq<char>)
    requires Shaped(s) && s.phase == Proto && s.cr == 0 && NoCrLf(p)
    ensures Scan(ctx, s, p + "\r\n") == s.(phase := Key, cr := 2, cursor := 0)
  {
    ProtoChars(ctx, s, p);
    ScanAppend(ctx, s, p, "\r\n");
    ScanTwo(ctx, s, '\r', '\n');
  }

  /** A header name as the reader stores it whole. */
  predicate HeaderName(k: seq<char>)
  {
    0 < |k| < BUFFER_SIZE && '\0' !in k && forall i :: 0 <= i < |k| ==> KeyChar(k[i]) && k[i] != ':'
  }

  /** A header value that is stored whole and is not skipped as empty. */
  predicate HeaderText(v: seq<char>)
  {
    0 < |v| < BUFFER_SIZE && v[0] != ' ' && NoCrLf(v) && '\0' !in v
  }

  predicate AllSpaces(sp: seq<char>) { forall i :: 0 <= i < |sp| ==> sp[i] == ' ' }

  /** The name of a header line is stored whole. */
  lemma KeyToken(ctx: Context, s: Scanner, k: seq<char>)
    requires Inv(s) && s.phase == Key && s.cursor == 0 && HeaderName(k)
    ensures var r := Scan(ctx, s, k);
            r == s.(cr := 0, cursor := |k|, buffer := r.buffer) && CStr(r.buffer) == k
  {
    assert forall i :: 0 <= i < |k| ==> Stores(s, k[i]);
    StoreRun(ctx, s, k);
    CrAfter(ctx, s, k);
    CStrStored(s.buffer, k);
  }

  /** Spaces before a value are dropped. */
  lemma {:induction false} ValueSpaces(ctx: Context, s: Scanner, sp: seq<char>)
    requires Shaped(s) && s.phase == Value && s.header == Strip && s.cr == 0 && AllSpaces(sp)
    ensures Scan(ctx, s, sp) == s
    decreases |sp|
  {
    if sp != [] {
      assert Step(ctx, s, sp[0]) == s;
      assert AllSpaces(sp[1..]) by {
        forall i | 0 <= i < |sp[1..]| ensures sp[1..][i] == ' ' { assert sp[1..][i] == sp[i + 1]; }
      }
      ValueSpaces(ctx, s, sp[1..]);
    }
  }

  /** The reader after the name, the colon and the spaces of a header line. */
  lemma KeyAndColon(ctx: Context, s: Scanner, k: seq<char>, sp: seq<char>)
    requires Inv(s) && s.phase == Key && s.cursor == 0 && HeaderName(k) && AllSpaces(sp)
    ensures var r := Scan(ctx, s, k + ":" + sp);
            && r == s.(phase := Value, cr := 0, cursor := 0, buffer := r.buffer)
            && CStr(r.buffer) == k
  {
    KeyToken(ctx, s, k);
    ScanSnoc(ctx, s, k, ':');
    var s2 := Scan(ctx, s, k + ":");
    ValueSpaces(ctx, s2, sp);
    ScanAppend(ctx, s, k + ":", sp);
  }

  /** The first byte of a value fixes the header kind from the name in the buffer. */
  lemma ValueStart(ctx: Context, s: Scanner, v: seq<char>)
    requires Inv(s) && s.phase == Value && s.header == Strip && s.cursor == 0 && s.cr == 0 && HeaderText(v)
    ensures var r := Scan(ctx, s, v);
            r == s.(header := Classify(CStr(s.buffer)), cr := r.cr, cursor := |v|,
                    buffer := Writes(s.buffer, 0, v, BUFFER_SIZE - 1))
  {
    var s1 := Step(ctx, s, v[0]);
    assert s1 == Put(s.(header := Classify(CStr(s.buffer))), v[0]);
    assert forall i :: 0 <= i < |v[1..]| ==> Stores(s1, v[1..][i]) by {
      forall i | 0 <= i < |v[1..]| ensures Stores(s1, v[1..][i]) {
        assert v[1..][i] == v[i + 1];
      }
    }
    StoreRun(ctx, s1, v[1..]);
  }

  /** A first CR inside a value is only counted. */
  lemma ValueCr(ctx: Context, s: Scanner)
    requires Shaped(s) && s.phase == Value && s.cr == 0
    ensures Step(ctx, s, '\r') == s.(cr := 1)
  {
    var s1 := s.(cr := CountCr(s.cr, '\r'));
    assert s1 == s.(cr := 1);
    assert ValueStep(ctx, s1, '\r') == s1;
  }

  /** The reader after a whole value and its CR, before the LF that ends the line. */
  lemma ValueAndCr(ctx: Context, s: Scanner, v: seq<char>)
    requires Inv(s) && s.phase == Value && s.header == Strip && s.cursor == 0 && s.cr == 0 && HeaderText(v)
    ensures var r := Scan(ctx, s, v + "\r");
            && r == s.(header := Classify(CStr(s.buffer)), cr := 1, cursor := |v|, buffer := r.buffer)
            && CStr(r.buffer) == v
  {
    ValueStart(ctx, s, v);
    CrAfter(ctx, s, v);
    ScanSnoc(ctx, s, v, '\r');
    ValueCr(ctx, Scan(ctx, s, v));
    CStrStored(s.buffer, v);
  }

  /** A header line up to the CR after its value. */
  lemma HeaderUpToCr(ctx: Context, s: Scanner, k: seq<char>, sp: seq<char>, v: seq<char>)
    requires Inv(s) && s.phase == Key && s.cursor == 0
    requires HeaderName(k) && AllSpaces(sp) && HeaderText(v)
    ensures var x := Scan(ctx, s, k + ":" + sp + v + "\r");
            && x == s.(phase := Value, header := Classify(k), cr := 1, cursor := |v|, buffer := x.buffer)
            && CStr(x.buffer) == v
  {
    KeyAndColon(ctx, s, k, sp);
    var s1 := Scan(ctx, s, k + ":" + sp);
    ValueAndCr(ctx, s1, v);
    assert k + ":" + sp + v + "\r" == (k + ":" + sp) + (v + "\r");
    ScanAppend(ctx, s, k + ":" + sp, v + "\r");
  }

  /** A whole header line read at the start of a line ends in the value's effect. */
  lemma HeaderRead(ctx: Context, s: Scanner, k: seq<char>, sp: seq<char>, v: seq<char>)
    requires Inv(s) && s.phase == Key && s.cursor == 0
    requires HeaderName(k) && AllSpaces(sp) && HeaderText(v)
    ensures var x := Scan(ctx, s, k + ":" + sp + v + "\r");
            && x == s.(phase := Value, header := Classify(k), cr := 1, cursor := |v|, buffer := x.buffer)
            && CStr(x.buffer) == v
            && Scan(ctx, s, k + ":" + sp + v + "\r\n") == EndValue(ctx, x.(cr := 2))
  {
    HeaderUpToCr(ctx, s, k, sp, v);
    assert k + ":" + sp + v + "\r\n" == (k + ":" + sp + v + "\r") + "\n";
    ScanSnoc(ctx, s, k + ":" + sp + v + "\r", '\n');
  }

  /** The end of an ST value. */
  lemma StEffect(ctx: Context, x: Scanner, v: seq<char>)
    requires Shaped(x) && x.phase == Value && x.header == St && x.cr == 2 && CStr(x.buffer) == v && |v| < BUFFER_SIZE
    ensures var r := EndValue(ctx, x);
            && r.pending == x.pending && r.cr == 2
            && (r.phase == Key ==> r.cursor == 0 && r.header == Strip)
            && r.respondType == v && r.delay == x.delay
            && (r.undefined <==> x.undefined || (v != "ssdp:all" && v != "upnp:rootdevice" && ctx.deviceType.None?))
            && ((v == "ssdp:all" || v == "upnp:rootdevice") ==>
                  r.phase == Key && r.stmatch && r.usnSuffix == "::upnp:rootdevice")
            && (ctx.deviceType.Some? ==>
                  && r.phase == (if Matches(ctx.deviceType.value, v) then Key else Abort)
                  && r.stmatch == (x.stmatch || Matches(ctx.deviceType.value, v))
                  && r.usnSuffix == (if Matches(ctx.deviceType.value, v) then SuffixFor(ctx.deviceType.value, v) else ""))
  {
  }

  /** The end of an MX value. */
  lemma MxEffect(ctx: Context, x: Scanner, v: seq<char>)
    requires Shaped(x) && x.phase == Value && x.header == Mx && x.cr == 2 && CStr(x.buffer) == v
    ensures var r := EndValue(ctx, x);
            && r == x.(phase := Key, header := Strip, cursor := 0, delay := r.delay, undefined := r.undefined)
            && (r.undefined <==> x.undefined || !MxDefined(Atoi(v), ctx.draw))
            && (MxDefined(Atoi(v), ctx.draw) ==> r.delay == MxDelay(Atoi(v), ctx.draw, ctx.mxMaxDelay))
  {
  }

  /** The end of a MAN value or of any other header. */
  lemma OtherEffect(ctx: Context, x: Scanner)
    requires Shaped(x) && x.phase == Value && x.header in {Man, Skip, Strip} && x.cr == 2
    ensures EndValue(ctx, x) == x.(phase := Key, header := Strip, cursor := 0)
  {
  }

  /**
    A header line "k:" + spaces + v + CRLF read at the start of a line. Its kind
    is fixed by the key; an ST value becomes the respond type and either matches
    (the line ends in KEY) or aborts the request; an MX value draws the delay; a
    MAN or any other header changes nothing. pending is not touched.
  */
  lemma HeaderLine(ctx: Context, s: Scanner, k: seq<char>, sp: seq<char>, v: seq<char>)
    requires Inv(s) && s.phase == Key && s.cursor == 0
    requires HeaderName(k) && AllSpaces(sp) && HeaderText(v)
    ensures var r := Scan(ctx, s, k + ":" + sp + v + "\r\n");
            && r.pending == s.pending && r.cr == 2
            && (r.phase == Key ==> r.cursor == 0 && r.header == Strip)
            && (Classify(k) == St ==>
                  && r.respondType == v && r.delay == s.delay
                  && (r.undefined <==> s.undefined || (v != "ssdp:all" && v != "upnp:rootdevice" && ctx.deviceType.None?)))
            && (Classify(k) == St && (v == "ssdp:all" || v == "upnp:rootdevice") ==>
                  r.phase == Key && r.stmatch && r.usnSuffix == "::upnp:rootdevice")
            && (Classify(k) == St && ctx.deviceType.Some? ==>
                  && r.phase == (if Matches(ctx.deviceType.value, v) then Key else Abort)
                  && r.stmatch == (s.stmatch || Matches(ctx.deviceType.value, v))
                  && r.usnSuffix == (if Matches(ctx.deviceType.value, v) then SuffixFor(ctx.deviceType.value, v) else ""))
            && (Classify(k) == Mx ==>
                  && r.phase == Key && r.stmatch == s.stmatch
                  && r.respondType == s.respondType && r.usnSuffix == s.usnSuffix
                  && (r.undefined <==> s.undefined || !MxDefined(Atoi(v), ctx.draw))
                  && (!r.undefined ==> r.delay == MxDelay(Atoi(v), ctx.draw, ctx.mxMaxDelay)))
            && (Classify(k) in {Man, Skip} ==>
                  r == s.(cr := 2, buffer := r.buffer))
  {
    HeaderRead(ctx, s, k, sp, v);
    var x := Scan(ctx, s, k + ":" + sp + v + "\r").(cr := 2);
    var h := Classify(k);
    if h == St {
      StEffect(ctx, x, v);
    } else if h == Mx {
      MxEffect(ctx, x, v);
    } else {
      OtherEffect(ctx, x);
    }
  }

  /** A header line with an empty or all-space value changes nothing but the buffer. */
  lemma EmptyValueLine(ctx: Context, s: Scanner, k: seq<char>, sp: seq<char>)
    requires Inv(s) && s.phase == Key && s.cursor == 0 && HeaderName(k) && AllSpaces(sp)
    ensures var r := Scan(ctx, s, k + ":" + sp + "\r\n");
            r == s.(cr := 2, buffer := r.buffer)
  {
    KeyAndColon(ctx, s, k, sp);
    var s1 := Scan(ctx, s, k + ":" + sp);
    ScanAppend(ctx, s, k + ":" + sp, "\r\n");
    ScanTwo(ctx, s1, '\r', '\n');
    OtherEffect(ctx, s1.(cr := 2));
  }

  /** The blank line after a header line: pending is set once an ST has matched. */
  lemma EndOfHeaders(ctx: Context, s: Scanner)
    requires Inv(s) && s.phase == Key && s.cr == 2
    ensures Scan(ctx, s, "\r\n") == s.(cr := 4, pending := s.pending || s.stmatch)
  {
    ScanTwo(ctx, s, '\r', '\n');
  }

  /**
    A request line that passes the gate, with any protocol token, leaves the
    reader at the first header with nothing else changed.
  */
  lemma SearchLine(ctx: Context, s0: Scanner, w: seq<char>, u: seq<char>, p: seq<char>)
    requires Fresh(s0) && ' ' !in w && ' ' !in u && Gate(w, u) && NoCrLf(p)
    ensures var r := Scan(ctx, s0, w + " " + u + " " + p + "\r\n");
            r == s0.(phase := Key, cr := 2, buffer := r.buffer)
  {
    RequestLine(ctx, s0, w, u);
    var s1 := Scan(ctx, s0, w + " " + u + " ");
    ProtoLine(ctx, s1, p);
    assert w + " " + u + " " + p + "\r\n" == (w + " " + u + " ") + (p + "\r\n");
    ScanAppend(ctx, s0, w + " " + u + " ", p + "\r\n");
  }

  /**
    A search that passes the request line gate and carries ST: ssdp:all or
    ST: upnp:rootdevice leaves the reader with a reply pending for
    upnp:rootdevice, the ST value as the respond type and the delay untouched.
  */
  lemma RootSearch(ctx: Context, s0: Scanner, w: seq<char>, u: seq<char>, p: seq<char>, v: seq<char>)
    requires Fresh(s0) && ' ' !in w && ' ' !in u && Gate(w, u) && NoCrLf(p)
    requires v == "ssdp:all" || v == "upnp:rootdevice"
    ensures var r := Scan(ctx, s0, w + " " + u + " " + p + "\r\n" + ("ST" + ":" + " " + v + "\r\n") + "\r\n");
            && r.pending && r.respondType == v && r.usnSuffix == "::upnp:rootdevice"
            && r.delay == s0.delay && r.undefined == s0.undefined
  {
    var line := w + " " + u + " " + p + "\r\n";
    var header := "ST" + ":" + " " + v + "\r\n";
    SearchLine(ctx, s0, w, u, p);
    var s1 := Scan(ctx, s0, line);
    ScanInv(ctx, s0, line);
    HeaderParts(v);
    HeaderLine(ctx, s1, "ST", " ", v);
    var s2 := Scan(ctx, s1, header);
    ScanInv(ctx, s1, header);
    EndOfHeaders(ctx, s2);
    ScanAppend(ctx, s0, line, header);
    ScanAppend(ctx, s0, line + header, "\r\n");
  }

  /** The pieces of an ST line for the two root search targets. */
  lemma HeaderParts(v: seq<char>)
    requires v == "ssdp:all" || v == "upnp:rootdevice"
    ensures HeaderName("ST") && AllSpaces(" ") && HeaderText(v) && Classify("ST") == St
  {
  }

  /** The request line of the canonical search passes the gate. */
  lemma CanonicalGate()
    ensures Gate("M-SEARCH", "*")
  {
    CStrUnique("M-SEARCH", "M-SEARCH");
  }

  /** Its tokens hold no space and its protocol no line end. */
  lemma CanonicalTokens()
    ensures ' ' !in "M-SEARCH" && ' ' !in "*" && NoCrLf("HTTP/1.1")
  {
  }

  /** The canonical search, cut at the pieces RootSearch reads. */
  lemma CanonicalText()
    ensures "M-SEARCH" + " " + "*" + " " + "HTTP/1.1" + "\r\n" + ("ST" + ":" + " " + "ssdp:all" + "\r\n") + "\r\n"
         == "M-SEARCH * HTTP/1.1\r\nST: ssdp:all\r\n\r\n"
  {
  }

  /**
    The smallest search a control point sends, for all services: the reader
    ends with a reply pending for upnp:rootdevice.
  */
  lemma CanonicalSearch(ctx: Context, s0: Scanner)
    requires Fresh(s0)
    ensures var r := Scan(ctx, s0, "M-SEARCH * HTTP/1.1\r\nST: ssdp:all\r\n\r\n");
            && r.pending && r.respondType == "ssdp:all" && r.usnSuffix == "::upnp:rootdevice"
            && r.delay == s0.delay && !r.undefined
  {
    CanonicalGate();
    CanonicalTokens();
    CanonicalText();
    RootSearch(ctx, s0, "M-SEARCH", "*", "HTTP/1.1", "ssdp:all");
  }
}
