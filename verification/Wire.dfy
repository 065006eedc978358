/** Byte-level formats: type tags, credentials as text, sealed frames and one-message streams. */
module Wire {
  import opened Channels

  newtype byte = b: int | 0 <= b < 256
  type bytes = seq<byte>

  datatype Result<+T> =
    | Ok(value: T)
    | Failed          // an error return
    | Panic           // a Go run-time panic

  // Media types and signalling payload types (internal/domain/services/networking/network-serv.go).
  const CHAT: byte := 0
  const VOICE: byte := 1
  const WEBCAM: byte := 2
  const SCREEN: byte := 3
  const CREDS: byte := 0

  const SPACE: byte := 32
  const KEY_SIZE := 32

  // ---------------------------------------------------------------------------------------------
  // Tagging

  function Tagged(tag: byte, data: bytes): bytes {
    [tag] + data
  }

  method SetFirstByte(tag: byte, data: bytes) returns (tagged: bytes)
    ensures tagged == Tagged(tag, data)
    ensures |tagged| == |data| + 1 && tagged[0] == tag && tagged[1..] == data
  {
    tagged := [];
    tagged := tagged + [tag];
    tagged := tagged + data;
  }

  // ---------------------------------------------------------------------------------------------
  // Credentials: "ufrag pwd"

  /** The pieces glued back together with one space between neighbours. */
  function Join(parts: seq<bytes>): bytes
    requires parts != []
  {
    if |parts| == 1 then parts[0] else parts[0] + [SPACE] + Join(parts[1..])
  }

  ghost predicate SpaceFree(parts: seq<bytes>) {
    forall i :: 0 <= i < |parts| ==> SPACE !in parts[i]
  }

  lemma {:induction false} JoinSnoc(parts: seq<bytes>, last: bytes)
    requires parts != []
    ensures Join(parts + [last]) == Join(parts) + [SPACE] + last
  {
    if |parts| == 1 {
      assert (parts + [last])[1..] == [last];
    } else {
      assert (parts + [last])[1..] == parts[1..] + [last];
      JoinSnoc(parts[1..], last);
    }
  }

  /** Cuts at every space, the separators dropped and empty pieces kept. */
  method Split(s: bytes) returns (parts: seq<bytes>)
    ensures parts != [] && SpaceFree(parts) && Join(parts) == s
  {
    parts := [];
    var start, i := 0, 0;
    while i < |s|
      invariant 0 <= start <= i <= |s|
      invariant SpaceFree(parts) && SPACE !in s[start..i]
      invariant parts == [] ==> start == 0
      invariant parts != [] ==> start > 0 && Join(parts) + [SPACE] == s[..start]
    {
      if s[i] == SPACE {
        var piece := s[start..i];
        if parts != [] {
          JoinSnoc(parts, piece);
          assert s[..start] + piece == s[..i];
        } else {
          assert piece == s[..i];
        }
        assert s[..i] + [SPACE] == s[..i + 1];
        parts := parts + [piece];
        start := i + 1;
      } else {
        assert s[start..i + 1] == s[start..i] + [s[i]];
      }
      i := i + 1;
    }
    var piece := s[start..];
    if parts != [] {
      JoinSnoc(parts, piece);
      assert s[..start] + piece == s;
    }
    parts := parts + [piece];
  }

  lemma {:induction false} FirstPiece(p: seq<bytes>)
    requires p != []
    ensures |p[0]| <= |Join(p)| && Join(p)[..|p[0]|] == p[0]
    ensures |p| == 1 <==> |Join(p)| == |p[0]|
    ensures |p| > 1 ==> Join(p)[|p[0]|] == SPACE && Join(p)[|p[0]| + 1..] == Join(p[1..])
  {
    assert |p| > 1 ==> Join(p) == p[0] + [SPACE] + Join(p[1..]);
  }

  /** A list of space-free pieces is determined by its joined text, so Split has one possible result. */
  lemma {:induction false} JoinInjective(p: seq<bytes>, q: seq<bytes>)
    requires p != [] && q != [] && SpaceFree(p) && SpaceFree(q) && Join(p) == Join(q)
    ensures p == q
  {
    FirstPiece(p);
    FirstPiece(q);
    var n, m := |p[0]|, |q[0]|;
    assert forall k :: 0 <= k < n ==> Join(p)[..n][k] == Join(p)[k] != SPACE;
    assert forall k :: 0 <= k < m ==> Join(q)[..m][k] == Join(q)[k] != SPACE;
    assert n == m;
    if |p| > 1 {
      JoinInjective(p[1..], q[1..]);
      assert p == [p[0]] + p[1..] && q == [q[0]] + q[1..];
    }
  }

  function PrintCreds(ufrag: bytes, pwd: bytes): bytes {
    Tagged(CREDS, ufrag + [SPACE] + pwd)
  }

  /** The credentials a payload spells: the first two pieces of the only list of space-free pieces that joins to it. */
  ghost predicate Spells(payload: bytes, creds: (bytes, bytes)) {
    exists parts: seq<bytes> ::
      |parts| >= 2 && SpaceFree(parts) && payload == [0] + Join(parts) && creds == (parts[0], parts[1])
  }

  lemma {:induction false} SpellsOnePair(payload: bytes, a: (bytes, bytes), b: (bytes, bytes))
    requires Spells(payload, a) && Spells(payload, b)
    ensures a == b
  {
    var p: seq<bytes> :| |p| >= 2 && SpaceFree(p) && payload == [0] + Join(p) && a == (p[0], p[1]);
    var q: seq<bytes> :| |q| >= 2 && SpaceFree(q) && payload == [0] + Join(q) && b == (q[0], q[1]);
    assert Join(p) == payload[1..] && Join(q) == payload[1..];
    JoinInjective(p, q);
  }

  /** A printed pair without spaces spells itself. */
  lemma {:induction false} PrintedSpells(ufrag: bytes, pwd: bytes)
    requires SPACE !in ufrag && SPACE !in pwd
    ensures Spells([0] + ufrag + [32] + pwd, (ufrag, pwd))
  {
    var parts := [ufrag, pwd];
    assert Join(parts) == ufrag + [32] + pwd by {
      assert parts[1..] == [pwd];
    }
    assert [0] + ufrag + [32] + pwd == [0] + Join(parts);
  }

  lemma WhatItSpells(payload: bytes, creds: Option<(bytes, bytes)>, parts: seq<bytes>)
    requires creds.Some? <==> |payload| >= 2 && payload[0] == CREDS && SPACE in payload[1..]
    requires creds.Some? ==> |parts| >= 2 && SpaceFree(parts) && Join(parts) == payload[1..]
    requires creds.Some? ==> creds.value == (parts[0], parts[1])
    ensures creds.Some? ==> Spells(payload, creds.value)
    ensures forall c :: Spells(payload, c) ==> creds == Some(c)
  {
    if creds.Some? {
      assert payload == [0] + payload[1..];
      assert payload == [0] + Join(parts);
    }
    forall c | Spells(payload, c) ensures creds == Some(c) {
      var p: seq<bytes> :| |p| >= 2 && SpaceFree(p) && payload == [0] + Join(p) && c == (p[0], p[1]);
      FirstPiece(p);
      assert payload[1..] == Join(p) && payload[1..][|p[0]|] == SPACE;
      SpellsOnePair(payload, creds.value, c);
    }
  }

  /** The receiving side of a signalling payload, up to the point where the pair would be installed. */
  method ReadCreds(payload: bytes) returns (r: Option<(bytes, bytes)>, ghost parts: seq<bytes>)
    ensures r.Some? <==> |payload| >= 2 && payload[0] == CREDS && SPACE in payload[1..]
    ensures r.Some? ==> |parts| >= 2 && SpaceFree(parts) && Join(parts) == payload[1..]
    ensures r.Some? ==> r.value == (parts[0], parts[1])
    ensures r.Some? ==> Spells(payload, r.value)
    ensures forall c :: Spells(payload, c) ==> r == Some(c)
  {
    r, parts := None, [];
    if |payload| >= 2 && payload[0] == CREDS {
      var creds := Split(payload[1..]);
      parts := creds;
      if |creds| >= 2 {
        assert Join(parts)[|parts[0]|] == SPACE;
        r := Some((creds[0], creds[1]));
      }
    }
    WhatItSpells(payload, r, parts);
  }

  lemma {:induction false} JoinHasNoSpaceBeyond(parts: seq<bytes>, ufrag: bytes, pwd: bytes)
    requires |parts| >= 2 && SpaceFree(parts) && Join(parts) == ufrag + [SPACE] + pwd
    ensures (parts[0], parts[1]) == (ufrag, pwd) <==> SPACE !in ufrag && SPACE !in pwd
  {
    if SPACE !in ufrag && SPACE !in pwd {
      assert Join([ufrag, pwd]) == ufrag + [SPACE] + pwd;
      JoinInjective(parts, [ufrag, pwd]);
    }
  }

  /**
   * Printing and reading back gives the original pair exactly when neither string holds a space.
   * ICE strings hold none (section 5.4 of RFC 8839).
   */
  method CredsRoundTrip(ufrag: bytes, pwd: bytes) returns (r: Option<(bytes, bytes)>)
    ensures r == Some((ufrag, pwd)) <==> SPACE !in ufrag && SPACE !in pwd
  {
    var printed := SetFirstByte(CREDS, ufrag + [SPACE] + pwd);
    assert printed == PrintCreds(ufrag, pwd);
    ghost var parts;
    r, parts := ReadCreds(printed);
    assert printed[1..][|ufrag|] == SPACE;
    JoinHasNoSpaceBeyond(parts, ufrag, pwd);
  }

  // ---------------------------------------------------------------------------------------------
  // Sealed frames

  /** An AEAD cipher under one key; AES-GCM itself is a parameter with the laws of `Lawful`. */
  datatype Aead = Aead(nonceSize: nat, tagSize: nat,
                       seal: (bytes, bytes, bytes) -> bytes,
                       open: (bytes, bytes, bytes) -> Option<bytes>)
  {
    /** Section 2 of RFC 5116: opening with the same nonce and associated data undoes sealing. */
    ghost predicate Lawful() {
      forall nonce: bytes, plain: bytes, aad: bytes | |nonce| == nonceSize ::
        && |seal(nonce, plain, aad)| == |plain| + tagSize
        && open(nonce, seal(nonce, plain, aad), aad) == Some(plain)
    }

    /** The same section: what was not produced by sealing is refused. */
    ghost predicate Authentic() {
      forall nonce: bytes, sealed: bytes, aad: bytes, plain: bytes | open(nonce, sealed, aad) == Some(plain) ::
        sealed == seal(nonce, plain, aad)
    }
  }

  const AAD: bytes := [97, 108, 111, 104, 45, 104, 101, 108, 108, 45, 121, 101, 97, 104]

  /** The associated data of every frame, on both sides. */
  lemma AssociatedDataIs()
    ensures |AAD| == |"aloh-hell-yeah"| && forall k :: 0 <= k < |AAD| ==> AAD[k] as int == "aloh-hell-yeah"[k] as int
  {
    assert "aloh-hell-yeah" == ['a', 'l', 'o', 'h', '-', 'h', 'e', 'l', 'l', '-', 'y', 'e', 'a', 'h'];
  }

  /** NewAESCM: a key of any size other than 16, 24 or 32 bytes is rejected, the empty key included. */
  function NewAead(aes: bytes -> Aead, key: bytes): Option<Aead> {
    if |key| in {16, 24, 32} then Some(aes(key)) else None
  }

  function Frame(aead: Aead, nonce: bytes, payload: bytes): bytes {
    nonce + aead.seal(nonce, payload, AAD)
  }

  /** `random` is what the random source yields; running dry is the source's read error. */
  method CipherPayload(aead: Aead, random: bytes, payload: bytes) returns (r: Result<bytes>)
    ensures |random| < aead.nonceSize ==> r == Failed
    ensures aead.nonceSize <= |random| ==> r == Ok(Frame(aead, random[..aead.nonceSize], payload))
  {
    var nonce := new byte[aead.nonceSize];
    var n := 0;
    while n < nonce.Length && n < |random|
      invariant 0 <= n <= nonce.Length && n <= |random|
      invariant nonce[..n] == random[..n]
    {
      nonce[n] := random[n];
      n := n + 1;
    }
    if n < nonce.Length {
      return Failed;
    }
    assert nonce[..] == random[..nonce.Length];
    r := Ok(nonce[..] + aead.seal(nonce[..], payload, AAD));
  }

  /** Slicing off the nonce panics on a frame shorter than a nonce. */
  function DecipherPayload(aead: Aead, data: bytes): (r: Result<bytes>)
    ensures r == Panic <==> |data| < aead.nonceSize
  {
    if |data| < aead.nonceSize then Panic
    else
      match aead.open(data[..aead.nonceSize], data[aead.nonceSize..], AAD)
      case Some(plain) => Ok(plain)
      case None => Failed
  }

  /** Opening what was sealed under the same key gives the payload back; the frame length is exact. */
  lemma {:induction false} OpenAfterSeal(aead: Aead, nonce: bytes, payload: bytes)
    requires aead.Lawful() && |nonce| == aead.nonceSize
    ensures DecipherPayload(aead, Frame(aead, nonce, payload)) == Ok(payload)
    ensures |Frame(aead, nonce, payload)| == aead.nonceSize + |payload| + aead.tagSize
  {
    var f := Frame(aead, nonce, payload);
    assert f[..aead.nonceSize] == nonce && f[aead.nonceSize..] == aead.seal(nonce, payload, AAD);
  }

  /**
   * And nothing else is opened: if the cipher opens only what was sealed under its key with the same nonce and the same
   * associated data, then a received frame yields a payload exactly if it is the frame of that payload.
   */
  lemma {:induction false} OnlyFramesOpen(aead: Aead, data: bytes, payload: bytes)
    requires aead.Lawful() && aead.Authentic()
    ensures DecipherPayload(aead, data) == Ok(payload) <==>
      |data| >= aead.nonceSize && data == Frame(aead, data[..aead.nonceSize], payload)
  {
    if |data| >= aead.nonceSize {
      var nonce := data[..aead.nonceSize];
      assert data == nonce + data[aead.nonceSize..];
      if data == Frame(aead, nonce, payload) {
        OpenAfterSeal(aead, nonce, payload);
      }
    }
  }

  // ---------------------------------------------------------------------------------------------
  // Secure streams

  /** One direction of a QUIC stream: the bytes written and not yet read, in order, and the end mark. */
  class Pipe {
    var data: bytes
    var finished: bool

    constructor ()
      ensures data == [] && !finished
    {
      data, finished := [], false;
    }
  }

  datatype End = SendEnd | ReceiveEnd

  /** io.ReadAll over reads of any sizes; None stands for a reader still blocked before the end mark. */
  method ReadAll(pipe: Pipe, sizes: seq<nat>) returns (r: Option<bytes>)
    modifies pipe
    ensures pipe.finished == old(pipe.finished) && pipe.data == []
    ensures r == if old(pipe.finished) then Some(old(pipe.data)) else None
  {
    var all: bytes, i := [], 0;
    while pipe.data != []
      invariant all + pipe.data == old(pipe.data)
      invariant pipe.finished == old(pipe.finished)
      decreases |pipe.data|
    {
      var n := if i < |sizes| && 0 < sizes[i] <= |pipe.data| then sizes[i] else 1;
      assert pipe.data == pipe.data[..n] + pipe.data[n..];
      all := all + pipe.data[..n];
      pipe.data := pipe.data[n..];
      i := i + 1;
    }
    assert all == all + pipe.data;
    r := if pipe.finished then Some(all) else None;
  }

  class SecureStream {
    const pipe: Pipe
    const end: End
    const aead: Aead

    constructor (pipe: Pipe, end: End, aead: Aead)
      ensures this.pipe == pipe && this.end == end && this.aead == aead
    {
      this.pipe, this.end, this.aead := pipe, end, aead;
    }

    /** Seals first, then asks whether the stream can be written at all. */
    method Send(random: bytes, payload: bytes) returns (r: Result<()>)
      modifies pipe
      ensures r == Ok(()) <==> aead.nonceSize <= |random| && end == SendEnd
      ensures r == Ok(()) ==> pipe.data == old(pipe.data) + Frame(aead, random[..aead.nonceSize], payload)
      ensures r != Ok(()) ==> r == Failed && pipe.data == old(pipe.data)
      ensures pipe.finished == old(pipe.finished)
    {
      var frame := CipherPayload(aead, random, payload);
      if frame.Failed? || end != SendEnd {
        return Failed;
      }
      pipe.data := pipe.data + frame.value;
      r := Ok(());
    }

    method Close() returns (r: Result<()>)
      modifies pipe
      ensures pipe.data == old(pipe.data)
      ensures r == if end == SendEnd then Ok(()) else Failed
      ensures pipe.finished == (old(pipe.finished) || end == SendEnd)
    {
      if end != SendEnd {
        return Failed;
      }
      pipe.finished := true;
      r := Ok(());
    }

    /** None: still waiting for the sender to close. */
    method Receive(sizes: seq<nat>) returns (r: Option<Result<bytes>>)
      modifies pipe
      ensures pipe.finished == old(pipe.finished)
      ensures end != ReceiveEnd ==> r == Some(Failed) && pipe.data == old(pipe.data)
      ensures end == ReceiveEnd && !pipe.finished ==> r == None
      ensures end == ReceiveEnd && pipe.finished ==> r == Some(DecipherPayload(aead, old(pipe.data)))
      ensures r == Some(Panic) <==> end == ReceiveEnd && pipe.finished && |old(pipe.data)| < aead.nonceSize
    {
      if end != ReceiveEnd {
        return Some(Failed);
      }
      var data := ReadAll(pipe, sizes);
      r := match data case None => None case Some(d) => Some(DecipherPayload(aead, d));
    }
  }

  /**
   * One message as SendInStream and receiveStreams carry it: a fresh stream, both ends under the session
   * key, one Send, Close, one Receive. `sizes` is how the network cuts the bytes.
   */
  method CarryMessage(aes: bytes -> Aead, key: bytes, random: bytes, data: bytes, sizes: seq<nat>)
    returns (r: Result<bytes>, frameLength: nat)
    requires aes(key).Lawful()
    ensures r == Ok(data) <==> |key| in {16, 24, 32} && aes(key).nonceSize <= |random|
    ensures r != Ok(data) ==> r == Failed
    ensures r == Ok(data) ==> frameLength == aes(key).nonceSize + |data| + aes(key).tagSize
  {
    r, frameLength := Failed, 0;
    var aead := NewAead(aes, key);
    if aead == None {
      return;
    }
    var pipe := new Pipe();
    var sender := new SecureStream(pipe, SendEnd, aead.value);
    var sent := sender.Send(random, data);
    if sent != Ok(()) {
      return;
    }
    frameLength := |pipe.data|;
    var closed := sender.Close();
    OpenAfterSeal(aead.value, random[..aead.value.nonceSize], data);
    assert pipe.data == Frame(aead.value, random[..aead.value.nonceSize], data);
    var receiver := new SecureStream(pipe, ReceiveEnd, aead.value);
    var got := receiver.Receive(sizes);
    r := got.value;
  }
}
