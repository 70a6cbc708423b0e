/**
 Partner API authentication: the message that is signed, and the order of the checks a request must pass.
 The MAC itself is an unknown function of key and message.
 */
module SignedRequests {
  import opened Wrappers
  import Text

  newtype byte = b: int | 0 <= b < 256

  type Bytes = seq<byte>

  const NEWLINE: byte := 10
  const TIMESTAMP_TTL := 300
  const MAX_BODY_BYTES := 1_048_576

  // ---------- the canonical message ----------

  function Canonical(method_: Bytes, path: Bytes, timestamp: Bytes, body: Bytes): Bytes {
    method_ + [NEWLINE] + path + [NEWLINE] + timestamp + [NEWLINE] + body
  }

  // What signAPIRequest feeds the MAC, one write at a time.
  method WriteCanonical(method_: Bytes, path: Bytes, timestamp: Bytes, body: Bytes) returns (buffer: Bytes)
    ensures buffer == Canonical(method_, path, timestamp, body)
  {
    buffer := [];
    buffer := buffer + method_;
    buffer := buffer + [NEWLINE];
    buffer := buffer + path;
    buffer := buffer + [NEWLINE];
    buffer := buffer + timestamp;
    buffer := buffer + [NEWLINE];
    buffer := buffer + body;
  }

  // The first line of a text and what follows its newline.
  function SplitLine(s: Bytes): Option<(Bytes, Bytes)> {
    if s == [] then None
    else if s[0] == NEWLINE then Some(([], s[1..]))
    else
      match SplitLine(s[1..])
      case None => None
      case Some((line, rest)) => Some(([s[0]] + line, rest))
  }

  function Parse(message: Bytes): Option<(Bytes, Bytes, Bytes, Bytes)> {
    match SplitLine(message)
    case None => None
    case Some((method_, afterMethod)) =>
      match SplitLine(afterMethod)
      case None => None
      case Some((path, afterPath)) =>
        match SplitLine(afterPath)
        case None => None
        case Some((timestamp, body)) => Some((method_, path, timestamp, body))
  }

  lemma {:induction false} SplitJoin(line: Bytes, rest: Bytes)
    requires NEWLINE !in line
    ensures SplitLine(line + [NEWLINE] + rest) == Some((line, rest))
  {
    var s := line + [NEWLINE] + rest;
    if line == [] {
      assert s[1..] == rest;
    } else {
      SplitJoin(line[1..], rest);
      assert s[1..] == line[1..] + [NEWLINE] + rest;
      assert [line[0]] + line[1..] == line;
    }
  }

  lemma {:induction false} SplitSound(s: Bytes)
    ensures SplitLine(s).Some? ==> NEWLINE !in SplitLine(s).value.0 && SplitLine(s).value.0 + [NEWLINE] + SplitLine(s).value.1 == s
  {
    if s != [] && s[0] != NEWLINE { SplitSound(s[1..]); }
  }

  /** Parsing the canonical message gives back the four parts, whatever the body contains, exactly when the first three
      parts contain no newline. */
  lemma {:induction false} ParsePrinted(method_: Bytes, path: Bytes, timestamp: Bytes, body: Bytes)
    ensures Parse(Canonical(method_, path, timestamp, body)) == Some((method_, path, timestamp, body))
       <==> NEWLINE !in method_ && NEWLINE !in path && NEWLINE !in timestamp
  {
    var message := Canonical(method_, path, timestamp, body);
    if NEWLINE !in method_ && NEWLINE !in path && NEWLINE !in timestamp {
      var tail := timestamp + [NEWLINE] + body;
      assert message == method_ + [NEWLINE] + (path + [NEWLINE] + tail);
      SplitJoin(method_, path + [NEWLINE] + tail);
      SplitJoin(path, tail);
      SplitJoin(timestamp, body);
    } else if Parse(message) == Some((method_, path, timestamp, body)) {
      SplitSound(message);
      SplitSound(SplitLine(message).value.1);
      SplitSound(SplitLine(SplitLine(message).value.1).value.1);
      assert false;
    }
  }

  /** Conversely, printing what was parsed gives back the message: parse and print are inverse to each other. */
  lemma {:induction false} PrintParsed(message: Bytes)
    ensures Parse(message).Some? ==>
              var p := Parse(message).value; Canonical(p.0, p.1, p.2, p.3) == message
  {
    SplitSound(message);
    if SplitLine(message).Some? {
      SplitSound(SplitLine(message).value.1);
      if SplitLine(SplitLine(message).value.1).Some? {
        SplitSound(SplitLine(SplitLine(message).value.1).value.1);
      }
    }
  }

  // ---------- the checks ----------

  datatype ApiKey = ApiKey(enabled: bool, revoked: bool, merchantActive: bool)

  // The parts of one HTTP request the check looks at. An absent header is the empty string; a body that could not be
  // read is None.
  datatype Incoming = Incoming(
    key: Bytes, timestamp: Bytes, signature: Bytes,
    method_: Bytes, path: Bytes, body: Option<Bytes>)

  datatype Verdict = Pass | Deny(status: int)

  predicate Digit(b: byte) {
    48 <= b <= 57
  }

  function Value(digits: Bytes): int {
    if digits == [] then 0 else 10 * Value(digits[..|digits| - 1]) + (digits[|digits| - 1] as int - 48)
  }

  function Unsigned(s: Bytes): Bytes {
    if s != [] && (s[0] == 43 || s[0] == 45) then s[1..] else s
  }

  // strconv.ParseInt(s, 10, 64)
  function ParseInt64(s: Bytes): Option<int> {
    var digits := Unsigned(s);
    if digits == [] || !(forall d :: d in digits ==> Digit(d)) then None
    else
      var n := if s[0] == 45 then -Value(digits) else Value(digits);
      if -0x8000_0000_0000_0000 <= n <= 0x7fff_ffff_ffff_ffff then Some(n) else None
  }

  lemma {:induction false} NumbersHaveNoNewline(s: Bytes)
    requires ParseInt64(s).Some?
    ensures NEWLINE !in s
  {
    if s[0] == 43 || s[0] == 45 {
      assert s == [s[0]] + Unsigned(s);
    }
  }

  // Lower-case hex text of the MAC, as the handler compares it; `normalise` trims and lower-cases the header.
  datatype World = World(
    now: int,
    keys: map<Bytes, ApiKey>,
    mac: (Bytes, Bytes) -> Bytes,
    normalise: Bytes -> Bytes,
    allowed: bool)

  function Authenticate(w: World, r: Incoming): Verdict {
    if r.key == [] || r.timestamp == [] || r.signature == [] then Deny(401)
    else
      match ParseInt64(r.timestamp)
      case None => Deny(401)
      case Some(t) =>
        if w.now - t > TIMESTAMP_TTL || w.now - t < -TIMESTAMP_TTL then Deny(401)
        else if r.key !in w.keys then Deny(401)
        else if !w.keys[r.key].enabled || w.keys[r.key].revoked then Deny(401)
        else if !w.keys[r.key].merchantActive then Deny(403)
        else if r.body.None? then Deny(400)
        else if |r.body.value| > MAX_BODY_BYTES then Deny(413)
        else if w.mac(r.key, Canonical(r.method_, r.path, r.timestamp, r.body.value)) != w.normalise(r.signature) then Deny(401)
        else if !w.allowed then Deny(429)
        else Pass
  }

  // No two messages have the same MAC under one key.
  ghost predicate CollisionFree(mac: (Bytes, Bytes) -> Bytes) {
    forall k, m1, m2 :: mac(k, m1) == mac(k, m2) ==> m1 == m2
  }

  /** Under a collision-free MAC one signature authenticates one request: two requests that pass with the same key and
      the same signature, at any two times, agree on method, path, timestamp and every byte of the body. The timestamp
      needs no assumption, because one that contains a newline never passes. */
  lemma {:induction false} OneSignatureOneRequest(w1: World, w2: World, a: Incoming, b: Incoming)
    requires w1.mac == w2.mac && w1.normalise == w2.normalise && CollisionFree(w1.mac)
    requires NEWLINE !in a.method_ && NEWLINE !in a.path && NEWLINE !in b.method_ && NEWLINE !in b.path
    requires a.key == b.key && a.signature == b.signature
    requires Authenticate(w1, a) == Pass && Authenticate(w2, b) == Pass
    ensures a == b
  {
    NumbersHaveNoNewline(a.timestamp);
    NumbersHaveNoNewline(b.timestamp);
    ParsePrinted(a.method_, a.path, a.timestamp, a.body.value);
    ParsePrinted(b.method_, b.path, b.timestamp, b.body.value);
  }

  // ---------- who gets in ----------

  // The header reads as a whole number of seconds: digits, with a sign or not, in 64 bits.
  predicate ReadsAs(s: Bytes, t: int) {
    var digits := if s != [] && s[0] in {43, 45} then s[1..] else s;
    && digits != [] && (forall d :: d in digits ==> 48 <= d <= 57)
    && t == (if s[0] == 45 then -Value(digits) else Value(digits))
    && -9_223_372_036_854_775_808 <= t <= 9_223_372_036_854_775_807
  }

  lemma {:induction false} ParsesIff(s: Bytes, t: int)
    ensures ParseInt64(s) == Some(t) <==> ReadsAs(s, t)
  {
  }

  // A digit more is ten times as much and that digit.
  lemma {:induction false} ValueIsDecimal(digits: Bytes, d: byte)
    ensures Value([]) == 0 && Value(digits + [d]) == 10 * Value(digits) + (d as int - 48)
  {
    assert (digits + [d])[..|digits|] == digits;
  }

  predicate Recent(now: int, t: int) {
    -300 <= now - t <= 300
  }

  predicate KnownKey(w: World, key: Bytes) {
    key in w.keys && w.keys[key].enabled && !w.keys[key].revoked
  }

  /**
   A request passes exactly when it carries key, timestamp and signature, the timestamp is within five minutes of now, the key
   is known, enabled and not revoked, its merchant is active, the body could be read and is at most 1 MiB, the signature is the
   MAC of these very bytes under that key, and the rate allows it.
   */
  lemma {:induction false} PassesIff(w: World, r: Incoming)
    ensures Authenticate(w, r) == Pass <==>
              && r.key != [] && r.timestamp != [] && r.signature != []
              && (exists t :: ReadsAs(r.timestamp, t) && Recent(w.now, t))
              && KnownKey(w, r.key) && w.keys[r.key].merchantActive
              && r.body.Some? && |r.body.value| <= 1_048_576
              && w.normalise(r.signature) ==
                 w.mac(r.key, r.method_ + [10] + r.path + [10] + r.timestamp + [10] + r.body.value)
              && w.allowed
  {
    if ParseInt64(r.timestamp).Some? { ParsesIff(r.timestamp, ParseInt64(r.timestamp).value); }
    forall t ensures ReadsAs(r.timestamp, t) <==> ParseInt64(r.timestamp) == Some(t) { ParsesIff(r.timestamp, t); }
    hide ParseInt64, ReadsAs;
  }

  /**
   The refusals: 429 for the rate alone, 403 for an inactive merchant, 400 and 413 for a body that cannot be read or is too
   long, in this order after the key, and 401 for all that is wrong with key, timestamp or signature.
   */
  lemma {:induction false} RefusedWith(w: World, r: Incoming)
    ensures var timely := r.key != [] && r.timestamp != [] && r.signature != [] && (exists t :: ReadsAs(r.timestamp, t) && Recent(w.now, t));
            && (!timely || !KnownKey(w, r.key) ==> Authenticate(w, r) == Deny(401))
            && (timely && KnownKey(w, r.key) ==>
                  && (!w.keys[r.key].merchantActive ==> Authenticate(w, r) == Deny(403))
                  && (w.keys[r.key].merchantActive && r.body.None? ==> Authenticate(w, r) == Deny(400))
                  && (w.keys[r.key].merchantActive && r.body.Some? && |r.body.value| > 1_048_576 ==> Authenticate(w, r) == Deny(413)))
            && (Authenticate(w, r) == Deny(429) ==> !w.allowed && Authenticate(w.(allowed := true), r) == Pass)
  {
    forall t ensures ReadsAs(r.timestamp, t) <==> ParseInt64(r.timestamp) == Some(t) { ParsesIff(r.timestamp, t); }
    hide ParseInt64, ReadsAs;
  }
}
