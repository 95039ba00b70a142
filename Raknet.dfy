/** The parse half of the RakNet status ping (internal/raknet/raknet.go):
    the unconnected-pong payload is a `;`-separated byte string whose
    fixed positions are mapped onto a `Pong` record, numeric positions
    through `strconv.Atoi` with its error ignored. The ping itself is a
    network call and enters only as its outcome. */
module Raknet {
  import opened Text

  newtype byte = x: int | 0 <= x < 256

  const Semicolon: byte := 59
  const Plus: byte := 43
  const Minus: byte := 45
  const Zero: byte := 48

  // ---------------------------------------------------------------
  // bytes.Split and its inverse bytes.Join
  // ---------------------------------------------------------------

  /** Number of occurrences of `sep` in `s`. */
  function Count(s: seq<byte>, sep: byte): nat {
    if s == [] then 0 else (if s[0] == sep then 1 else 0) + Count(s[1..], sep)
  }

  /** bytes.Split(s, [sep]): always Count(s, sep) + 1 pieces, none of
      which contains the separator (an empty input gives one empty piece). */
  function Split(s: seq<byte>, sep: byte): (parts: seq<seq<byte>>)
    ensures |parts| == Count(s, sep) + 1
    ensures forall i :: 0 <= i < |parts| ==> sep !in parts[i]
  {
    if s == [] then [[]]
    else
      var rest := Split(s[1..], sep);
      if s[0] == sep then [[]] + rest
      else [[s[0]] + rest[0]] + rest[1..]
  }

  /** bytes.Join(parts, [sep]) for a non-empty list of pieces. */
  function Join(parts: seq<seq<byte>>, sep: byte): seq<byte>
    requires |parts| >= 1
  {
    if |parts| == 1 then parts[0] else parts[0] + [sep] + Join(parts[1..], sep)
  }

  /** Joining the pieces of a split gives back the input. */
  lemma {:induction false} JoinOfSplit(s: seq<byte>, sep: byte)
    ensures Join(Split(s, sep), sep) == s
  {
    if s != [] {
      JoinOfSplit(s[1..], sep);
      var rest := Split(s[1..], sep);
      if s[0] == sep {
        assert Split(s, sep) == [[]] + rest;
        assert ([[]] + rest)[1..] == rest;
      } else {
        var parts := [[s[0]] + rest[0]] + rest[1..];
        assert Split(s, sep) == parts;
        if |rest| == 1 {
          assert Join(parts, sep) == [s[0]] + rest[0];
        } else {
          assert parts[1..] == rest[1..];
          assert Join(rest, sep) == rest[0] + [sep] + Join(rest[1..], sep);
        }
      }
    }
  }

  /** Splitting a join of separator-free pieces gives back the pieces. */
  lemma {:induction false} SplitOfJoin(parts: seq<seq<byte>>, sep: byte)
    requires |parts| >= 1
    requires forall i :: 0 <= i < |parts| ==> sep !in parts[i]
    ensures Split(Join(parts, sep), sep) == parts
  {
    if |parts| == 1 {
      SplitOfSepFree(parts[0], sep);
    } else {
      SplitOfJoin(parts[1..], sep);
      SplitPrefixed(parts[0], sep, Join(parts[1..], sep));
      assert [parts[0]] + parts[1..] == parts;
    }
  }

  lemma {:induction false} SplitOfSepFree(s: seq<byte>, sep: byte)
    requires sep !in s
    ensures Split(s, sep) == [s]
  {
    if s != [] {
      SplitOfSepFree(s[1..], sep);
      assert [s[0]] + s[1..] == s;
    }
  }

  /** Split of `p + [sep] + t` when `p` is separator-free. */
  lemma {:induction false} SplitPrefixed(p: seq<byte>, sep: byte, t: seq<byte>)
    requires sep !in p
    ensures Split(p + [sep] + t, sep) == [p] + Split(t, sep)
  {
    var s := p + [sep] + t;
    if p == [] {
      assert s[1..] == t;
    } else {
      assert s[1..] == p[1..] + [sep] + t;
      SplitPrefixed(p[1..], sep, t);
      assert [p[0]] + p[1..] == p;
    }
  }

  // ---------------------------------------------------------------
  // strconv.Atoi, 64-bit `int`
  // ---------------------------------------------------------------

  const MaxUint64: int := 0xFFFF_FFFF_FFFF_FFFF
  const MaxInt64: int := 0x7FFF_FFFF_FFFF_FFFF
  const MinInt64: int := -0x8000_0000_0000_0000

  predicate IsDigitByte(b: byte) {
    Zero <= b <= Zero + 9
  }

  predicate AllDigits(s: seq<byte>) {
    forall i :: 0 <= i < |s| ==> IsDigitByte(s[i])
  }

  /** Outcome of strconv.ParseUint(s, 10, 64). */
  datatype Scan = SyntaxError | RangeError | Value(n: nat)

  /** ParseUint's digit loop: it stops with a range error as soon as the
      accumulated value passes 2^64 - 1, even if a non-digit follows. */
  function ScanUint(acc: nat, s: seq<byte>): Scan
    requires acc <= MaxUint64
    decreases |s|
  {
    if s == [] then Value(acc)
    else if !IsDigitByte(s[0]) then SyntaxError
    else
      var next := acc * 10 + (s[0] - Zero) as int;
      if next > MaxUint64 then RangeError else ScanUint(next, s[1..])
  }

  function ParseUint(s: seq<byte>): Scan {
    if s == [] then SyntaxError else ScanUint(0, s)
  }

  /** strconv.Atoi with its error discarded: an optional sign, then
      ParseUint; a syntax error gives 0, an out-of-range value is
      clamped to the 64-bit bounds (the value Go returns beside ErrRange). */
  function Atoi(s: seq<byte>): int {
    if s == [] then 0
    else
      var neg := s[0] == Minus;
      var body := if s[0] == Plus || s[0] == Minus then s[1..] else s;
      match ParseUint(body)
      case SyntaxError => 0
      case RangeError => if neg then MinInt64 else MaxInt64
      case Value(n) =>
        if !neg && n > MaxInt64 then MaxInt64
        else if neg && n > -MinInt64 then MinInt64
        else if neg then -(n as int) else n
  }

  /** Specification of the numbers Atoi accepts: an optionally signed,
      non-empty run of decimal digits. */
  predicate IsSignedDecimal(s: seq<byte>) {
    var body := if |s| > 0 && (s[0] == Plus || s[0] == Minus) then s[1..] else s;
    |body| >= 1 && AllDigits(body)
  }

  /** Value of a digit string read left to right, starting from `acc`. */
  function DecValue(acc: nat, s: seq<byte>): nat
    requires AllDigits(s)
    decreases |s|
  {
    if s == [] then acc else DecValue(acc * 10 + (s[0] - Zero) as int, s[1..])
  }

  function SignedValue(s: seq<byte>): int
    requires IsSignedDecimal(s)
  {
    if s[0] == Minus then -(DecValue(0, s[1..]) as int)
    else if s[0] == Plus then DecValue(0, s[1..])
    else DecValue(0, s)
  }

  function Clamp64(v: int): (r: int)
    ensures MinInt64 <= r <= MaxInt64
    ensures MinInt64 <= v <= MaxInt64 ==> r == v
  {
    if v > MaxInt64 then MaxInt64 else if v < MinInt64 then MinInt64 else v
  }

  lemma {:induction false} DecValueGrows(acc: nat, s: seq<byte>)
    requires AllDigits(s)
    ensures DecValue(acc, s) >= acc
    ensures s != [] ==> DecValue(acc, s) >= acc * 10 + (s[0] - Zero) as int
    decreases |s|
  {
    if s != [] {
      DecValueGrows(acc * 10 + (s[0] - Zero) as int, s[1..]);
    }
  }

  /** On a digit string the scan overflows exactly when the value does. */
  lemma {:induction false} ScanOfDigits(acc: nat, s: seq<byte>)
    requires acc <= MaxUint64
    requires AllDigits(s)
    ensures ScanUint(acc, s) ==
      (if DecValue(acc, s) <= MaxUint64 then Value(DecValue(acc, s)) else RangeError)
    decreases |s|
  {
    if s != [] {
      var next := acc * 10 + (s[0] - Zero) as int;
      DecValueGrows(acc, s);
      if next <= MaxUint64 {
        ScanOfDigits(next, s[1..]);
      }
    }
  }

  /** A scan that meets a non-digit never yields a value. */
  lemma {:induction false} ScanOfNonDigits(acc: nat, s: seq<byte>)
    requires acc <= MaxUint64
    requires !AllDigits(s)
    ensures !ScanUint(acc, s).Value?
    decreases |s|
  {
    if IsDigitByte(s[0]) {
      var next := acc * 10 + (s[0] - Zero) as int;
      if next <= MaxUint64 {
        assert !AllDigits(s[1..]) by {
          var i :| 0 <= i < |s| && !IsDigitByte(s[i]);
          assert i > 0 && !IsDigitByte(s[1..][i - 1]);
        }
        ScanOfNonDigits(next, s[1..]);
      }
    }
  }

  function Pow10(k: nat): (r: nat)
    ensures r >= 1
  {
    if k == 0 then 1 else 10 * Pow10(k - 1)
  }

  lemma {:induction false} Pow10Monotone(j: nat, k: nat)
    requires j <= k
    ensures Pow10(j) <= Pow10(k)
  {
    if j < k {
      Pow10Monotone(j, k - 1);
    }
  }

  lemma Pow10Of19()
    ensures Pow10(19) == 10_000_000_000_000_000_000
  {
    assert Pow10(4) == 10_000;
    assert Pow10(8) == 100_000_000;
    assert Pow10(12) == 1_000_000_000_000;
    assert Pow10(16) == 10_000_000_000_000_000;
  }

  /** A scan over at most 19 characters cannot overflow 64 bits. */
  lemma {:induction false} ScanShort(acc: nat, m: nat, s: seq<byte>)
    requires acc < Pow10(m)
    requires |s| + m <= 19
    ensures acc <= MaxUint64
    ensures ScanUint(acc, s) != RangeError
    decreases |s|
  {
    Pow10Monotone(m, 19);
    Pow10Of19();
    if s != [] && IsDigitByte(s[0]) {
      var next := acc * 10 + (s[0] - Zero) as int;
      assert next < Pow10(m + 1);
      Pow10Monotone(m + 1, 19);
      ScanShort(next, m + 1, s[1..]);
    }
  }

  /** Atoi on a well-formed decimal gives its value, clamped to 64 bits. */
  lemma AtoiOfDecimal(s: seq<byte>)
    requires IsSignedDecimal(s)
    ensures Atoi(s) == Clamp64(SignedValue(s))
  {
    var body := if s[0] == Plus || s[0] == Minus then s[1..] else s;
    ScanOfDigits(0, body);
    DecValueGrows(0, body);
  }

  /** Atoi on anything else gives 0, or a clamped bound when the digits
      before the first bad character already overflow 64 bits; with fewer
      than 19 characters that cannot happen and the result is 0. */
  lemma AtoiOfNonDecimal(s: seq<byte>)
    requires !IsSignedDecimal(s)
    ensures Atoi(s) == 0 || Atoi(s) == MaxInt64 || Atoi(s) == MinInt64
    ensures |s| < 19 ==> Atoi(s) == 0
  {
    if s != [] {
      var body := if s[0] == Plus || s[0] == Minus then s[1..] else s;
      if body != [] {
        ScanOfNonDigits(0, body);
        if |s| < 19 {
          ScanShort(0, 0, body);
        }
      }
    }
  }

  /** Decimal rendering of a natural number as bytes. */
  function DecimalBytes(n: nat): (r: seq<byte>)
    ensures |r| >= 1 && AllDigits(r)
  {
    if n < 10 then [Zero + n as byte]
    else DecimalBytes(n / 10) + [Zero + (n % 10) as byte]
  }

  lemma {:induction false} DecValueSnoc(acc: nat, s: seq<byte>, d: byte)
    requires AllDigits(s) && IsDigitByte(d)
    ensures AllDigits(s + [d])
    ensures DecValue(acc, s + [d]) == DecValue(acc, s) * 10 + (d - Zero) as int
    decreases |s|
  {
    assert AllDigits(s + [d]) by {
      forall i | 0 <= i < |s + [d]| ensures IsDigitByte((s + [d])[i]) {
        if i < |s| { assert (s + [d])[i] == s[i]; }
      }
    }
    if s != [] {
      assert (s + [d])[1..] == s[1..] + [d];
      DecValueSnoc(acc * 10 + (s[0] - Zero) as int, s[1..], d);
    }
  }

  lemma {:induction false} DecValueOfDecimal(n: nat)
    ensures DecValue(0, DecimalBytes(n)) == n
  {
    if n >= 10 {
      DecValueOfDecimal(n / 10);
      DecValueSnoc(0, DecimalBytes(n / 10), Zero + (n % 10) as byte);
    }
  }

  /** Atoi reads back what the decimal rendering wrote. */
  lemma AtoiOfDecimalBytes(n: nat)
    requires n <= MaxInt64
    ensures Atoi(DecimalBytes(n)) == n
  {
    var d := DecimalBytes(n);
    assert IsSignedDecimal(d);
    DecValueOfDecimal(n);
    AtoiOfDecimal(d);
  }

  /** Once the digits read so far pass 2^64 - 1 the scan stops with a
      range error, whatever follows. */
  lemma {:induction false} ScanOverflowPrefix(acc: nat, p: seq<byte>, q: seq<byte>)
    requires acc <= MaxUint64
    requires AllDigits(p) && DecValue(acc, p) > MaxUint64
    ensures ScanUint(acc, p + q) == RangeError
    decreases |p|
  {
    assert p != [];
    var next := acc * 10 + (p[0] - Zero) as int;
    assert (p + q)[0] == p[0] && (p + q)[1..] == p[1..] + q;
    if next <= MaxUint64 {
      ScanOverflowPrefix(next, p[1..], q);
    }
  }

  /** The overflow-before-junk case: a number past 2^64 - 1 followed by a
      non-digit is not a decimal, yet Atoi gives the 64-bit maximum, not 0. */
  lemma AtoiOverflowBeforeJunk(n: nat, q: seq<byte>)
    requires n > MaxUint64
    requires q != [] && !IsDigitByte(q[0])
    ensures !IsSignedDecimal(DecimalBytes(n) + q)
    ensures Atoi(DecimalBytes(n) + q) == MaxInt64
  {
    var d := DecimalBytes(n);
    var s := d + q;
    assert s[0] == d[0] && IsDigitByte(s[0]);
    assert s[|d|] == q[0];
    DecValueOfDecimal(n);
    ScanOverflowPrefix(0, d, q);
  }

  // ---------------------------------------------------------------
  // The pong record
  // ---------------------------------------------------------------

  datatype Pong = Pong(
    edition: seq<byte>,
    serverName: seq<byte>,
    protocolVersion: int,
    versionName: seq<byte>,
    playerCount: int,
    maxPlayerCount: int,
    serverId: seq<byte>,
    levelName: seq<byte>,
    gameMode: seq<byte>,
    gameModeInt: int,
    ipv4Port: int,
    ipv6Port: int)

  const ZeroPong := Pong([], [], 0, [], 0, 0, [], [], [], 0, 0, 0)

  /** Field mapping of GetPong. Indexes run up to 11, so the payload must
      have at least twelve fields (the source would panic otherwise). */
  function ParsePong(data: seq<byte>): (p: Pong)
    requires |Split(data, Semicolon)| >= 12
    ensures p.protocolVersion == 0
    ensures var f := Split(data, Semicolon);
      && p.edition == f[0] && p.serverName == f[1] && p.versionName == f[3]
      && p.serverId == f[6] && p.levelName == f[7] && p.gameMode == f[8]
  {
    var f := Split(data, Semicolon);
    Pong(f[0], f[1], 0, f[3], Atoi(f[4]), Atoi(f[5]), f[6], f[7], f[8],
         Atoi(f[9]), Atoi(f[10]), Atoi(f[11]))
  }

  /** Outcome of the foreign call raknet.Ping. */
  datatype PingOutcome = PingReply(data: seq<byte>) | PingFailed(detail: string)

  /** GetPong: a failed ping gives the zero record and an error naming the
      address; a reply is parsed. */
  function GetPong(addr: string, ping: PingOutcome): (r: (Pong, Option<string>))
    requires ping.PingReply? ==> |Split(ping.data, Semicolon)| >= 12
    ensures ping.PingFailed? ==> r == (ZeroPong, Some("error pinging " + addr + ": " + ping.detail))
    ensures ping.PingReply? ==> r == (ParsePong(ping.data), None)
  {
    match ping
    case PingFailed(detail) => (ZeroPong, Some("error pinging " + addr + ": " + detail))
    case PingReply(data) => (ParsePong(data), None)
  }

  predicate SepFree(fields: seq<seq<byte>>) {
    forall i :: 0 <= i < |fields| ==> Semicolon !in fields[i]
  }

  /** Round trip on the text fields: joining twelve or more `;`-free
      fields and parsing returns them in their positions; fields after
      the twelfth are ignored. */
  lemma ParseOfJoin(fields: seq<seq<byte>>)
    requires |fields| >= 12 && SepFree(fields)
    ensures |Split(Join(fields, Semicolon), Semicolon)| >= 12
    ensures var p := ParsePong(Join(fields, Semicolon));
      && p.edition == fields[0] && p.serverName == fields[1]
      && p.versionName == fields[3] && p.serverId == fields[6]
      && p.levelName == fields[7] && p.gameMode == fields[8]
      && p.playerCount == Atoi(fields[4]) && p.maxPlayerCount == Atoi(fields[5])
      && p.gameModeInt == Atoi(fields[9]) && p.ipv4Port == Atoi(fields[10])
      && p.ipv6Port == Atoi(fields[11]) && p.protocolVersion == 0
  {
    SplitOfJoin(fields, Semicolon);
  }

  /** The payload a server would send for `p` (protocol field `proto`). */
  function EncodePong(p: Pong, proto: seq<byte>): seq<byte>
    requires p.playerCount >= 0 && p.maxPlayerCount >= 0 && p.gameModeInt >= 0
    requires p.ipv4Port >= 0 && p.ipv6Port >= 0
  {
    Join([p.edition, p.serverName, proto, p.versionName,
          DecimalBytes(p.playerCount), DecimalBytes(p.maxPlayerCount),
          p.serverId, p.levelName, p.gameMode, DecimalBytes(p.gameModeInt),
          DecimalBytes(p.ipv4Port), DecimalBytes(p.ipv6Port)], Semicolon)
  }

  /** Full round trip: a record with `;`-free text, non-negative 64-bit
      numbers and protocol version 0 is recovered from its payload,
      whatever the (ignored) protocol field holds. */
  lemma ParseOfEncode(p: Pong, proto: seq<byte>)
    requires Semicolon !in p.edition && Semicolon !in p.serverName
    requires Semicolon !in p.versionName && Semicolon !in p.serverId
    requires Semicolon !in p.levelName && Semicolon !in p.gameMode
    requires Semicolon !in proto
    requires 0 <= p.playerCount <= MaxInt64 && 0 <= p.maxPlayerCount <= MaxInt64
    requires 0 <= p.gameModeInt <= MaxInt64
    requires 0 <= p.ipv4Port <= MaxInt64 && 0 <= p.ipv6Port <= MaxInt64
    requires p.protocolVersion == 0
    ensures |Split(EncodePong(p, proto), Semicolon)| >= 12
    ensures ParsePong(EncodePong(p, proto)) == p
  {
    var fields := [p.edition, p.serverName, proto, p.versionName,
          DecimalBytes(p.playerCount), DecimalBytes(p.maxPlayerCount),
          p.serverId, p.levelName, p.gameMode, DecimalBytes(p.gameModeInt),
          DecimalBytes(p.ipv4Port), DecimalBytes(p.ipv6Port)];
    forall i | 0 <= i < |fields| ensures Semicolon !in fields[i] {
      if i in {4, 5, 9, 10, 11} {
        assert AllDigits(fields[i]);
      }
    }
    ParseOfJoin(fields);
    AtoiOfDecimalBytes(p.playerCount);
    AtoiOfDecimalBytes(p.maxPlayerCount);
    AtoiOfDecimalBytes(p.gameModeInt);
    AtoiOfDecimalBytes(p.ipv4Port);
    AtoiOfDecimalBytes(p.ipv6Port);
  }
}
