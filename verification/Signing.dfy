/** The signed calls between the two services: the orchestrator signs a timestamp, the method and
    the body (orchestrator/app/executor_client.py); the executor checks them
    (executor/internal/boundary/boundary.go, executor-gin/cmd/server/grpc_server.go). */
module Signing {
  import opened Text
  import opened Capability

  const OBSERVE: string := "/epochdeploy.executor.v1.Executor/Observe"
  const EXECUTE: string := "/epochdeploy.executor.v1.Executor/Execute"
  const HEALTH: string := "/epochdeploy.executor.v1.Executor/Health"
  const PREFIX: string := "sha256="
  const MAX_SKEW: int := 30 * SECOND

  /** HMAC-SHA256 with the shared secret, and the hexadecimal coding. */
  datatype Mac = Mac(mac: string -> string, hex: string -> string, unhex: string -> Option<string>)

  ghost predicate LawfulMac(m: Mac) {
    forall x :: m.unhex(m.hex(x)) == Some(x)
  }

  // ---------------------------------------------------------------- decimal timestamps

  function Digit(n: nat): char
    requires n < 10
  {
    "0123456789"[n]
  }

  function DigitValue(c: char): Option<nat> {
    if '0' <= c <= '9' then Some((c - '0') as nat) else None
  }

  /** `str(int(...))` of a time after 1970. */
  function Decimal(n: nat): (s: string)
    ensures s != ""
  {
    if n < 10 then [Digit(n)] else Decimal(n / 10) + [Digit(n % 10)]
  }

  /** The digits of a number read from left to right, as `strconv.ParseInt` does in base 10. */
  function ParseDigits(s: string): Option<nat> {
    if s == "" then Some(0)
    else match (ParseDigits(s[..|s| - 1]), DigitValue(s[|s| - 1]))
      case (Some(n), Some(d)) => Some(10 * n + d)
      case _ => None
  }

  /** With an optional sign, at least one digit, and within 64 bits. */
  function ParseInt(s: string): Option<int> {
    var digits := if s != "" && s[0] in "+-" then s[1..] else s;
    if digits == "" then None
    else match ParseDigits(digits)
      case None => None
      case Some(n) =>
        var m: int := n;
        var v := if s[0] == '-' then -m else m;
        if -0x8000_0000_0000_0000 <= v < 0x8000_0000_0000_0000 then Some(v) else None
  }

  lemma DigitReads(n: nat)
    requires n < 10
    ensures DigitValue(Digit(n)) == Some(n) && Digit(n) !in "+-."
  {
  }

  lemma {:induction false} DecimalReads(n: nat)
    ensures ParseDigits(Decimal(n)) == Some(n)
    ensures forall c :: c in Decimal(n) ==> c !in "+-."
  {
    if n < 10 {
      DigitReads(n);
      assert [Digit(n)][..0] == "";
    } else {
      DecimalReads(n / 10);
      DigitReads(n % 10);
      var s := Decimal(n);
      assert s[..|s| - 1] == Decimal(n / 10) && s[|s| - 1] == Digit(n % 10);
    }
  }

  /** Reading back a printed timestamp gives the number. */
  lemma ParseDecimal(n: nat)
    requires n < 0x8000_0000_0000_0000
    ensures ParseInt(Decimal(n)) == Some(n) && NoDot(Decimal(n))
  {
    DecimalReads(n);
    assert Decimal(n)[0] in Decimal(n);
  }

  /** The numerals are decimal ones. */
  lemma DecimalNumerals(n: nat)
    ensures n < 10 ==> Decimal(n) == [('0' as int + n) as char]
    ensures Decimal(10 * n + 10) == Decimal(n + 1) + "0"
    ensures forall d: nat :: d < 10 && n > 0 ==> Decimal(10 * n + d) == Decimal(n) + Decimal(d)
  {
    assert Decimal(0) == "0" && (10 * n + 10) / 10 == n + 1 && (10 * n + 10) % 10 == 0;
    forall d: nat | d < 10 && n > 0
      ensures Decimal(10 * n + d) == Decimal(n) + Decimal(d)
    {
      assert (10 * n + d) / 10 == n && (10 * n + d) % 10 == d;
    }
  }

  // ---------------------------------------------------------------- framing

  function Frame(timestamp: string, rpc: string, payload: string): string {
    timestamp + "." + rpc + "." + payload
  }

  predicate Signable(rpc: string) {
    rpc == OBSERVE || rpc == EXECUTE
  }

  lemma FirstDot(a: string, b: string, x: string, y: string)
    requires NoDot(a) && NoDot(b) && a + "." + x == b + "." + y
    ensures a == b && x == y
  {
    var s := a + "." + x;
    assert s == b + "." + y;
    assert s[|a|] == '.' && s[|b|] == '.';
    assert forall i :: 0 <= i < |a| ==> s[i] == a[i] && a[i] in a;
    assert forall i :: 0 <= i < |b| ==> s[i] == b[i] && b[i] in b;
    assert s[..|a|] == a && s[..|b|] == b;
    assert s[|a| + 1..] == x && s[|b| + 1..] == y;
  }

  /** One signed text stands for one timestamp, one of the two methods, and one body. */
  lemma FrameInjective(t1: string, m1: string, p1: string, t2: string, m2: string, p2: string)
    requires NoDot(t1) && NoDot(t2) && Signable(m1) && Signable(m2)
    ensures Frame(t1, m1, p1) == Frame(t2, m2, p2) <==> t1 == t2 && m1 == m2 && p1 == p2
  {
    if Frame(t1, m1, p1) == Frame(t2, m2, p2) {
      var r1, r2 := m1 + "." + p1, m2 + "." + p2;
      assert Frame(t1, m1, p1) == t1 + "." + r1 && Frame(t2, m2, p2) == t2 + "." + r2;
      FirstDot(t1, t2, r1, r2);
      assert |m1| == |m2| && r1[..|m1|] == m1 && r2[..|m2|] == m2;
      assert r1[|m1| + 1..] == p1 && r2[|m2| + 1..] == p2;
    }
  }

  /** The dots alone do not delimit the method: with other names two calls could share a text. */
  lemma FrameAmbiguous()
    ensures Frame("1", "a.b", "c") == Frame("1", "a", "b.c")
  {
  }

  // ---------------------------------------------------------------- signing and checking

  datatype Metadata = Metadata(timestamp: string, signature: string)

  /** executor_client.py `_grpc_metadata` at clock `at`. */
  function GrpcMetadata(m: Mac, rpc: string, body: string, at: nat): Metadata {
    var timestamp := Decimal(WholeSeconds(at));
    Metadata(timestamp, PREFIX + m.hex(m.mac(Frame(timestamp, rpc, body))))
  }

  /** boundary.go `ValidRPCSignature`. */
  predicate ValidRpcSignature(m: Mac, timestamp: string, rpc: string, payload: string, signature: string, now: int) {
    match ParseInt(timestamp)
    case None => false
    case Some(seconds) =>
      && now - seconds * SECOND <= MAX_SKEW && seconds * SECOND - now <= MAX_SKEW
      && PREFIX <= signature
      && m.unhex(signature[|PREFIX|..]) == Some(m.mac(Frame(timestamp, rpc, payload)))
  }

  /** grpc_server.go `grpcAuthInterceptor`: health checks pass unsigned. */
  predicate GrpcAdmits(m: Mac, rpc: string, timestamps: seq<string>, signatures: seq<string>, payload: string,
                       now: int) {
    || rpc == HEALTH
    || (&& |timestamps| == 1 && |signatures| == 1
        && ValidRpcSignature(m, timestamps[0], rpc, payload, signatures[0], now))
  }

  /** No second text with the MAC of the first. */
  ghost predicate MacSeparates(m: Mac, a: string, b: string) {
    m.mac(a) == m.mac(b) ==> a == b
  }

  /** The executor admits the metadata of a signed call exactly for the method and the body that
      were signed, and exactly while its clock is within thirty seconds of the signed second. */
  lemma SignedCallAdmittedExactly(m: Mac, signed: string, body: string, at: nat, rpc: string, payload: string, now: int)
    requires LawfulMac(m) && Signable(signed) && Signable(rpc) && WholeSeconds(at) < 0x8000_0000_0000_0000
    requires var t := Decimal(WholeSeconds(at)); MacSeparates(m, Frame(t, signed, body), Frame(t, rpc, payload))
    ensures var md := GrpcMetadata(m, signed, body, at);
            GrpcAdmits(m, rpc, [md.timestamp], [md.signature], payload, now) <==>
              && rpc == signed && payload == body
              && WholeSeconds(at) * SECOND - 30000000 <= now <= WholeSeconds(at) * SECOND + 30000000
  {
    var t := Decimal(WholeSeconds(at));
    var md := GrpcMetadata(m, signed, body, at);
    ParseDecimal(WholeSeconds(at));
    assert md.signature[|PREFIX|..] == m.hex(m.mac(Frame(t, signed, body)));
    assert PREFIX <= md.signature;
    FrameInjective(t, signed, body, t, rpc, payload);
    assert rpc != HEALTH;
  }
}
