/** Functions that keep the promises the model asks of its libraries, and a deployment built on
    them: the hypotheses of the theorems about capabilities can be met together. */
module Libraries {
  import opened Text
  import opened Identities
  import opened Capability
  import opened Ledgers
  import opened Workflow
  import Comparison
  import Delegation
  import History
  import Json
  import Policy
  import Schemas
  import Signing
  import Witnesses

  // ---------------------------------------------------------------- a coding without dots

  function EncodeDots(s: string): string {
    if s == "" then ""
    else (if s[0] == '.' then "~0" else if s[0] == '~' then "~1" else [s[0]]) + EncodeDots(s[1..])
  }

  function DecodeDots(s: string): Option<string> {
    if s == "" then Some("")
    else if s[0] != '~' then
      (match DecodeDots(s[1..])
       case Some(rest) => Some([s[0]] + rest)
       case None => None)
    else if |s| == 1 then None
    else
      (match DecodeDots(s[2..])
       case Some(rest) => Some((if s[1] == '0' then "." else "~") + rest)
       case None => None)
  }

  lemma {:induction false} DotsRoundTrip(s: string)
    ensures DecodeDots(EncodeDots(s)) == Some(s) && NoDot(EncodeDots(s))
  {
    if s != "" {
      DotsRoundTrip(s[1..]);
      var rest, e := EncodeDots(s[1..]), EncodeDots(s);
      if s[0] == '.' || s[0] == '~' {
        assert e[2..] == rest;
      } else {
        assert e[1..] == rest;
      }
      assert [s[0]] + s[1..] == s;
    }
  }

  // ---------------------------------------------------------------- claims as a JSON object

  function IntText(n: int): string {
    if n < 0 then "-" + Signing.Decimal(-n) else Signing.Decimal(n)
  }

  function ReadInt(s: string): Option<int> {
    if s != "" && s[0] == '-' then
      (match Signing.ParseDigits(s[1..])
       case Some(n) => Some(-(n as int))
       case None => None)
    else
      (match Signing.ParseDigits(s)
       case Some(n) => Some(n)
       case None => None)
  }

  lemma DecimalStart(n: nat)
    ensures Signing.Decimal(n) != "" && Signing.Decimal(n)[0] != '-'
    ensures Signing.ParseDigits(Signing.Decimal(n)) == Some(n)
  {
    Signing.DecimalReads(n);
    hide Signing.Decimal;
    assert Signing.Decimal(n)[0] in Signing.Decimal(n);
  }

  lemma IntRoundTrip(n: int)
    ensures ReadInt(IntText(n)) == Some(n)
  {
    hide Signing.Decimal;
    hide Signing.ParseDigits;
    DecimalStart(if n < 0 then -n else n);
    if n < 0 {
      assert IntText(n)[1..] == Signing.Decimal(-n);
    }
  }

  function Members(c: Claims): Json.Members {
    [("ver", IntText(c.ver)), ("jti", c.jti), ("typ", c.typ),
     ("epoch_id", c.scope.epochId), ("actor_type", c.scope.actorType), ("actor_id", c.scope.actorId),
     ("project", c.scope.project), ("environment", c.scope.environment), ("action", c.scope.action),
     ("fingerprint", c.scope.fingerprint), ("iat", IntText(c.iat)), ("exp", IntText(c.exp))]
  }

  function WriteClaims(c: Claims): string {
    Json.EncodeObject(Python, Members(c))
  }

  function ReadMembers(ms: Json.Members): Option<Claims> {
    if |ms| != 12 then None
    else match (ReadInt(ms[0].1), ReadInt(ms[10].1), ReadInt(ms[11].1))
      case (Some(ver), Some(iat), Some(exp)) =>
        Some(Claims(ver, ms[1].1, ms[2].1,
                    Scope(ms[3].1, ms[4].1, ms[5].1, ms[6].1, ms[7].1, ms[8].1, ms[9].1), iat, exp))
      case _ => None
  }

  function ReadClaims(s: string): Option<Claims> {
    match Json.DecodeObject(s)
    case Some(ms) => ReadMembers(ms)
    case None => None
  }

  lemma ClaimsRoundTrip(c: Claims)
    ensures ReadClaims(WriteClaims(c)) == Some(c)
  {
    Json.DecodeEncode(Python, Members(c));
    hide Json.DecodeObject;
    hide Json.EncodeObject;
    IntRoundTrip(c.ver);
    IntRoundTrip(c.iat);
    IntRoundTrip(c.exp);
    hide IntText;
    hide ReadInt;
  }

  // ---------------------------------------------------------------- a lawful configuration

  function Same(s: string): string { s }

  function Algorithm(header: string): Option<string> { Some(header) }

  function Report(body: string): Body { Attributes(PIPELINE, SUCCESS, COMMIT) }

  function TheJws(): Jws {
    Jws(EncodeDots, DecodeDots, Same, "HS256", Algorithm, WriteClaims, ReadClaims)
  }

  /** The library laws can be met. */
  lemma SomeJwsIsLawful()
    ensures Lawful(TheJws())
  {
    hide EncodeDots;
    hide DecodeDots;
    hide WriteClaims;
    hide ReadClaims;
    forall x: string
      ensures TheJws().unb64(TheJws().b64(x)) == Some(x) && NoDot(TheJws().b64(x))
    {
      DotsRoundTrip(x);
    }
    forall c: Claims
      ensures TheJws().readClaims(TheJws().writeClaims(c)) == Some(c)
    {
      ClaimsRoundTrip(c);
    }
  }

  const COMMIT: string := "8f375e7"
  const PIPELINE: string := "7421"

  function Release(environment: string): Identity {
    Identity(PROJECT, environment, COMMIT, "sha256:" + Comparison.HEX64, "sha256:" + Comparison.HEX64)
  }

  function Deployment(mode: Mode): Config {
    Config(mode, Same, TheJws(), Report, 100)
  }

  const PROJECT: string := "payments-api"

  lemma ProjectIsPlain()
    ensures IsTrimmed(Go, PROJECT) && |PROJECT| == 12 && CommonField(PROJECT)
  {
    assert Schemas.IsPlain(PROJECT);
    Schemas.PlainFacts(Go, PROJECT);
    hide Schemas.IsPlain;
  }

  lemma CommitIsHex()
    ensures |COMMIT| == 7 && Schemas.AllHex(COMMIT) && Schemas.IsLower(COMMIT)
  {
    assert Schemas.Lower(COMMIT) == COMMIT;
  }

  lemma ReleaseIsValid(environment: string)
    requires Schemas.IsEnvironment(environment)
    ensures Schemas.ValidIdentity(Release(environment))
  {
    hide Schemas.IsDigest;
    hide Schemas.IsLower;
    hide Schemas.AllHex;
    hide Schemas.IsEnvironment;
    hide IsTrimmed;
    Comparison.Hex64Digest("sha256:" + Comparison.HEX64);
    ProjectIsPlain();
    CommitIsHex();
  }

  lemma PipelineIsText()
    ensures Schemas.ParseText(PIPELINE, 1, 80) == Some(PIPELINE)
  {
    TrimFixpoint(Go, PIPELINE);
  }

  lemma DeploymentFits(mode: Mode, environment: string)
    requires Schemas.IsEnvironment(environment)
    ensures Witnesses.Releasable(Deployment(mode), Release(environment), PIPELINE, "{}")
    ensures Delegation.TextsApart(Deployment(mode), Release(environment)) && CommonField(PROJECT)
  {
    hide Schemas.ValidIdentity;
    hide Schemas.ParseText;
    hide Schemas.IsEnvironment;
    hide CanonicalText;
    hide CommonField;
    ReleaseIsValid(environment);
    ProjectIsPlain();
    PipelineIsText();
  }

  /** The end-to-end results are about something: with either executor there is a configuration and
      a release that meet every hypothesis, so some run has two receipts for one epoch. */
  lemma SomeDeploymentReachesTwo(mode: Mode)
    ensures exists cfg: Config, rs: seq<Request> ::
              && cfg.mode == mode && Lawful(cfg.jws)
              && "epoch-1" in Run(cfg, START, rs).ledgers && |Run(cfg, START, rs).ledgers["epoch-1"].receipts| == 2
  {
    hide Run;
    hide Lawful;
    hide Witnesses.Releasable;
    hide Delegation.TextsApart;
    SomeJwsIsLawful();
    DeploymentFits(mode, "staging");
    var cfg := Deployment(mode);
    Witnesses.TwoReceipts(cfg, "epoch-1", Release("staging"), PIPELINE, "{}");
    var rs :| "epoch-1" in Run(cfg, START, rs).ledgers && |Run(cfg, START, rs).ledgers["epoch-1"].receipts| == 2;
  }
}
