/** The validation done when a CONNECTION object is planned: which options a
    connection type accepts, how a Kafka connection's security protocol and
    its TLS and SASL settings are chosen, the Kafka broker list, and the
    required options, defaults and pairings of the other connection types.
    Catalog lookups, tunnels and URL parsing are not part of this model. */
module ConnectionPlan {
  import opened Wrappers

  datatype ConnectionType = Aws | AwsPrivatelink | Csr | Kafka | Postgres | Ssh

  /** The names of the options of CREATE CONNECTION. */
  datatype OptionName =
    | AccessKeyId | AvailabilityZones | AwsPrivatelinkObject | Broker | Brokers | Database | Endpoint
    | Host | Password | Port | ProgressTopic | Region | RoleArn | SaslMechanisms | SaslPassword
    | SaslUsername | SecretAccessKey | SecurityProtocol | ServiceName | SshTunnel | SslCertificate
    | SslCertificateAuthority | SslKey | SslMode | Token | Url | User

  /** A reference to a secret in the catalog. */
  datatype Secret = Secret(id: nat)

  datatype StringOrSecret = Str(value: string) | SecretRef(secret: Secret)

  /** A broker of the BROKER or BROKERS option; its tunnel is not modelled. */
  datatype KafkaBroker = KafkaBroker(address: string)

  /** The extracted options: the value given to each, and the set of option
      names that appeared. */
  datatype ConnectionOptions = ConnectionOptions(
    accessKeyId: Option<StringOrSecret>,
    availabilityZones: Option<seq<string>>,
    broker: Option<seq<KafkaBroker>>,
    brokers: Option<seq<KafkaBroker>>,
    database: Option<string>,
    endpoint: Option<string>,
    host: Option<string>,
    password: Option<Secret>,
    port: Option<nat>,
    progressTopic: Option<string>,
    region: Option<string>,
    roleArn: Option<string>,
    saslMechanisms: Option<string>,
    saslPassword: Option<Secret>,
    saslUsername: Option<StringOrSecret>,
    secretAccessKey: Option<Secret>,
    securityProtocol: Option<string>,
    serviceName: Option<string>,
    sslCertificate: Option<StringOrSecret>,
    sslCertificateAuthority: Option<StringOrSecret>,
    sslKey: Option<Secret>,
    sslMode: Option<string>,
    token: Option<StringOrSecret>,
    url: Option<string>,
    user: Option<StringOrSecret>,
    seen: set<OptionName>)

  datatype TlsIdentity = TlsIdentity(cert: StringOrSecret, key: Secret)

  datatype KafkaTls = KafkaTls(identity: Option<TlsIdentity>, rootCert: Option<StringOrSecret>)

  datatype KafkaSasl = KafkaSasl(mechanism: string, username: StringOrSecret, password: Secret)

  datatype SslMode = Disable | Require | VerifyCa | VerifyFull

  datatype HttpAuth = HttpAuth(username: StringOrSecret, password: Option<Secret>)

  /** The planned connection, without its tunnel. */
  datatype Connection =
    | AwsConnection(accessKeyId: StringOrSecret, secretAccessKey: Secret, sessionToken: Option<StringOrSecret>,
                    endpoint: Option<string>, region: Option<string>, roleArn: Option<string>)
    | PrivatelinkConnection(serviceName: string, availabilityZones: seq<string>)
    | KafkaConnection(brokers: seq<KafkaBroker>, progressTopic: Option<string>, tls: Option<KafkaTls>, sasl: Option<KafkaSasl>)
    | CsrConnection(url: string, tlsRootCert: Option<StringOrSecret>, tlsIdentity: Option<TlsIdentity>, httpAuth: Option<HttpAuth>)
    | PostgresConnection(database: string, password: Option<Secret>, host: string, port: nat, tlsMode: SslMode,
                         tlsRootCert: Option<StringOrSecret>, tlsIdentity: Option<TlsIdentity>, user: StringOrSecret)
    | SshConnection(host: string, port: nat, username: string)

  /** The reasons planning fails. */
  datatype PlanError =
    | UnsupportedOptions(connectionType: ConnectionType, options: set<OptionName>)
    | OptionRequired(option: OptionName)
    | UrlRequired
    | TlsPairRequired(connectionType: ConnectionType)
    | UnknownSslMode(mode: string)
    | SshUserSecret
    | BrokerConflict
    | BrokerRequired
    | MultipleBrokerAddresses
    | UnknownSecurityProtocol(protocol: string)
    | SslKeyRequired
    | SaslOptionRequired(option: OptionName)
    | OptionNotSupported(options: set<OptionName>)

  // ---------------------------------------------------------------------------
  // Permitted options

  /** The options each connection type accepts. */
  function Permitted(t: ConnectionType): seq<OptionName> {
    match t
    case Aws => [AccessKeyId, SecretAccessKey, Token, Endpoint, Region, RoleArn]
    case AwsPrivatelink => [AvailabilityZones, Port, ServiceName]
    case Csr => [AwsPrivatelinkObject, Password, Port, SshTunnel, SslCertificate, SslCertificateAuthority, SslKey, Url, User]
    case Kafka => [Broker, Brokers, ProgressTopic, SshTunnel, SslKey, SslCertificate, SslCertificateAuthority,
                   SaslMechanisms, SaslUsername, SaslPassword, SecurityProtocol]
    case Postgres => [AwsPrivatelinkObject, Database, Host, Password, Port, SshTunnel, SslCertificate,
                      SslCertificateAuthority, SslKey, SslMode, User]
    case Ssh => [Host, Port, User]
  }

  function PermittedSet(t: ConnectionType): set<OptionName> {
    set o | o in Permitted(t)
  }

  /** `ensure_only_valid_options`: the permitted names are removed from the
      seen ones; whatever is left is reported. */
  method EnsureOnlyValidOptions(seen: set<OptionName>, t: ConnectionType) returns (r: Result<(), PlanError>)
    ensures r.Ok? <==> seen <= PermittedSet(t)
    ensures r.Err? ==> r.error == UnsupportedOptions(t, seen - PermittedSet(t)) && r.error.options != {}
  {
    var permitted := Permitted(t);
    var left := seen;
    for i := 0 to |permitted|
      invariant left == seen - set j | 0 <= j < i :: permitted[j]
    {
      left := left - {permitted[i]};
    }
    assert (set j | 0 <= j < |permitted| :: permitted[j]) == PermittedSet(t) by {
      forall o | o in PermittedSet(t) ensures exists j :: 0 <= j < |permitted| && permitted[j] == o {
        var j :| 0 <= j < |permitted| && permitted[j] == o;
      }
    }
    if left != {} {
      return Err(UnsupportedOptions(t, left));
    }
    forall o | o in seen ensures o in PermittedSet(t) {
      assert o !in left;
    }
    return Ok(());
  }

  // ---------------------------------------------------------------------------
  // Kafka security

  /** ASCII upper case of one character. */
  function UpperChar(c: char): (u: char)
    ensures 'a' <= c <= 'z' ==> u as int == c as int - 32
    ensures !('a' <= c <= 'z') ==> u == c
  {
    if 'a' <= c <= 'z' then (c as int - 32) as char else c
  }

  /** `to_uppercase`, on ASCII letters. */
  function ToUpper(s: string): (u: string)
    ensures |u| == |s|
    ensures forall i | 0 <= i < |s| :: u[i] == UpperChar(s[i])
  {
    if s == [] then [] else ToUpper(s[..|s| - 1]) + [UpperChar(s[|s| - 1])]
  }

  /** Upper-casing twice is upper-casing once. */
  lemma {:induction false} ToUpperIdempotent(s: string)
    ensures ToUpper(ToUpper(s)) == ToUpper(s)
  {
    var u := ToUpper(s);
    forall i | 0 <= i < |s| ensures ToUpper(u)[i] == u[i] {
      assert UpperChar(u[i]) == u[i];
    }
  }

  datatype Protocol = Plaintext | Ssl | SaslPlaintext | SaslSsl

  /** The name of each protocol, upper case. */
  function ProtocolName(p: Protocol): string {
    match p
    case Plaintext => "PLAINTEXT"
    case Ssl => "SSL"
    case SaslPlaintext => "SASL_PLAINTEXT"
    case SaslSsl => "SASL_SSL"
  }

  const SASL_CONFIGS: seq<OptionName> := [SaslMechanisms, SaslUsername, SaslPassword]

  const ALL_CONFIGS: seq<OptionName> := [SslKey, SslCertificate, SslCertificateAuthority] + SASL_CONFIGS

  /** The security protocol: the named one, matched without regard to case,
      or when none is named an SSL-enabled one, with SASL when any SASL
      option appeared. */
  function SecurityProtocolOf(v: ConnectionOptions): (r: Result<Protocol, PlanError>)
    ensures v.securityProtocol.Some? ==>
      (r.Ok? <==> exists p: Protocol :: ProtocolName(p) == ToUpper(v.securityProtocol.value))
    ensures v.securityProtocol.Some? && r.Ok? ==> ProtocolName(r.value) == ToUpper(v.securityProtocol.value)
    ensures v.securityProtocol.Some? && r.Err? ==> r.error == UnknownSecurityProtocol(ToUpper(v.securityProtocol.value))
    ensures v.securityProtocol.None? ==>
      r == Ok(if exists c :: c in SASL_CONFIGS && c in v.seen then SaslSsl else Ssl)
  {
    match v.securityProtocol
    case Some(name) =>
      var upper := ToUpper(name);
      if upper == ProtocolName(Plaintext) then Ok(Plaintext)
      else if upper == ProtocolName(Ssl) then Ok(Ssl)
      else if upper == ProtocolName(SaslPlaintext) then Ok(SaslPlaintext)
      else if upper == ProtocolName(SaslSsl) then Ok(SaslSsl)
      else Err(UnknownSecurityProtocol(upper))
    case None =>
      if exists c :: c in SASL_CONFIGS && c in v.seen then Ok(SaslSsl) else Ok(Ssl)
  }

  predicate UsesTls(p: Protocol) {
    p == Ssl || p == SaslSsl
  }

  predicate UsesSasl(p: Protocol) {
    p == SaslPlaintext || p == SaslSsl
  }

  /** The security options a protocol takes: the certificate authority and
      the certificate under TLS (and the key when a certificate is given),
      and the SASL options under SASL. */
  function Consumed(v: ConnectionOptions, p: Protocol): set<OptionName> {
    (if UsesTls(p) then {SslCertificate, SslCertificateAuthority} + (if v.sslCertificate.Some? then {SslKey} else {}) else {})
    + (if UsesSasl(p) then {SaslMechanisms, SaslUsername, SaslPassword} else {})
  }

  /** The security options that appeared. */
  function SecurityOptionsSeen(v: ConnectionOptions): set<OptionName> {
    set c | c in ALL_CONFIGS && c in v.seen
  }

  /** The Kafka security configuration: TLS exactly under SSL and SASL_SSL,
      SASL exactly under SASL_PLAINTEXT and SASL_SSL, the first missing
      requirement reported in the order the source checks them, and no
      security option allowed that the protocol does not take. */
  function KafkaSecurity(v: ConnectionOptions): (r: Result<(Option<KafkaTls>, Option<KafkaSasl>), PlanError>)
    ensures SecurityProtocolOf(v).Err? ==> r == Err(SecurityProtocolOf(v).error)
    ensures SecurityProtocolOf(v).Ok? && UsesTls(SecurityProtocolOf(v).value) && v.sslCertificate.Some? && v.sslKey.None?
            ==> r == Err(SslKeyRequired)
    ensures SecurityProtocolOf(v).Ok? && UsesSasl(SecurityProtocolOf(v).value)
            && !(UsesTls(SecurityProtocolOf(v).value) && v.sslCertificate.Some? && v.sslKey.None?) ==>
              && (v.saslMechanisms.None? ==> r == Err(SaslOptionRequired(SaslMechanisms)))
              && (v.saslMechanisms.Some? && v.saslUsername.None? ==> r == Err(SaslOptionRequired(SaslUsername)))
              && (v.saslMechanisms.Some? && v.saslUsername.Some? && v.saslPassword.None? ==>
                    r == Err(SaslOptionRequired(SaslPassword)))
    ensures r.Ok? <==>
      && SecurityProtocolOf(v).Ok?
      && var p := SecurityProtocolOf(v).value;
      && (UsesTls(p) && v.sslCertificate.Some? ==> v.sslKey.Some?)
      && (UsesSasl(p) ==> v.saslMechanisms.Some? && v.saslUsername.Some? && v.saslPassword.Some?)
      && SecurityOptionsSeen(v) <= Consumed(v, p)
    ensures r.Ok? ==>
      var p := SecurityProtocolOf(v).value;
      var (tls, sasl) := r.value;
      && (tls.Some? <==> UsesTls(p))
      && (sasl.Some? <==> UsesSasl(p))
      && (tls.Some? ==> tls.value.rootCert == v.sslCertificateAuthority
                        && tls.value.identity == if v.sslCertificate.Some?
                                                 then Some(TlsIdentity(v.sslCertificate.value, v.sslKey.value))
                                                 else None)
      && (sasl.Some? ==> sasl.value == KafkaSasl(ToUpper(v.saslMechanisms.value), v.saslUsername.value,
                                                 v.saslPassword.value))
    ensures r.Err? && r.error.OptionNotSupported? ==>
              r.error.options != {} && r.error.options == SecurityOptionsSeen(v) - Consumed(v, SecurityProtocolOf(v).value)
  {
    match SecurityProtocolOf(v)
    case Err(e) => Err(e)
    case Ok(p) =>
      if UsesTls(p) && v.sslCertificate.Some? && v.sslKey.None? then Err(SslKeyRequired)
      else if UsesSasl(p) && v.saslMechanisms.None? then Err(SaslOptionRequired(SaslMechanisms))
      else if UsesSasl(p) && v.saslUsername.None? then Err(SaslOptionRequired(SaslUsername))
      else if UsesSasl(p) && v.saslPassword.None? then Err(SaslOptionRequired(SaslPassword))
      else if !(SecurityOptionsSeen(v) <= Consumed(v, p)) then Err(OptionNotSupported(SecurityOptionsSeen(v) - Consumed(v, p)))
      else
        var tls := if UsesTls(p) then
            Some(KafkaTls(if v.sslCertificate.Some? then Some(TlsIdentity(v.sslCertificate.value, v.sslKey.value)) else None,
                          v.sslCertificateAuthority))
          else None;
        var sasl := if UsesSasl(p) then
            Some(KafkaSasl(ToUpper(v.saslMechanisms.value), v.saslUsername.value, v.saslPassword.value))
          else None;
        Ok((tls, sasl))
  }

  /** A security option the protocol does not take fails the plan: an SSL
      option under a plaintext protocol, a SASL option under a non-SASL one,
      or an SSL KEY without an SSL CERTIFICATE. */
  lemma {:induction false} KafkaSecurityRejectsUnused(v: ConnectionOptions, o: OptionName)
    requires SecurityProtocolOf(v).Ok?
    requires o in ALL_CONFIGS && o in v.seen
    requires var p := SecurityProtocolOf(v).value;
      || (!UsesTls(p) && o in [SslKey, SslCertificate, SslCertificateAuthority])
      || (!UsesSasl(p) && o in SASL_CONFIGS)
      || (o == SslKey && v.sslCertificate.None?)
    ensures KafkaSecurity(v).Err?
  {
    var p := SecurityProtocolOf(v).value;
    assert o in SecurityOptionsSeen(v);
    assert o !in Consumed(v, p);
  }

  /** The security options that appeared, collected from `ALL_CONFIGS` in
      `plan_kafka_security`. */
  method CollectSeen(v: ConnectionOptions) returns (seen: set<OptionName>)
    ensures seen == SecurityOptionsSeen(v)
  {
    seen := {};
    for i := 0 to |ALL_CONFIGS|
      invariant seen == set j | 0 <= j < i && ALL_CONFIGS[j] in v.seen :: ALL_CONFIGS[j]
    {
      if ALL_CONFIGS[i] in v.seen {
        seen := seen + {ALL_CONFIGS[i]};
      }
    }
    forall c | c in SecurityOptionsSeen(v)
      ensures c in seen
    {
      var j :| 0 <= j < |ALL_CONFIGS| && ALL_CONFIGS[j] == c;
    }
  }

  /** `plan_kafka_security`: the protocol chosen, then the `outstanding`
      set of security options that appeared shrunk by what the TLS and
      SASL settings take; any left over fails. */
  method PlanKafkaSecurity(v: ConnectionOptions) returns (r: Result<(Option<KafkaTls>, Option<KafkaSasl>), PlanError>)
    ensures r == KafkaSecurity(v)
  {
    var protocol := SecurityProtocolOf(v);
    if protocol.Err? {
      return Err(protocol.error);
    }
    var p := protocol.value;
    var outstanding := CollectSeen(v);
    var tls: Option<KafkaTls> := None;
    if UsesTls(p) {
      outstanding := outstanding - {SslCertificate};
      var identity: Option<TlsIdentity> := None;
      if v.sslCertificate.Some? {
        outstanding := outstanding - {SslKey};
        if v.sslKey.None? {
          return Err(SslKeyRequired);
        }
        identity := Some(TlsIdentity(v.sslCertificate.value, v.sslKey.value));
      }
      outstanding := outstanding - {SslCertificateAuthority};
      tls := Some(KafkaTls(identity, v.sslCertificateAuthority));
    }
    var sasl: Option<KafkaSasl> := None;
    if UsesSasl(p) {
      outstanding := outstanding - {SaslMechanisms} - {SaslUsername} - {SaslPassword};
      if v.saslMechanisms.None? {
        return Err(SaslOptionRequired(SaslMechanisms));
      }
      if v.saslUsername.None? {
        return Err(SaslOptionRequired(SaslUsername));
      }
      if v.saslPassword.None? {
        return Err(SaslOptionRequired(SaslPassword));
      }
      sasl := Some(KafkaSasl(ToUpper(v.saslMechanisms.value), v.saslUsername.value, v.saslPassword.value));
    }
    assert outstanding == SecurityOptionsSeen(v) - Consumed(v, p);
    if outstanding != {} {
      return Err(OptionNotSupported(outstanding));
    }
    return Ok((tls, sasl));
  }

  // ---------------------------------------------------------------------------
  // Kafka brokers

  /** The brokers: exactly one of BROKER and BROKERS, and no address
      naming several brokers with a comma. */
  function ChosenBrokers(v: ConnectionOptions): (r: Result<seq<KafkaBroker>, PlanError>)
    ensures v.broker.Some? && v.brokers.Some? ==> r == Err(BrokerConflict)
    ensures v.broker.None? && v.brokers.None? ==> r == Err(BrokerRequired)
    ensures r.Ok? <==> (v.broker.Some? != v.brokers.Some?)
                       && var bs := if v.broker.Some? then v.broker.value else v.brokers.value;
                          forall i | 0 <= i < |bs| :: ',' !in bs[i].address
    ensures r.Ok? ==> r.value == if v.broker.Some? then v.broker.value else v.brokers.value
  {
    match (v.broker, v.brokers)
    case (Some(_), Some(_)) => Err(BrokerConflict)
    case (None, None) => Err(BrokerRequired)
    case (Some(bs), None) => if exists i | 0 <= i < |bs| :: ',' in bs[i].address then Err(MultipleBrokerAddresses) else Ok(bs)
    case (None, Some(bs)) => if exists i | 0 <= i < |bs| :: ',' in bs[i].address then Err(MultipleBrokerAddresses) else Ok(bs)
  }

  /** `get_brokers`: the chosen list checked and copied broker by broker. */
  method GetBrokers(v: ConnectionOptions) returns (r: Result<seq<KafkaBroker>, PlanError>)
    ensures r == ChosenBrokers(v)
  {
    var brokers: seq<KafkaBroker>;
    match (v.broker, v.brokers) {
      case (Some(_), Some(_)) => return Err(BrokerConflict);
      case (None, None) => return Err(BrokerRequired);
      case (Some(bs), None) => brokers := bs;
      case (None, Some(bs)) => brokers := bs;
    }
    var out: seq<KafkaBroker> := [];
    for i := 0 to |brokers|
      invariant out == brokers[..i]
      invariant forall j | 0 <= j < i :: ',' !in brokers[j].address
    {
      if ',' in brokers[i].address {
        return Err(MultipleBrokerAddresses);
      }
      out := out + [KafkaBroker(brokers[i].address)];
    }
    assert brokers[..|brokers|] == brokers;
    return Ok(out);
  }

  // ---------------------------------------------------------------------------
  // The other connection types

  /** A TLS identity needs both a certificate and a key, or neither. */
  function PairIdentity(cert: Option<StringOrSecret>, key: Option<Secret>, t: ConnectionType): (r: Result<Option<TlsIdentity>, PlanError>)
    ensures r.Ok? <==> (cert.Some? <==> key.Some?)
    ensures r.Err? ==> r.error == TlsPairRequired(t)
    ensures r.Ok? ==> (r.value.Some? <==> cert.Some?)
    ensures r.Ok? && r.value.Some? ==> r.value.value == TlsIdentity(cert.value, key.value)
  {
    match (cert, key)
    case (None, None) => Ok(None)
    case (Some(c), Some(k)) => Ok(Some(TlsIdentity(c, k)))
    case _ => Err(TlsPairRequired(t))
  }

  /** The names each SSL mode is given by. */
  function SslModeNames(m: SslMode): set<string> {
    match m
    case Disable => {"disable"}
    case Require => {"require"}
    case VerifyCa => {"verify_ca", "verify-ca"}
    case VerifyFull => {"verify_full", "verify-full"}
  }

  /** The Postgres SSL MODE: disabled when absent; `prefer` is not accepted. */
  function ParseSslMode(mode: Option<string>): (r: Result<SslMode, PlanError>)
    ensures mode.None? ==> r == Ok(Disable)
    ensures mode.Some? ==> (r.Ok? <==> exists m: SslMode :: mode.value in SslModeNames(m))
    ensures mode.Some? && r.Ok? ==> mode.value in SslModeNames(r.value)
    ensures mode.Some? && r.Err? ==> r.error == UnknownSslMode(mode.value)
  {
    match mode
    case None => Ok(Disable)
    case Some(m) =>
      if m in SslModeNames(Disable) then Ok(Disable)
      else if m in SslModeNames(Require) then Ok(Require)
      else if m in SslModeNames(VerifyCa) then Ok(VerifyCa)
      else if m in SslModeNames(VerifyFull) then Ok(VerifyFull)
      else Err(UnknownSslMode(m))
  }

  /** Every name of a mode parses back to that mode. */
  lemma {:induction false} ParseSslModeNames(m: SslMode, name: string)
    requires name in SslModeNames(m)
    ensures ParseSslMode(Some(name)) == Ok(m)
  {
    match m
    case Disable =>
    case Require =>
    case VerifyCa => assert name == "verify_ca" || name == "verify-ca";
    case VerifyFull => assert name == "verify_full" || name == "verify-full";
  }

  /** The value of an option, or the error naming it as required. */
  function Required<T>(value: Option<T>, name: OptionName): (r: Result<T, PlanError>)
    ensures r.Ok? <==> value.Some?
    ensures r.Ok? ==> r.value == value.value
    ensures r.Err? ==> r.error == OptionRequired(name)
  {
    if value.Some? then Ok(value.value) else Err(OptionRequired(name))
  }

  /** An AWS connection: the access key id and the secret access key are
      required (in that order); an empty endpoint counts as none. */
  function PlanAws(v: ConnectionOptions): (r: Result<Connection, PlanError>)
    ensures v.accessKeyId.None? ==> r == Err(OptionRequired(AccessKeyId))
    ensures v.accessKeyId.Some? && v.secretAccessKey.None? ==> r == Err(OptionRequired(SecretAccessKey))
    ensures r.Ok? <==> v.accessKeyId.Some? && v.secretAccessKey.Some?
    ensures r.Ok? ==> r.value.AwsConnection?
                      && r.value.accessKeyId == v.accessKeyId.value && r.value.secretAccessKey == v.secretAccessKey.value
                      && r.value.sessionToken == v.token && r.value.region == v.region && r.value.roleArn == v.roleArn
                      && (r.value.endpoint.Some? <==> v.endpoint.Some? && v.endpoint.value != "")
                      && (r.value.endpoint.Some? ==> r.value.endpoint == v.endpoint)
  {
    match Required(v.accessKeyId, AccessKeyId)
    case Err(e) => Err(e)
    case Ok(accessKeyId) =>
      match Required(v.secretAccessKey, SecretAccessKey)
      case Err(e) => Err(e)
      case Ok(secretAccessKey) =>
        var endpoint := if v.endpoint.Some? && v.endpoint.value != "" then v.endpoint else None;
        Ok(AwsConnection(accessKeyId, secretAccessKey, v.token, endpoint, v.region, v.roleArn))
  }

  /** An AWS PrivateLink connection: the service name and the availability
      zones are required (in that order). */
  function PlanPrivatelink(v: ConnectionOptions): (r: Result<Connection, PlanError>)
    ensures v.serviceName.None? ==> r == Err(OptionRequired(ServiceName))
    ensures v.serviceName.Some? && v.availabilityZones.None? ==> r == Err(OptionRequired(AvailabilityZones))
    ensures r.Ok? <==> v.serviceName.Some? && v.availabilityZones.Some?
    ensures r.Ok? ==> r.value == PrivatelinkConnection(v.serviceName.value, v.availabilityZones.value)
  {
    match Required(v.serviceName, ServiceName)
    case Err(e) => Err(e)
    case Ok(serviceName) =>
      match Required(v.availabilityZones, AvailabilityZones)
      case Err(e) => Err(e)
      case Ok(zones) => Ok(PrivatelinkConnection(serviceName, zones))
  }

  /** A schema registry connection: a URL is required, the certificate and
      key come together, and a USER brings HTTP authentication with the
      PASSWORD if any. */
  function PlanCsr(v: ConnectionOptions): (r: Result<Connection, PlanError>)
    ensures v.url.None? ==> r == Err(UrlRequired)
    ensures v.url.Some? && (v.sslCertificate.Some? != v.sslKey.Some?) ==> r == Err(TlsPairRequired(Csr))
    ensures r.Ok? <==> v.url.Some? && (v.sslCertificate.Some? <==> v.sslKey.Some?)
    ensures r.Ok? ==> r.value.CsrConnection? && r.value.url == v.url.value
                      && r.value.tlsRootCert == v.sslCertificateAuthority
                      && (r.value.tlsIdentity.Some? <==> v.sslCertificate.Some?)
                      && (r.value.tlsIdentity.Some? ==> r.value.tlsIdentity.value == TlsIdentity(v.sslCertificate.value, v.sslKey.value))
                      && (r.value.httpAuth.Some? <==> v.user.Some?)
                      && (r.value.httpAuth.Some? ==> r.value.httpAuth.value == HttpAuth(v.user.value, v.password))
  {
    match v.url
    case None => Err(UrlRequired)
    case Some(url) =>
      match PairIdentity(v.sslCertificate, v.sslKey, Csr)
      case Err(e) => Err(e)
      case Ok(identity) =>
        var auth := if v.user.Some? then Some(HttpAuth(v.user.value, v.password)) else None;
        Ok(CsrConnection(url, v.sslCertificateAuthority, identity, auth))
  }

  /** A Postgres connection: the certificate and key come together, the SSL
      mode must be known, DATABASE, HOST and USER are required (each error
      in that order), and the port defaults to 5432. */
  function PlanPostgres(v: ConnectionOptions): (r: Result<Connection, PlanError>)
    ensures (v.sslCertificate.Some? != v.sslKey.Some?) ==> r == Err(TlsPairRequired(Postgres))
    ensures (v.sslCertificate.Some? <==> v.sslKey.Some?) && ParseSslMode(v.sslMode).Err? ==> r == Err(ParseSslMode(v.sslMode).error)
    ensures r.Ok? <==> && (v.sslCertificate.Some? <==> v.sslKey.Some?) && ParseSslMode(v.sslMode).Ok?
                       && v.database.Some? && v.host.Some? && v.user.Some?
    ensures r.Ok? ==> r.value.PostgresConnection?
                      && r.value.port == (if v.port.Some? then v.port.value else 5432)
                      && r.value.tlsMode == ParseSslMode(v.sslMode).value
                      && (r.value.tlsIdentity.Some? <==> v.sslCertificate.Some?)
                      && (r.value.tlsIdentity.Some? ==> r.value.tlsIdentity.value == TlsIdentity(v.sslCertificate.value, v.sslKey.value))
                      && r.value.database == v.database.value && r.value.host == v.host.value && r.value.user == v.user.value
                      && r.value.password == v.password && r.value.tlsRootCert == v.sslCertificateAuthority
  {
    match PairIdentity(v.sslCertificate, v.sslKey, Postgres)
    case Err(e) => Err(e)
    case Ok(identity) =>
      match ParseSslMode(v.sslMode)
      case Err(e) => Err(e)
      case Ok(mode) =>
        match Required(v.database, Database)
        case Err(e) => Err(e)
        case Ok(database) =>
          match Required(v.host, Host)
          case Err(e) => Err(e)
          case Ok(host) =>
            match Required(v.user, User)
            case Err(e) => Err(e)
            case Ok(user) =>
              var port := if v.port.Some? then v.port.value else 5432;
              Ok(PostgresConnection(database, v.password, host, port, mode, v.sslCertificateAuthority, identity, user))
  }

  /** An SSH connection: HOST and USER are required, the user must be a
      plain string and not a secret, and the port defaults to 22. */
  function PlanSsh(v: ConnectionOptions): (r: Result<Connection, PlanError>)
    ensures v.host.None? ==> r == Err(OptionRequired(Host))
    ensures v.host.Some? && v.user.None? ==> r == Err(OptionRequired(User))
    ensures v.host.Some? && v.user.Some? && v.user.value.SecretRef? ==> r == Err(SshUserSecret)
    ensures r.Ok? <==> v.host.Some? && v.user.Some? && v.user.value.Str?
    ensures r.Ok? ==> r.value == SshConnection(v.host.value, if v.port.Some? then v.port.value else 22, v.user.value.value)
  {
    match Required(v.host, Host)
    case Err(e) => Err(e)
    case Ok(host) =>
      match Required(v.user, User)
      case Err(e) => Err(e)
      case Ok(user) =>
        match user
        case SecretRef(_) => Err(SshUserSecret)
        case Str(name) => Ok(SshConnection(host, if v.port.Some? then v.port.value else 22, name))
  }

  /** `try_into_connection`: the options checked against the type, then the
      connection of that type planned. */
  method TryIntoConnection(v: ConnectionOptions, t: ConnectionType) returns (r: Result<Connection, PlanError>)
    ensures !(v.seen <= PermittedSet(t)) ==> r == Err(UnsupportedOptions(t, v.seen - PermittedSet(t)))
    ensures v.seen <= PermittedSet(t) ==> match t
      case Aws => r == PlanAws(v)
      case AwsPrivatelink => r == PlanPrivatelink(v)
      case Csr => r == PlanCsr(v)
      case Postgres => r == PlanPostgres(v)
      case Ssh => r == PlanSsh(v)
      case Kafka =>
        && (KafkaSecurity(v).Err? ==> r == Err(KafkaSecurity(v).error))
        && (KafkaSecurity(v).Ok? && ChosenBrokers(v).Err? ==> r == Err(ChosenBrokers(v).error))
        && (r.Ok? <==> KafkaSecurity(v).Ok? && ChosenBrokers(v).Ok?)
        && (r.Ok? ==> r.value == KafkaConnection(ChosenBrokers(v).value, v.progressTopic,
                                                 KafkaSecurity(v).value.0, KafkaSecurity(v).value.1))
  {
    var valid := EnsureOnlyValidOptions(v.seen, t);
    if valid.Err? {
      return Err(valid.error);
    }
    match t
    case Aws => r := PlanAws(v);
    case AwsPrivatelink => r := PlanPrivatelink(v);
    case Csr => r := PlanCsr(v);
    case Postgres => r := PlanPostgres(v);
    case Ssh => r := PlanSsh(v);
    case Kafka =>
      var security := PlanKafkaSecurity(v);
      if security.Err? {
        return Err(security.error);
      }
      var brokers := GetBrokers(v);
      if brokers.Err? {
        return Err(brokers.error);
      }
      r := Ok(KafkaConnection(brokers.value, v.progressTopic, security.value.0, security.value.1));
  }
}
