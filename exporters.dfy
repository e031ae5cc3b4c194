/** The exporter set builder: turns the push target or the remote-write
    list into OTLP exporter definitions with stable component identifiers,
    applying the compression and retry defaults and the basic-auth header. */
module Exporters {
  import opened Wrappers
  import opened ComponentIds
  import opened Base64
  import opened ConfigErrors

  /** Settings this core passes through without interpreting them. */
  type Settings = map<string, string>

  datatype Protocol = Grpc | Http

  /** A password given literally or as the path of a file holding it. */
  datatype Secret = Literal(password: seq<Byte>) | PasswordFile(path: string)

  datatype BasicAuth = BasicAuth(username: seq<Byte>, password: Secret)

  datatype TlsFiles = TlsFiles(caFile: Option<string>, certFile: Option<string>, keyFile: Option<string>)

  /** One push_config block or one remote_write entry. */
  datatype Target = Target(
    endpoint: string,
    protocol: Protocol,
    compression: Option<string>,
    insecure: Option<bool>,
    insecureSkipVerify: Option<bool>,
    tls: Option<TlsFiles>,
    basicAuth: Option<BasicAuth>,
    headers: Settings,
    retry: Settings,
    sendingQueue: Settings)

  /** The settings of one generated `otlp`/`otlphttp` exporter.  Empty
      `headers`, `retry` or `sendingQueue` maps stand for absent keys. */
  datatype OtlpSettings = OtlpSettings(
    endpoint: string,
    compression: Option<string>,
    insecure: Option<bool>,
    insecureSkipVerify: Option<bool>,
    tls: Option<TlsFiles>,
    headers: Settings,
    retry: Settings,
    sendingQueue: Settings)

  /** The files a password_file may name, with their contents. */
  type FileSystem = map<string, seq<Byte>>

  const DefaultCompression := "gzip"
  const NoCompression := "none"
  const MaxElapsedTimeKey := "max_elapsed_time"
  const DefaultMaxElapsedTime := "60s"
  const AuthorizationKey := "authorization"
  const Colon: Byte := 58

  /** The secret resolver: a literal password as is, a password file read
      to completion; an unreadable file is a configuration error. */
  function ResolveSecret(secret: Secret, files: FileSystem): (r: Result<seq<Byte>, ConfigError>)
    ensures secret.Literal? ==> r == Ok(secret.password)
    ensures secret.PasswordFile? && secret.path in files ==> r == Ok(files[secret.path])
    ensures secret.PasswordFile? && secret.path !in files ==> r == Err(SecretUnreadable(secret.path))
  {
    match secret
    case Literal(p) => Ok(p)
    case PasswordFile(path) => if path in files then Ok(files[path]) else Err(SecretUnreadable(path))
  }

  /** The HTTP Basic credentials of section 2 of RFC 7617: `Basic ` followed
      by the base64 of `username:password`. */
  function AuthorizationValue(username: seq<Byte>, password: seq<Byte>): string {
    "Basic " + Encode(username + [Colon] + password)
  }

  /** The header value is the `Basic` scheme followed by a token that
      decodes back to exactly `username:password`. */
  lemma AuthorizationDecodes(username: seq<Byte>, password: seq<Byte>)
    ensures var v := AuthorizationValue(username, password);
      |v| >= 6 && v[..6] == "Basic " && Decode(v[6..]) == Some(username + [Colon] + password)
  {
    var v := AuthorizationValue(username, password);
    assert v[6..] == Encode(username + [Colon] + password);
    DecodeEncode(username + [Colon] + password);
  }

  /** Compression defaults to gzip; `none` drops the key altogether. */
  function CompressionOf(given: Option<string>): (r: Option<string>)
    ensures r.None? <==> given == Some(NoCompression)
    ensures given.None? ==> r == Some(DefaultCompression)
    ensures given.Some? && given.value != NoCompression ==> r == given
  {
    match given
    case None => Some(DefaultCompression)
    case Some(c) => if c == NoCompression then None else Some(c)
  }

  /** The retry block always carries max_elapsed_time, 60s unless the user
      gave one; every user field is kept. */
  function RetryWithDefault(user: Settings): (r: Settings)
    ensures r.Keys == user.Keys + {MaxElapsedTimeKey}
    ensures forall k :: k in user ==> r[k] == user[k]
    ensures MaxElapsedTimeKey !in user ==> r[MaxElapsedTimeKey] == DefaultMaxElapsedTime
  {
    map[MaxElapsedTimeKey := DefaultMaxElapsedTime] + user
  }

  /** The headers of an exporter: the user's, plus the authorization header
      when basic auth is configured. */
  function HeadersOf(t: Target, files: FileSystem): Result<Settings, ConfigError> {
    match t.basicAuth
    case None => Ok(t.headers)
    case Some(auth) =>
      match ResolveSecret(auth.password, files)
      case Err(e) => Err(e)
      case Ok(p) => Ok(t.headers[AuthorizationKey := AuthorizationValue(auth.username, p)])
  }

  /** Without basic auth the user's headers pass through; with it, an
      unreadable secret is the error, and otherwise the authorization header
      carries the resolved credentials and every other user header is kept. */
  lemma HeadersSpec(t: Target, files: FileSystem)
    ensures t.basicAuth.None? ==> HeadersOf(t, files) == Ok(t.headers)
    ensures t.basicAuth.Some? ==>
      var r := HeadersOf(t, files);
      match ResolveSecret(t.basicAuth.value.password, files)
      case Err(e) => r == Err(e)
      case Ok(p) => (r.Ok? && r.value.Keys == t.headers.Keys + {AuthorizationKey} &&
        r.value[AuthorizationKey] == AuthorizationValue(t.basicAuth.value.username, p) &&
        forall k :: k in t.headers && k != AuthorizationKey ==> r.value[k] == t.headers[k])
  {
  }

  /** A password read from a file gives the same headers as that password
      given literally. */
  lemma FileSecretAsLiteral(t: Target, files: FileSystem)
    requires t.basicAuth.Some? && t.basicAuth.value.password.PasswordFile?
    requires t.basicAuth.value.password.path in files
    ensures var literal := BasicAuth(t.basicAuth.value.username, Literal(files[t.basicAuth.value.password.path]));
      HeadersOf(t, files) == HeadersOf(t.(basicAuth := Some(literal)), files)
  {
  }

  /** One exporter: the endpoint and TLS fields as given, the defaults
      applied, and the authorization header added. */
  function BuildExporter(t: Target, files: FileSystem): Result<OtlpSettings, ConfigError> {
    match HeadersOf(t, files)
    case Err(e) => Err(e)
    case Ok(h) =>
      Ok(OtlpSettings(t.endpoint, CompressionOf(t.compression), t.insecure, t.insecureSkipVerify,
        t.tls, h, RetryWithDefault(t.retry), t.sendingQueue))
  }

  /** An exporter fails only when its headers do; otherwise its settings are
      the target's, with compression, retry and header rules applied. */
  lemma BuildExporterSpec(t: Target, files: FileSystem)
    ensures BuildExporter(t, files).Err? <==> HeadersOf(t, files).Err?
    ensures BuildExporter(t, files).Err? ==> BuildExporter(t, files).error == HeadersOf(t, files).error
    ensures BuildExporter(t, files).Ok? ==> BuildExporter(t, files).value == OtlpSettings(t.endpoint,
      CompressionOf(t.compression), t.insecure, t.insecureSkipVerify, t.tls, HeadersOf(t, files).value,
      RetryWithDefault(t.retry), t.sendingQueue)
  {
  }

  /** The target names a password file that is not there. */
  predicate Unreadable(t: Target, files: FileSystem) {
    t.basicAuth.Some? && t.basicAuth.value.password.PasswordFile? && t.basicAuth.value.password.path !in files
  }

  /** Building an exporter fails exactly when its password file is missing,
      and the error names that file. */
  lemma BuildExporterFails(t: Target, files: FileSystem)
    ensures BuildExporter(t, files).Err? <==> Unreadable(t, files)
    ensures BuildExporter(t, files).Err? ==>
      BuildExporter(t, files).error == SecretUnreadable(t.basicAuth.value.password.path)
  {
  }

  /** The exporter type for a transport: `otlp` for gRPC, `otlphttp` for HTTP. */
  function ExporterType(p: Protocol): (kind: string)
    ensures WellFormedKind(kind)
  {
    match p
    case Grpc => "otlp"
    case Http => "otlphttp"
  }

  /** The single push target: one exporter with an unindexed identifier. */
  function BuildPush(t: Target, files: FileSystem): (r: Result<(ComponentId, OtlpSettings), ConfigError>)
    ensures r.Ok? <==> BuildExporter(t, files).Ok?
    ensures r.Ok? ==> r.value.0 == Unindexed(ExporterType(t.protocol)) && Ok(r.value.1) == BuildExporter(t, files)
    ensures r.Err? ==> r.error == BuildExporter(t, files).error
  {
    match BuildExporter(t, files)
    case Err(e) => Err(e)
    case Ok(s) => Ok((Unindexed(ExporterType(t.protocol)), s))
  }

  /** The remote-write list: exporter `i` is `otlp/i` or `otlphttp/i`, with
      `i` the position in the whole list, whatever the transport.  Entries
      are built in list order, so the first one that fails decides the error. */
  function BuildRemoteWrite(targets: seq<Target>, files: FileSystem): Result<seq<(ComponentId, OtlpSettings)>, ConfigError> {
    BuildFrom(targets, 0, t => BuildExporter(t, files))
  }

  /** The exporters of the entries from position `start` on, each built by
      `build`. */
  function BuildFrom<S>(targets: seq<Target>, start: nat, build: Target -> Result<S, ConfigError>)
    : Result<seq<(ComponentId, S)>, ConfigError>
    requires start <= |targets|
    decreases |targets| - start
  {
    if start == |targets| then Ok([])
    else
      var head := build(targets[start]);
      var rest := BuildFrom(targets, start + 1, build);
      if head.Err? then Err(head.error)
      else if rest.Err? then Err(rest.error)
      else Ok([(Indexed(ExporterType(targets[start].protocol), start), head.value)] + rest.value)
  }

  lemma {:induction false} BuildFromOk<S>(targets: seq<Target>, start: nat, build: Target -> Result<S, ConfigError>)
    requires start <= |targets|
    ensures BuildFrom(targets, start, build).Ok? <==> forall i :: start <= i < |targets| ==> build(targets[i]).Ok?
    decreases |targets| - start
  {
    if start < |targets| {
      BuildFromOk(targets, start + 1, build);
      assert (forall i :: start <= i < |targets| ==> build(targets[i]).Ok?)
        <==> build(targets[start]).Ok? && forall i :: start + 1 <= i < |targets| ==> build(targets[i]).Ok?;
    }
  }

  lemma {:induction false} BuildFromLength<S>(targets: seq<Target>, start: nat, build: Target -> Result<S, ConfigError>)
    requires start <= |targets|
    requires BuildFrom(targets, start, build).Ok?
    ensures |BuildFrom(targets, start, build).value| == |targets| - start
    decreases |targets| - start
  {
    if start < |targets| {
      BuildFromLength(targets, start + 1, build);
    }
  }

  /** A list that builds is its first entry's exporter followed by the rest. */
  lemma BuildFromStep<S>(targets: seq<Target>, start: nat, build: Target -> Result<S, ConfigError>)
    requires start < |targets|
    requires BuildFrom(targets, start, build).Ok?
    ensures build(targets[start]).Ok? && BuildFrom(targets, start + 1, build).Ok?
    ensures BuildFrom(targets, start, build).value
         == [(Indexed(ExporterType(targets[start].protocol), start), build(targets[start]).value)]
          + BuildFrom(targets, start + 1, build).value
  {
  }

  /** Exporter `k` of the list from `start` on comes from entry `start + k`. */
  lemma {:induction false} BuildFromEntry<S>(targets: seq<Target>, start: nat, build: Target -> Result<S, ConfigError>,
                                             k: nat)
    requires start + k < |targets|
    requires BuildFrom(targets, start, build).Ok?
    ensures |BuildFrom(targets, start, build).value| == |targets| - start
    ensures var entry := BuildFrom(targets, start, build).value[k];
      entry.0 == Indexed(ExporterType(targets[start + k].protocol), start + k) &&
      Ok(entry.1) == build(targets[start + k])
    decreases k
  {
    BuildFromLength(targets, start, build);
    BuildFromStep(targets, start, build);
    var value := BuildFrom(targets, start, build).value;
    var rest := BuildFrom(targets, start + 1, build).value;
    if k > 0 {
      BuildFromEntry(targets, start + 1, build, k - 1);
      assert value[k] == rest[k - 1];
      assert start + 1 + (k - 1) == start + k;
    } else {
      assert value[0].1 == build(targets[start]).value;
    }
  }

  lemma {:induction false} BuildFromFirstError<S>(targets: seq<Target>, start: nat, build: Target -> Result<S, ConfigError>)
    requires start <= |targets|
    requires BuildFrom(targets, start, build).Err?
    ensures exists i :: (start <= i < |targets| && build(targets[i]) == Err(BuildFrom(targets, start, build).error) &&
      forall j :: start <= j < i ==> build(targets[j]).Ok?)
    decreases |targets| - start
  {
    if build(targets[start]).Ok? {
      BuildFromFirstError(targets, start + 1, build);
    }
  }

  /** The remote-write list builds exactly when every entry builds. */
  lemma RemoteWriteOk(targets: seq<Target>, files: FileSystem)
    ensures BuildRemoteWrite(targets, files).Ok?
        <==> forall i :: 0 <= i < |targets| ==> BuildExporter(targets[i], files).Ok?
  {
    BuildFromOk(targets, 0, t => BuildExporter(t, files));
  }

  /** One exporter per entry. */
  lemma RemoteWriteLength(targets: seq<Target>, files: FileSystem)
    requires BuildRemoteWrite(targets, files).Ok?
    ensures |BuildRemoteWrite(targets, files).value| == |targets|
  {
    BuildFromLength(targets, 0, t => BuildExporter(t, files));
  }

  /** Entry `i` yields the identifier indexed by `i` and that entry's settings. */
  lemma RemoteWriteEntry(targets: seq<Target>, files: FileSystem, i: nat)
    requires i < |targets|
    requires BuildRemoteWrite(targets, files).Ok?
    ensures |BuildRemoteWrite(targets, files).value| == |targets|
    ensures var entry := BuildRemoteWrite(targets, files).value[i];
      entry.0 == Indexed(ExporterType(targets[i].protocol), i) && Ok(entry.1) == BuildExporter(targets[i], files)
  {
    RemoteWriteLength(targets, files);
    BuildFromEntry(targets, 0, t => BuildExporter(t, files), i);
  }

  /** A failing list reports the error of its first failing entry. */
  lemma RemoteWriteFirstError(targets: seq<Target>, files: FileSystem)
    requires BuildRemoteWrite(targets, files).Err?
    ensures exists i :: (0 <= i < |targets| &&
      BuildExporter(targets[i], files) == Err(BuildRemoteWrite(targets, files).error) &&
      forall j :: 0 <= j < i ==> BuildExporter(targets[j], files).Ok?)
  {
    BuildFromFirstError(targets, 0, t => BuildExporter(t, files));
  }

  /** Remote-write exporters get pairwise distinct rendered identifiers. */
  lemma RemoteWriteIdsDistinct(targets: seq<Target>, files: FileSystem)
    requires BuildRemoteWrite(targets, files).Ok?
    ensures var built := BuildRemoteWrite(targets, files).value;
      forall i, j :: 0 <= i < j < |built| ==> Render(built[i].0) != Render(built[j].0)
  {
    var built := BuildRemoteWrite(targets, files).value;
    RemoteWriteLength(targets, files);
    forall i, j | 0 <= i < j < |built| ensures Render(built[i].0) != Render(built[j].0) {
      RemoteWriteEntry(targets, files, i);
      RemoteWriteEntry(targets, files, j);
      IndexedDistinct(ExporterType(targets[i].protocol), i, ExporterType(targets[j].protocol), j);
    }
  }

  /** The header for credentials whose `username:password` encodes to `token`. */
  lemma BasicHeader(username: seq<Byte>, password: seq<Byte>, token: string)
    requires Encode(username + [Colon] + password) == token
    ensures AuthorizationValue(username, password) == "Basic " + token
  {
  }

  /** The Latin-1 bytes of `user:pass` are those of the user, a colon and
      those of the password. */
  lemma Credentials(user: string, pass: string)
    requires forall i :: 0 <= i < |user| ==> user[i] as int < 256
    requires forall i :: 0 <= i < |pass| ==> pass[i] as int < 256
    ensures Latin1(user + ":" + pass) == Latin1(user) + [Colon] + Latin1(pass)
  {
    Latin1Concat(user, ":");
    Latin1Concat(user + ":", pass);
  }

  /** The literal credentials of the configuration tests. */
  lemma LiteralPasswordHeader()
    ensures AuthorizationValue(Latin1("test"), Latin1("blerg")) == "Basic " + "dGVzdDpibGVyZw=="
  {
    Credentials("test", "blerg");
    assert "test" + ":" + "blerg" == "test:blerg";
    EncodeLiteralExample();
    BasicHeader(Latin1("test"), Latin1("blerg"), "dGVzdDpibGVyZw==");
  }

  /** The credentials whose password is read from a file. */
  lemma FilePasswordHeader()
    ensures AuthorizationValue(Latin1("test"), Latin1("password_in_file")) == "Basic " + "dGVzdDpwYXNzd29yZF9pbl9maWxl"
  {
    Credentials("test", "password_in_file");
    assert "test" + ":" + "password_in_file" == "test:password_in_file";
    EncodeFileExample();
    BasicHeader(Latin1("test"), Latin1("password_in_file"), "dGVzdDpwYXNzd29yZF9pbl9maWxl");
  }
}
