/** `loadConfig` of admin-panel/config.js: defaults taken from the
    environment or from literals, then the parsed config file spread over
    them, so that the file's keys win. The environment is a map, the file is
    supplied as what reading and parsing it gave. */
module Config {
  import opened Frames
  import Decimal

  /** A JavaScript value as it can stand in the config object: what
      `JSON.parse` yields, with numbers as integers, plus the `NaN` that
      `parseInt` gives for a text with no digits. */
  datatype Value =
    | Num(n: int)
    | NaN
    | Str(s: string)
    | Bool(b: bool)
    | Null
    | Arr(items: seq<Value>)
    | Obj(fields: map<string, Value>)

  /** The config file as `loadConfig` finds it: missing, present but not
      readable or not valid JSON (the `catch` branch), or parsed. */
  datatype ConfigFile = Absent | Unreadable | Contents(json: Value)

  const DefaultPort: nat := 3000
  const DefaultPortText := "3000"
  const DefaultSecret := "openclaw-admin-default-secret"
  const DefaultUser := "admin"
  const DefaultOpenclawPort: nat := 18789
  const DefaultOpenclawPortText := "18789"
  const DefaultDomain := "mayra-content.comuhack.com"

  /** `process.env[name] || literal`: a variable that is unset or empty
      gives the literal. */
  function EnvOr(env: map<string, string>, name: string, literal: string): (s: string)
    ensures name in env && env[name] != "" ==> s == env[name]
    ensures !(name in env && env[name] != "") ==> s == literal
  {
    if name in env && env[name] != "" then env[name] else literal
  }

  /** `parseInt(s, 10)` as a value. */
  function IntValue(s: string): Value
  {
    match Decimal.ParseInt(s)
    case Some(n) => Num(n)
    case None => NaN
  }

  /** `parseInt(process.env[name] || text, 10)` where `text` is the decimal
      text of `literal`: the variable's number when it is set and not
      empty, the literal otherwise (EnvIntIsParseInt). */
  function EnvInt(env: map<string, string>, name: string, literal: nat): Value
  {
    if name in env && env[name] != "" then IntValue(env[name]) else Num(literal)
  }

  lemma EnvIntIsParseInt(env: map<string, string>, name: string, literal: nat)
    ensures EnvInt(env, name, literal) == IntValue(EnvOr(env, name, Decimal.Show(literal)))
  {
    Decimal.ParseIntShow(literal);
  }

  /** The defaults record. `defaultHash` is what `bcrypt.hashSync` made of the
      built-in password; hashing is foreign and salted, so it is supplied. */
  function Defaults(env: map<string, string>, defaultHash: string): map<string, Value>
  {
    map[
      "port" := EnvInt(env, "ADMIN_PORT", DefaultPort),
      "sessionSecret" := Str(EnvOr(env, "SESSION_SECRET", DefaultSecret)),
      "credentials" := Obj(map["username" := Str(DefaultUser), "passwordHash" := Str(defaultHash)]),
      "openclawPort" := EnvInt(env, "OPENCLAW_PORT", DefaultOpenclawPort),
      "domain" := Str(EnvOr(env, "ADMIN_DOMAIN", DefaultDomain))
    ]
  }

  /** What the spread `{ ...v }` copies out of a parsed value: an object's
      own keys, the indices of an array or a string, and nothing from any
      other value. */
  function OwnProperties(v: Value): map<string, Value>
  {
    match v
    case Obj(m) => m
    case Arr(xs) => Indexed(xs, 0)
    case Str(s) => Indexed(seq(|s|, i requires 0 <= i < |s| => Str([s[i]])), 0)
    case _ => map[]
  }

  /** The elements of `xs` from index `from` on, keyed by their index
      written in decimal. */
  function Indexed(xs: seq<Value>, from: nat): map<string, Value>
    requires from <= |xs|
    decreases |xs| - from
  {
    if from == |xs| then map[] else Indexed(xs, from + 1)[Decimal.Show(from) := xs[from]]
  }

  /** The properties the file contributes to the merge. */
  function FileProperties(file: ConfigFile): map<string, Value>
  {
    if file.Contents? then OwnProperties(file.json) else map[]
  }

  /** `loadConfig`. Keys of the file win over the defaults; the merge is
      shallow, so a file value replaces the default value of its key
      whole. */
  function LoadConfig(env: map<string, string>, defaultHash: string, file: ConfigFile): (r: map<string, Value>)
    ensures r.Keys == Defaults(env, defaultHash).Keys + FileProperties(file).Keys
    ensures forall k :: k in FileProperties(file) ==> r[k] == FileProperties(file)[k]
    ensures forall k :: k in Defaults(env, defaultHash) && k !in FileProperties(file) ==>
              r[k] == Defaults(env, defaultHash)[k]
    ensures !file.Contents? ==> r == Defaults(env, defaultHash)
  {
    Defaults(env, defaultHash) + FileProperties(file)
  }

  /** With no config file, or one that cannot be read or parsed, the
      defaults stand. */
  lemma NoUsableFileGivesDefaults(env: map<string, string>, defaultHash: string)
    ensures LoadConfig(env, defaultHash, Absent) == Defaults(env, defaultHash)
    ensures LoadConfig(env, defaultHash, Unreadable) == Defaults(env, defaultHash)
  {
  }

  /** A file that sets `credentials` replaces the whole default credentials
      record: a file holding only a user name drops the default password
      hash rather than keeping it beside the new name. */
  lemma CredentialsReplacedWhole(env: map<string, string>, defaultHash: string, user: string)
    ensures var file := Contents(Obj(map["credentials" := Obj(map["username" := Str(user)])]));
      var r := LoadConfig(env, defaultHash, file);
      && r["credentials"] == Obj(map["username" := Str(user)])
      && "passwordHash" !in r["credentials"].fields
      && r["port"] == Defaults(env, defaultHash)["port"]
  {
    var file := Contents(Obj(map["credentials" := Obj(map["username" := Str(user)])]));
    assert FileProperties(file) == map["credentials" := Obj(map["username" := Str(user)])];
    assert "port" !in FileProperties(file);
  }

  /** A parsed file that is not an object, an array or a string (a number,
      a boolean, null) contributes nothing. */
  lemma ScalarFileGivesDefaults(env: map<string, string>, defaultHash: string, v: Value)
    requires v.Num? || v.Bool? || v.Null? || v.NaN?
    ensures LoadConfig(env, defaultHash, Contents(v)) == Defaults(env, defaultHash)
  {
    assert FileProperties(Contents(v)) == map[];
  }

  lemma ShowLiterals()
    ensures Decimal.Show(DefaultPort) == DefaultPortText
    ensures Decimal.Show(DefaultOpenclawPort) == DefaultOpenclawPortText
  {
    assert Decimal.Show(3) == "3";
    assert Decimal.Show(30) == "30";
    assert Decimal.Show(300) == "300";
    assert Decimal.Show(1) == "1";
    assert Decimal.Show(18) == "18";
    assert Decimal.Show(187) == "187";
    assert Decimal.Show(1878) == "1878";
  }

  /** An unset or empty environment variable gives the literal default:
      port 3000, backend port 18789, the built-in session secret and
      domain. */
  lemma UnsetEnvironmentDefaults(env: map<string, string>, defaultHash: string)
    ensures "ADMIN_PORT" !in env || env["ADMIN_PORT"] == "" ==> Defaults(env, defaultHash)["port"] == Num(3000)
    ensures "OPENCLAW_PORT" !in env || env["OPENCLAW_PORT"] == "" ==>
              Defaults(env, defaultHash)["openclawPort"] == Num(18789)
    ensures "SESSION_SECRET" !in env || env["SESSION_SECRET"] == "" ==>
              Defaults(env, defaultHash)["sessionSecret"] == Str(DefaultSecret)
    ensures "ADMIN_DOMAIN" !in env || env["ADMIN_DOMAIN"] == "" ==>
              Defaults(env, defaultHash)["domain"] == Str(DefaultDomain)
  {
  }

  /** The literal defaults are the texts `'3000'` and `'18789'`, which
      `parseInt` reads as 3000 and 18789. */
  lemma LiteralPortTexts()
    ensures IntValue(DefaultPortText) == Num(DefaultPort)
    ensures IntValue(DefaultOpenclawPortText) == Num(DefaultOpenclawPort)
  {
    ShowLiterals();
    Decimal.ParseIntShow(DefaultPort);
    Decimal.ParseIntShow(DefaultOpenclawPort);
  }

  /** A set, non-empty `ADMIN_PORT` is read by `parseInt`, whatever the
      other variables are. */
  lemma AdminPortFromEnvironment(env: map<string, string>, defaultHash: string)
    ensures "ADMIN_PORT" in env && env["ADMIN_PORT"] != "" ==>
              Defaults(env, defaultHash)["port"] == IntValue(env["ADMIN_PORT"])
  {
  }

  /** A set, non-empty `OPENCLAW_PORT` is read by `parseInt`, whatever the
      other variables are. */
  lemma OpenclawPortFromEnvironment(env: map<string, string>, defaultHash: string)
    ensures "OPENCLAW_PORT" in env && env["OPENCLAW_PORT"] != "" ==>
              Defaults(env, defaultHash)["openclawPort"] == IntValue(env["OPENCLAW_PORT"])
  {
  }

  /** A set, non-empty `SESSION_SECRET` is the secret, whatever the other
      variables are. */
  lemma SecretFromEnvironment(env: map<string, string>, defaultHash: string)
    ensures "SESSION_SECRET" in env && env["SESSION_SECRET"] != "" ==>
              Defaults(env, defaultHash)["sessionSecret"] == Str(env["SESSION_SECRET"])
  {
  }

  /** A set, non-empty `ADMIN_DOMAIN` is the domain, whatever the other
      variables are. */
  lemma DomainFromEnvironment(env: map<string, string>, defaultHash: string)
    ensures "ADMIN_DOMAIN" in env && env["ADMIN_DOMAIN"] != "" ==>
              Defaults(env, defaultHash)["domain"] == Str(env["ADMIN_DOMAIN"])
  {
  }

  /** A port variable spelling a number in decimal gives that number. */
  lemma SpelledPortsUsed(env: map<string, string>, defaultHash: string, port: nat)
    ensures "ADMIN_PORT" in env && env["ADMIN_PORT"] == Decimal.Show(port) ==>
              Defaults(env, defaultHash)["port"] == Num(port)
    ensures "OPENCLAW_PORT" in env && env["OPENCLAW_PORT"] == Decimal.Show(port) ==>
              Defaults(env, defaultHash)["openclawPort"] == Num(port)
  {
    Decimal.ParseIntShow(port);
    AdminPortFromEnvironment(env, defaultHash);
    OpenclawPortFromEnvironment(env, defaultHash);
  }
}
