/** The settings store of the Conjur API client: a mutable mapping from setting
    names to values, read through a layered lookup (in-memory entry, then the
    `CONJUR_<NAME>` environment variable, cached on first use, then the
    caller's default), and three declared settings with a derived TLS
    `verify` argument. The process environment is passed in as an immutable
    map; the store never writes it. */
module ConjurConfig {
  import opened Wrappers

  /** A stored value: what keyword arguments, decoded YAML documents and the
      environment can put into the store. `Null` is Python's `None`. */
  datatype Value =
    | Null
    | Bool(b: bool)
    | Int(i: int)
    | Str(s: string)
    | List(items: seq<Value>)
    | Mapping(fields: map<string, Value>)

  /** The exceptions the store lets escape. `RequiredSetting` is the plain
      `Exception` raised by `get`; `DecodeFailed` is whatever the YAML decoder
      raised during `load`, propagated unchanged. */
  datatype ConfigError =
    | RequiredSetting(key: string)
    | DecodeFailed(reason: string)

  type Entries = map<string, Value>
  type Environment = map<string, string>

  /** The message of the exception: for a missing setting it starts with
      "config setting ", names the key, and ends with " is required". */
  function Message(e: ConfigError): (r: string)
    ensures e.RequiredSetting? ==>
      && |r| == |"config setting "| + |e.key| + |" is required"|
      && r[..|"config setting "|] == "config setting "
      && r[|"config setting "|..|"config setting "| + |e.key|] == e.key
      && r[|"config setting "| + |e.key|..] == " is required"
    ensures e.DecodeFailed? ==> r == e.reason
  {
    match e
    case RequiredSetting(key) => "config setting " + key + " is required"
    case DecodeFailed(reason) => reason
  }

  // ---------------------------------------------------------------------------
  // Environment variable names

  const Prefix: string := "CONJUR_"

  predicate IsLowerAscii(c: char) { 'a' <= c <= 'z' }

  /** ASCII upper-casing of one character. */
  function UpperChar(c: char): (u: char)
    ensures !IsLowerAscii(u)
    ensures IsLowerAscii(c) ==> u as int == c as int - 32
    ensures !IsLowerAscii(c) ==> u == c
  {
    if IsLowerAscii(c) then (c as int - 32) as char else c
  }

  /** `key.upper()`, restricted to ASCII letters. */
  function Upper(s: string): (r: string)
    ensures |r| == |s|
    ensures forall i :: 0 <= i < |s| ==> r[i] == UpperChar(s[i])
  {
    if s == [] then [] else [UpperChar(s[0])] + Upper(s[1..])
  }

  /** The environment variable consulted for setting `key`: the prefix
      `CONJUR_`, then the key upper-cased character by character. */
  function EnvKey(key: string): (r: string)
    ensures |r| == |Prefix| + |key|
    ensures r[..|Prefix|] == "CONJUR_"
    ensures forall i :: 0 <= i < |key| ==> r[|Prefix| + i] == UpperChar(key[i])
  {
    Prefix + Upper(key)
  }

  /** Two setting names share an environment variable exactly when they agree
      after upper-casing: `url` and `URL` both read `CONJUR_URL`. */
  lemma EnvKeyShared(k1: string, k2: string)
    ensures EnvKey(k1) == EnvKey(k2) <==> Upper(k1) == Upper(k2)
  {
    if EnvKey(k1) == EnvKey(k2) {
      assert Upper(k1) == EnvKey(k1)[|Prefix|..];
      assert Upper(k2) == EnvKey(k2)[|Prefix|..];
    }
  }

  /** Upper-casing works character by character, so it distributes over
      concatenation. */
  lemma UpperAppend(a: string, b: string)
    ensures Upper(a + b) == Upper(a) + Upper(b)
  {
  }

  /** The environment variables of the three declared settings. */
  lemma EnvKeyCertFile()
    ensures EnvKey("cert_file") == "CONJUR_CERT_FILE"
  {
    UpperCertFile();
    assert Prefix + "CERT_FILE" == "CONJUR_CERT_FILE";
  }

  lemma UpperCertFile()
    ensures Upper("cert_file") == "CERT_FILE"
  {
    assert Upper("cert") == "CERT" by {
      assert "cert"[1..] == "ert";
      assert "ert"[1..] == "rt";
      assert "rt"[1..] == "t";
      assert "t"[1..] == "";
    }
    assert Upper("_file") == "_FILE" by {
      assert "_file"[1..] == "file";
      assert "file"[1..] == "ile";
      assert "ile"[1..] == "le";
      assert "le"[1..] == "e";
      assert "e"[1..] == "";
    }
    assert "cert_file" == "cert" + "_file";
    UpperAppend("cert", "_file");
    assert "CERT" + "_FILE" == "CERT_FILE";
  }

  lemma EnvKeyAccount()
    ensures EnvKey("account") == "CONJUR_ACCOUNT"
  {
    assert Upper("account") == "ACCOUNT" by {
      assert "account"[1..] == "ccount";
      assert "ccount"[1..] == "count";
      assert "count"[1..] == "ount";
      assert "ount"[1..] == "unt";
      assert "unt"[1..] == "nt";
      assert "nt"[1..] == "t";
      assert "t"[1..] == "";
    }
    assert Prefix + "ACCOUNT" == "CONJUR_ACCOUNT";
  }

  lemma EnvKeyUrl()
    ensures EnvKey("url") == "CONJUR_URL"
  {
    assert Upper("url") == "URL" by {
      assert "url"[1..] == "rl";
      assert "rl"[1..] == "l";
      assert "l"[1..] == "";
    }
    assert Prefix + "URL" == "CONJUR_URL";
  }

  // ---------------------------------------------------------------------------
  // The layered lookup, as functions of the state before the call

  /** What `get(key, default)` returns (or raises) on entries `m` and
      environment `env`. */
  function Resolve(m: Entries, env: Environment, key: string, default: Option<Value>): (r: Result<Value, ConfigError>)
    ensures r.Failure? <==> key !in m && EnvKey(key) !in env && default.None?
    ensures r.Failure? ==> r.error == RequiredSetting(key)
    ensures default.Some? && key !in m && EnvKey(key) !in env ==> r == Success(default.value)
  {
    if key in m then Success(m[key])
    else if EnvKey(key) in env then Success(Str(env[EnvKey(key)]))
    else if default.None? then Failure(RequiredSetting(key))
    else Success(default.value)
  }

  /** The entries after `get(key, _)`: an environment hit is cached under
      `key`; every other outcome leaves the entries as they were. */
  function AfterGet(m: Entries, env: Environment, key: string): (m': Entries)
    ensures forall j :: j != key ==> (j in m' <==> j in m)
    ensures forall j :: j != key && j in m ==> m'[j] == m[j]
    ensures key in m' <==> key in m || EnvKey(key) in env
  {
    if key !in m && EnvKey(key) in env then m[key := Str(env[EnvKey(key)])] else m
  }

  /** An in-memory entry wins over the environment and the default, whatever
      they are, and a read of it changes nothing: this is what a `set`
      followed by a `get` sees. */
  lemma SetThenGet(m: Entries, env: Environment, key: string, v: Value, default: Option<Value>)
    ensures Resolve(m[key := v], env, key, default) == Success(v)
    ensures AfterGet(m[key := v], env, key) == m[key := v]
  {
  }

  /** A setting absent from the entries but present in the environment reads
      as the environment string and is cached under its own name only. */
  lemma EnvironmentHit(m: Entries, env: Environment, key: string, default: Option<Value>)
    requires key !in m && EnvKey(key) in env
    ensures Resolve(m, env, key, default) == Success(Str(env[EnvKey(key)]))
    ensures AfterGet(m, env, key) == m[key := Str(env[EnvKey(key)])]
  {
  }

  /** Once a `get` has found a value in the entries or the environment, every
      later `get` of the same key returns that value again, whatever the
      environment has become and whatever default is passed, and no longer
      changes the entries. */
  lemma GetIsMemoised(m: Entries, env: Environment, key: string, default: Option<Value>,
                      env2: Environment, default2: Option<Value>)
    requires key in m || EnvKey(key) in env
    ensures Resolve(AfterGet(m, env, key), env2, key, default2) == Resolve(m, env, key, default)
    ensures AfterGet(AfterGet(m, env, key), env2, key) == AfterGet(m, env, key)
  {
  }

  /** A default is returned as given and is not cached: a later `get` still
      consults the environment, so it can see a variable set in between. */
  lemma DefaultNotCached(m: Entries, env: Environment, key: string, d: Value,
                         env2: Environment, default2: Option<Value>)
    requires key !in m && EnvKey(key) !in env
    ensures Resolve(m, env, key, Some(d)) == Success(d)
    ensures AfterGet(m, env, key) == m
    ensures EnvKey(key) in env2 ==>
      Resolve(AfterGet(m, env, key), env2, key, default2) == Success(Str(env2[EnvKey(key)]))
  {
  }

  /** A required setting found nowhere raises an error that names it, and the
      entries are left unchanged. */
  lemma RequiredMissing(m: Entries, env: Environment, key: string)
    requires key !in m && EnvKey(key) !in env
    ensures Resolve(m, env, key, None) == Failure(RequiredSetting(key))
    ensures Message(Resolve(m, env, key, None).error) == "config setting " + key + " is required"
    ensures AfterGet(m, env, key) == m
  {
  }

  // ---------------------------------------------------------------------------
  // Bulk merge

  /** The entries after merging `sources` into `m` one after the other, each
      source overriding the keys it holds. */
  function MergeAll(m: Entries, sources: seq<Entries>): (r: Entries)
    ensures m.Keys <= r.Keys
    ensures forall i :: 0 <= i < |sources| ==> sources[i].Keys <= r.Keys
    ensures sources != [] ==>
      forall k :: k in sources[|sources| - 1] ==> r[k] == sources[|sources| - 1][k]
    decreases |sources|
  {
    if sources == [] then m
    else MergeAll(m, sources[..|sources| - 1]) + sources[|sources| - 1]
  }

  /** The index of the last source that holds `key`, if any. */
  function LastSource(sources: seq<Entries>, key: string): (r: Option<nat>)
    ensures r.None? <==> forall i :: 0 <= i < |sources| ==> key !in sources[i]
    ensures r.Some? ==> r.value < |sources| && key in sources[r.value]
    ensures r.Some? ==> forall j :: r.value < j < |sources| ==> key !in sources[j]
    decreases |sources|
  {
    if sources == [] then None
    else if key in sources[|sources| - 1] then Some(|sources| - 1)
    else LastSource(sources[..|sources| - 1], key)
  }

  /** What a merge holds for each key: the value of the last source holding
      it, or else the old entry; no key appears that was in neither. */
  lemma {:induction false} MergeAllAt(m: Entries, sources: seq<Entries>, key: string)
    ensures key in MergeAll(m, sources) <==> key in m || LastSource(sources, key).Some?
    ensures LastSource(sources, key).Some? ==>
      MergeAll(m, sources)[key] == sources[LastSource(sources, key).value][key]
    ensures LastSource(sources, key).None? && key in m ==> MergeAll(m, sources)[key] == m[key]
    decreases |sources|
  {
    if sources != [] {
      var init := sources[..|sources| - 1];
      MergeAllAt(m, init, key);
      if key !in sources[|sources| - 1] {
        assert LastSource(sources, key) == LastSource(init, key);
        if LastSource(init, key).Some? {
          assert sources[LastSource(init, key).value] == init[LastSource(init, key).value];
        }
      }
    }
  }

  /** Two merges in a row are one merge of the concatenated sources. */
  lemma {:induction false} MergeAllAppend(m: Entries, a: seq<Entries>, b: seq<Entries>)
    ensures MergeAll(MergeAll(m, a), b) == MergeAll(m, a + b)
    decreases |b|
  {
    if b != [] {
      var b' := b[..|b| - 1];
      MergeAllAppend(m, a, b');
      assert (a + b)[..|a + b| - 1] == a + b';
      assert (a + b)[|a + b| - 1] == b[|b| - 1];
    } else {
      assert a + b == a;
    }
  }

  /** The later of two sources that share a key wins: `update({"a": 1}, {"a": 2})`
      leaves `a` at 2, and other keys untouched. */
  lemma LaterSourceWins(m: Entries, v1: Value, v2: Value)
    ensures MergeAll(m, [map["a" := v1], map["a" := v2], map[]]) == m["a" := v2]
  {
    var s: seq<Entries> := [map["a" := v1], map["a" := v2], map[]];
    assert s[..2][..1] == [map["a" := v1]];
    assert s[..2] == [map["a" := v1], map["a" := v2]];
    assert MergeAll(m, s[..2][..1]) == m + map["a" := v1] by {
      assert [map["a" := v1]][..0] == [];
    }
  }

  /** A store creation or an `update` with keyword arguments only, starting
      from empty entries, yields exactly those arguments. */
  lemma MergeIntoEmpty(kwargs: Entries)
    ensures MergeAll(map[], [kwargs, map[]]) == kwargs
  {
    var s: seq<Entries> := [kwargs, map[]];
    assert s[..1] == [kwargs];
    assert s[..1][..0] == [];
    assert MergeAll(map[], s[..1]) == map[] + kwargs;
    assert map[] + kwargs == kwargs;
    assert kwargs + map[] == kwargs;
  }

  // ---------------------------------------------------------------------------
  // Declared settings

  /** A setting declared with `_setting(name, default, doc)`: reading it is
      `get(name, default)`, writing it is `set(name, value)`. The doc string
      has no behaviour and is not kept. */
  datatype Setting = Setting(name: string, default: Option<Value>)

  /** Path to the certificate used to verify TLS requests; defaults to None. */
  const CertFileSetting: Setting := Setting("cert_file", Some(Null))
  /** The organizational account; defaults to "conjur". */
  const AccountSetting: Setting := Setting("account", Some(Str("conjur")))
  /** The appliance URL; defaults to None, so reading it never raises. */
  const UrlSetting: Setting := Setting("url", Some(Null))

  /** What reading setting `s` yields on entries `m` and environment `env`. */
  function ReadSetting(m: Entries, env: Environment, s: Setting): (r: Result<Value, ConfigError>)
    ensures s.default.Some? ==> r.Success?
    ensures s.name in m ==> r == Success(m[s.name])
    ensures s.name !in m && EnvKey(s.name) in env ==> r == Success(Str(env[EnvKey(s.name)]))
  {
    Resolve(m, env, s.name, s.default)
  }

  /** None of the three declared settings can raise: each has a default. */
  lemma DeclaredSettingsNeverRaise(m: Entries, env: Environment)
    ensures ReadSetting(m, env, CertFileSetting).Success?
    ensures ReadSetting(m, env, AccountSetting).Success?
    ensures ReadSetting(m, env, UrlSetting).Success?
  {
  }

  /** Without its own entry and its own environment variable, `cert_file`
      reads as None, whatever the other settings hold. */
  lemma CertFileDefault(m: Entries, env: Environment)
    ensures "cert_file" !in m && "CONJUR_CERT_FILE" !in env ==>
      ReadSetting(m, env, CertFileSetting) == Success(Null)
  {
    EnvKeyCertFile();
  }

  /** Without its own entry and its own environment variable, `account`
      reads as "conjur", whatever the other settings hold. */
  lemma AccountDefault(m: Entries, env: Environment)
    ensures "account" !in m && "CONJUR_ACCOUNT" !in env ==>
      ReadSetting(m, env, AccountSetting) == Success(Str("conjur"))
  {
    EnvKeyAccount();
  }

  /** Without its own entry and its own environment variable, `url` reads as
      None, whatever the other settings hold. */
  lemma UrlDefault(m: Entries, env: Environment)
    ensures "url" !in m && "CONJUR_URL" !in env ==>
      ReadSetting(m, env, UrlSetting) == Success(Null)
  {
    EnvKeyUrl();
  }

  /** The argument for the HTTP client's `verify` keyword, given the resolved
      `cert_file`: the certificate path when there is one, else `True`. */
  function VerifyArg(certFile: Value): (r: Value)
    ensures r != Null
    ensures certFile != Null ==> r == certFile
    ensures certFile == Null ==> r == Bool(true)
  {
    if certFile != Null then certFile else Bool(true)
  }

  /** `verify` as a function of the state: `True` when `cert_file` is unset or
      None, and exactly the stored path when it is set. */
  lemma VerifyOfCertFile(m: Entries, env: Environment, path: string)
    ensures "cert_file" !in m && EnvKey("cert_file") !in env ==>
      VerifyArg(ReadSetting(m, env, CertFileSetting).value) == Bool(true)
    ensures VerifyArg(ReadSetting(m["cert_file" := Null], env, CertFileSetting).value) == Bool(true)
    ensures VerifyArg(ReadSetting(m["cert_file" := Str(path)], env, CertFileSetting).value) == Str(path)
  {
  }

  // ---------------------------------------------------------------------------
  // The store

  class Config {
    /** The in-memory settings (`self._config`). */
    var entries: Entries

    /** `Config(**kwargs)`: empty entries, then `update(kwargs)`. */
    constructor (kwargs: Entries)
      ensures entries == kwargs
    {
      entries := map[];
      new;
      Update([kwargs], map[]);
      MergeIntoEmpty(kwargs);
    }

    /** `update(*dicts, **kwargs)`: merge each source in turn, keyword
        arguments last. */
    method Update(dicts: seq<Entries>, kwargs: Entries)
      modifies this
      ensures entries == MergeAll(old(entries), dicts + [kwargs])
      ensures forall k :: k in kwargs ==> k in entries && entries[k] == kwargs[k]
    {
      var sources := dicts + [kwargs];
      var i := 0;
      while i < |sources|
        invariant 0 <= i <= |sources|
        invariant entries == MergeAll(old(entries), sources[..i])
      {
        assert sources[..i + 1][..i] == sources[..i];
        entries := entries + sources[i];
        i := i + 1;
      }
      assert sources[..i] == sources;
    }

    /** `load(input)` after the YAML decoder has run: a decoded mapping is
        merged with `update`; a decoder error propagates before anything is
        merged. */
    method Load(decoded: Result<Entries, string>) returns (err: Option<ConfigError>)
      modifies this
      ensures decoded.Success? ==> err.None? && entries == MergeAll(old(entries), [decoded.value, map[]])
      ensures decoded.Failure? ==> err == Some(DecodeFailed(decoded.error)) && entries == old(entries)
    {
      match decoded
      case Success(conf) =>
        Update([conf], map[]);
        err := None;
      case Failure(reason) =>
        err := Some(DecodeFailed(reason));
    }

    /** `get(key, default)`: the layered lookup, caching an environment hit. */
    method Get(env: Environment, key: string, default: Option<Value>) returns (r: Result<Value, ConfigError>)
      modifies this
      ensures r == Resolve(old(entries), env, key, default)
      ensures entries == AfterGet(old(entries), env, key)
    {
      if key in entries {
        return Success(entries[key]);
      }
      var envKey := EnvKey(key);
      if envKey in env {
        var value := Str(env[envKey]);
        entries := entries[key := value];
        return Success(value);
      }
      if default.None? {
        return Failure(RequiredSetting(key));
      }
      return Success(default.value);
    }

    /** `set(key, value)`: overwrite one entry. */
    method Set(key: string, value: Value)
      modifies this
      ensures entries == old(entries)[key := value]
      ensures forall j :: j != key ==> (j in entries <==> j in old(entries))
      ensures forall j :: j != key && j in old(entries) ==> entries[j] == old(entries)[j]
    {
      entries := entries[key := value];
    }

    /** The getter of a declared setting. */
    method ReadDeclared(env: Environment, s: Setting) returns (r: Result<Value, ConfigError>)
      modifies this
      ensures r == ReadSetting(old(entries), env, s)
      ensures entries == AfterGet(old(entries), env, s.name)
    {
      r := Get(env, s.name, s.default);
    }

    /** The setter of a declared setting. */
    method WriteDeclared(s: Setting, value: Value)
      modifies this
      ensures entries == old(entries)[s.name := value]
    {
      Set(s.name, value);
    }

    /** The `cert_file` property getter. */
    method CertFile(env: Environment) returns (v: Value)
      modifies this
      ensures Success(v) == ReadSetting(old(entries), env, CertFileSetting)
      ensures entries == AfterGet(old(entries), env, "cert_file")
    {
      var r := ReadDeclared(env, CertFileSetting);
      v := r.value;
    }

    /** The `cert_file` property setter. */
    method SetCertFile(value: Value)
      modifies this
      ensures entries == old(entries)["cert_file" := value]
    {
      WriteDeclared(CertFileSetting, value);
    }

    /** The `account` property getter. */
    method Account(env: Environment) returns (v: Value)
      modifies this
      ensures Success(v) == ReadSetting(old(entries), env, AccountSetting)
      ensures entries == AfterGet(old(entries), env, "account")
    {
      var r := ReadDeclared(env, AccountSetting);
      v := r.value;
    }

    /** The `account` property setter. */
    method SetAccount(value: Value)
      modifies this
      ensures entries == old(entries)["account" := value]
    {
      WriteDeclared(AccountSetting, value);
    }

    /** The `url` property getter. */
    method Url(env: Environment) returns (v: Value)
      modifies this
      ensures Success(v) == ReadSetting(old(entries), env, UrlSetting)
      ensures entries == AfterGet(old(entries), env, "url")
    {
      var r := ReadDeclared(env, UrlSetting);
      v := r.value;
    }

    /** The `url` property setter. */
    method SetUrl(value: Value)
      modifies this
      ensures entries == old(entries)["url" := value]
    {
      WriteDeclared(UrlSetting, value);
    }

    /** The `verify` property. It reads `cert_file` once to test it and, when
        it is not None, a second time to return it; the second read sees the
        value the first one cached. */
    method Verify(env: Environment) returns (r: Value)
      modifies this
      ensures r == VerifyArg(ReadSetting(old(entries), env, CertFileSetting).value)
      ensures entries == AfterGet(old(entries), env, "cert_file")
    {
      ghost var m0 := entries;
      var c := CertFile(env);
      if c != Null {
        GetIsMemoised(m0, env, "cert_file", Some(Null), env, Some(Null));
        r := CertFile(env);
      } else {
        r := Bool(true);
      }
    }
  }
}
