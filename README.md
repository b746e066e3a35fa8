# Conjur API client settings store, in Dafny

This project models `Config`, the settings store of the Conjur Python API
client (`conjur/config.py`). It proves the store's lookup, caching and merge
rules.

A `Config` holds a mutable mapping from setting names to values (`_config`,
here the field `entries`). A read, `get(key, default)`, is layered:

1. If `key` has an in-memory entry, that entry is returned and nothing changes.
2. Otherwise the environment variable `CONJUR_` + `key.upper()` is consulted.
   If it exists, its string is stored under `key` and returned, so every
   later read of the same key is served from memory.
3. Otherwise the caller's default is returned without being stored. If no
   default was passed (the `_DEFAULT` sentinel), a plain `Exception` naming
   the key is raised.

`set` overwrites one entry. `update(*dicts, **kwargs)` merges its sources one
after the other, so later sources win, and applies the keyword arguments
last. The constructor is an `update` of empty entries with the constructor's
keyword arguments. `load` merges a decoded YAML document. Three settings are
declared through `_setting`:

- `cert_file`, whose default is None;
- `account`, whose default is `"conjur"`;
- `url`, whose default is None.

`verify` is `cert_file` when that is not None, and `True` otherwise.

How the model is built:

- There are two modules.
  - `Wrappers` holds `Option` and `Result`. `Option.None` is the "no default"
    sentinel. It is distinct from `Some(Null)`, a default of None.
  - `ConjurConfig` holds the value type, the pure functions that specify each
    operation, the lemmas about them, and the class `Config`.
- Each method of `Config` is proved against a function of the state before
  the call.
  - `Get` is proved against `Resolve` (the result) and `AfterGet` (the new
    entries).
  - `Update` is proved against `MergeAll`. Its loop carries the invariant
    that the entries equal the merge of the sources handled so far.
- The process environment is a `map<string, string>` parameter of every
  read. The store only ever reads it.
- `Value` is what the model's store holds: None, booleans, integers, strings,
  lists and nested mappings. The source accepts any Python object (see
  "Left out").
- The `Setting` datatype holds what `_setting(name, default, doc)` binds: a
  name and a default. The constants `CertFileSetting`, `AccountSetting` and
  `UrlSetting` are the three declarations at conjur/config.py:88-94.

Details of the code that the model keeps:

- `url` has the default None (conjur/config.py:94). Reading it never raises.
  It is not a required setting.
- `account` is called required in the module's doc string (conjur/config.py:32),
  but line 92 gives it the default `"conjur"`. The model follows the code: reading
  `account` never raises (`DeclaredSettingsNeverRaise`).
- `get` raises a plain `Exception` (conjur/config.py:82). `ConfigException`
  (conjur/config.py:42-43) is declared but never raised.
- `load` neither closes the file it opens (conjur/config.py:65) nor wraps
  decode errors (conjur/config.py:66). A decoder error propagates unchanged
  before anything is merged, so the entries stay as they were.

## Model

| member | source | states |
|---|---|---|
| `ConjurConfig.UpperChar` | conjur/config.py:76 | The result is never a lower-case ASCII letter. A lower-case ASCII letter (`a` to `z`) moves to its upper-case counterpart. Every other character is unchanged. |
| `ConjurConfig.Upper` | conjur/config.py:76 | `key.upper()` keeps the length and upper-cases each character in place. |
| `ConjurConfig.EnvKey` | conjur/config.py:76 | The variable name is `CONJUR_` followed by the key upper-cased character by character. It is 7 characters longer than the key. |
| `ConjurConfig.UpperAppend` | conjur/config.py:76 | Upper-casing distributes over concatenation. |
| `ConjurConfig.EnvKeyShared` | conjur/config.py:76 | Two setting names read the same environment variable exactly when they agree after upper-casing. For example, `url` and `URL` share `CONJUR_URL`. |
| `ConjurConfig.UpperCertFile` | conjur/config.py:76 | `"cert_file".upper()` is `"CERT_FILE"`. |
| `ConjurConfig.EnvKeyCertFile` | conjur/config.py:76 | The environment variable of `cert_file` is `CONJUR_CERT_FILE`. |
| `ConjurConfig.EnvKeyAccount` | conjur/config.py:76 | The environment variable of `account` is `CONJUR_ACCOUNT`. |
| `ConjurConfig.EnvKeyUrl` | conjur/config.py:76 | The environment variable of `url` is `CONJUR_URL`. |
| `ConjurConfig.Message` | conjur/config.py:82 | For a missing setting, the message is `config setting `, then the key, then ` is required`. A decoder error keeps its own text. |
| `ConjurConfig.Resolve` | conjur/config.py:73-83 | `get` fails exactly when the key has no entry, no environment variable and no default. The error then names the key. With a default and neither source, the default is returned as given. |
| `ConjurConfig.AfterGet` | conjur/config.py:76-80 | `get` changes no key other than the one read. That key is present afterwards exactly when it had an entry or an environment variable. |
| `ConjurConfig.SetThenGet` | conjur/config.py:73-75 | After `set(k, v)`, `get(k, d)` returns `v` for every default and environment, and changes nothing. |
| `ConjurConfig.EnvironmentHit` | conjur/config.py:76-80 | With no entry and `CONJUR_<K>` set to `s`, `get` returns `s`. Afterwards the entries are the old ones with `k` set to `s`, and nothing else changes. |
| `ConjurConfig.GetIsMemoised` | conjur/config.py:74-80 | Once a `get` has found an entry or an environment value, a later `get` returns the same value under any environment and any default. That later `get` does not change the entries either. |
| `ConjurConfig.DefaultNotCached` | conjur/config.py:83 | With neither source, `get(k, d)` returns exactly `d` and leaves the entries unchanged. A later `get` therefore sees an environment variable set in between. |
| `ConjurConfig.RequiredMissing` | conjur/config.py:81-82 | With neither source and no default, `get` fails with `config setting <k> is required` and leaves the entries unchanged. |
| `ConjurConfig.MergeAll` | conjur/config.py:69-71 | The merge `update` runs over `dicts + (kwargs,)`, one source at a time. It keeps every old key and every key of every source. The last source's values win. |
| `ConjurConfig.LastSource` | conjur/config.py:70-71 | Finds the last source that holds a key, or reports that no source holds it. |
| `ConjurConfig.MergeAllAt` | conjur/config.py:69-71 | After a merge, a key is present exactly when it was before or some source holds it. Its value comes from the last source holding it. A key in no source keeps its old value. |
| `ConjurConfig.MergeAllAppend` | conjur/config.py:69-71 | Two updates in a row equal one update with the sources concatenated. |
| `ConjurConfig.LaterSourceWins` | conjur/config.py:69-71 | `update({"a": v1}, {"a": v2})` leaves `a` at `v2` and changes no other key. |
| `ConjurConfig.MergeIntoEmpty` | conjur/config.py:57-59 | Updating empty entries with the keyword arguments yields exactly those arguments. |
| `ConjurConfig.ReadSetting` | conjur/config.py:46-48 | A setting with a default never fails. An entry wins. Without an entry, the environment string is used. |
| `ConjurConfig.DeclaredSettingsNeverRaise` | conjur/config.py:88-94 | Reading `cert_file`, `account` or `url` never raises. |
| `ConjurConfig.CertFileDefault` | conjur/config.py:88-90 | Without its own entry and `CONJUR_CERT_FILE`, `cert_file` reads as None, whatever the other keys hold. |
| `ConjurConfig.AccountDefault` | conjur/config.py:92 | Without its own entry and `CONJUR_ACCOUNT`, `account` reads as `"conjur"`, whatever the other keys hold. |
| `ConjurConfig.UrlDefault` | conjur/config.py:94 | Without its own entry and `CONJUR_URL`, `url` reads as None, whatever the other keys hold. |
| `ConjurConfig.VerifyArg` | conjur/config.py:101-104 | `verify` is never None. It is `cert_file` when that is not None, and `True` otherwise. |
| `ConjurConfig.VerifyOfCertFile` | conjur/config.py:88-104 | `verify` is `True` when `cert_file` is unset or set to None. It is exactly the path when `cert_file` is set to a path. |
| `ConjurConfig.Config.constructor` | conjur/config.py:57-59 | A new store's entries are exactly the keyword arguments. |
| `ConjurConfig.Config.Update` | conjur/config.py:69-71 | The new entries are the old ones merged with each dict in order, then with the keyword arguments. Every keyword argument ends up stored. |
| `ConjurConfig.Config.Load` | conjur/config.py:61-67 | A decoded mapping is merged as by `update`. A decoder error is returned and the entries are unchanged. |
| `ConjurConfig.Config.Get` | conjur/config.py:73-83 | Returns `Resolve` of the old state. The new entries are `AfterGet` of the old state, which caches an environment hit. |
| `ConjurConfig.Config.Set` | conjur/config.py:85-86 | Overwrites entry `key`. Every other key keeps its presence and its value. |
| `ConjurConfig.Config.ReadDeclared` | conjur/config.py:47-48 | The getter made by `_setting` is `get(name, default)`. |
| `ConjurConfig.Config.WriteDeclared` | conjur/config.py:50-51 | The setter made by `_setting` is `set(name, value)`. |
| `ConjurConfig.Config.CertFile` | conjur/config.py:88-90 | Reads `cert_file` with default None, caching an environment hit. |
| `ConjurConfig.Config.SetCertFile` | conjur/config.py:88-90 | Overwrites the `cert_file` entry only. |
| `ConjurConfig.Config.Account` | conjur/config.py:92 | Reads `account` with default `"conjur"`, caching an environment hit. |
| `ConjurConfig.Config.SetAccount` | conjur/config.py:92 | Overwrites the `account` entry only. |
| `ConjurConfig.Config.Url` | conjur/config.py:94 | Reads `url` with default None, caching an environment hit. |
| `ConjurConfig.Config.SetUrl` | conjur/config.py:94 | Overwrites the `url` entry only. |
| `ConjurConfig.Config.Verify` | conjur/config.py:96-104 | Returns `VerifyArg` of the resolved `cert_file`, though the source reads `cert_file` twice. The second read sees the value the first read cached. The entries change only by that one cache write. |

## Left out

- Config.Load: opening a path and decoding YAML (conjur/config.py:62-66) are file I/O and an external library. `Load` receives the decoder's outcome: a flat mapping, or the decoder's error. A document that decodes to a list of key/value pairs stands for the mapping it produces, because `dict.update` merges such a list rather than rejecting it. A document that decodes to neither (for example an empty file, which decodes to None) makes `dict.update` raise. That failure is not modelled.
- Config.Update: its sources are typed as mappings, so it always succeeds. In the source each source goes to `dict.update` (conjur/config.py:71). A source given as a list of key/value pairs stands for the mapping it produces. A source that is neither a mapping nor such a list (None, a number) makes the source raise, and the sources before it stay merged. A pair list that breaks partway has its earlier pairs stored already. The model cannot show these partial merges.
- The process environment (`os.environ`) is a parameter of each read, not process state. The store never writes it.
- The module-level instances `config` and `default` (conjur/config.py:107-113) are import-time singletons with no logic of their own.
- `ConfigException` (conjur/config.py:42-43) is never raised, so it has no counterpart.
- Python's `property` machinery and the settings' doc strings have no behaviour. Each setting is a getter and setter pair of methods over a `Setting` value that holds the name and the default.
- ConjurConfig.Upper: upper-cases ASCII letters only. Python's `str.upper` also maps non-ASCII letters, some of them to several characters (`ß` becomes `SS`).
- Keys are strings. A YAML document with non-string keys is not modelled. `Value` covers None, booleans, integers, strings, lists and nested mappings. Every other value type is not modelled, whatever its origin: floats, dates, tuples, and arbitrary objects passed to `set` or as keyword arguments. This does not change behaviour, because the store only ever tests a value with `is not None` (conjur/config.py:101).
- Aliasing is not modelled. Python's `_config` holds references, so a list or dict passed to `Config(...)`, `update` or `set`, or returned by `get`, stays shared with the caller. A later change by the caller then changes the store. The model's `Value` is immutable and cannot show this.
- Concurrent use of one store is not modelled. The source has no synchronisation.
- features/environment.py is not part of this model. It is integration-test glue: it reads an admin password from the environment or a file, constructs an API client and generates random strings.
