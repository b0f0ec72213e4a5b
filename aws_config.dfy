/**
 * The profile registry and the credential store (src/aws_config.rs).
 *
 * `ParseConfigFiles` correlates the config document (which profiles exist)
 * with the credentials document (the keys of each profile);
 * `WriteCredentials` merges new keys back into a freshly loaded credentials
 * document; `GetConfigPath` picks the location of either document.
 */
module AwsConfig {
  import opened Wrappers
  import opened Errors
  import opened Ini

  /** An access key id and its secret, stored exactly as given. */
  datatype AWSConfig = AWSConfig(accessKeyId: string, secretAccessKey: string)

  type Registry = map<string, AWSConfig>

  const AccessKeyField: string := "aws_access_key_id"
  const SecretKeyField: string := "aws_secret_access_key"
  const SourceProfileField: string := "source_profile"
  const ProfilePrefix: string := "profile"

  /** `AWSConfig::new`: both strings are kept verbatim. */
  function NewConfig(accessKey: string, secretKey: string): (c: AWSConfig)
    ensures c.accessKeyId == accessKey && c.secretAccessKey == secretKey
  {
    AWSConfig(accessKey, secretKey)
  }

  // ---------------------------------------------------------------------------
  // split_whitespace

  /** Rust's `char::is_whitespace`: the Unicode White_Space property. */
  predicate IsWhitespace(c: char)
  {
    var n := c as int;
    (0x09 <= n <= 0x0D) || n == 0x20 || n == 0x85 || n == 0xA0 || n == 0x1680
    || (0x2000 <= n <= 0x200A) || n == 0x2028 || n == 0x2029 || n == 0x202F
    || n == 0x205F || n == 0x3000
  }

  predicate NoWhitespace(s: string)
  {
    forall i :: 0 <= i < |s| ==> !IsWhitespace(s[i])
  }

  predicate AllWhitespace(s: string)
  {
    forall i :: 0 <= i < |s| ==> IsWhitespace(s[i])
  }

  /** Length of the run of non-whitespace characters at the start of `s`. */
  function WordLength(s: string): (n: nat)
    ensures n <= |s|
    ensures NoWhitespace(s[..n])
    ensures n < |s| ==> IsWhitespace(s[n])
  {
    if s == [] || IsWhitespace(s[0]) then 0 else 1 + WordLength(s[1..])
  }

  /** `str::split_whitespace`: the maximal non-empty runs of non-whitespace, in order. */
  function Words(s: string): (ws: seq<string>)
    ensures forall i :: 0 <= i < |ws| ==> ws[i] != [] && NoWhitespace(ws[i])
    decreases |s|
  {
    if s == [] then []
    else if IsWhitespace(s[0]) then Words(s[1..])
    else
      var n := WordLength(s);
      [s[..n]] + Words(s[n..])
  }

  lemma {:induction false} WordsSkipWhitespace(ws: string, t: string)
    requires AllWhitespace(ws)
    ensures Words(ws + t) == Words(t)
    decreases |ws|
  {
    if ws != [] {
      assert (ws + t)[0] == ws[0];
      assert (ws + t)[1..] == ws[1..] + t;
      WordsSkipWhitespace(ws[1..], t);
    } else {
      assert ws + t == t;
    }
  }

  lemma {:induction false} WordLengthOfWord(w: string, rest: string)
    requires NoWhitespace(w)
    requires rest == [] || IsWhitespace(rest[0])
    ensures WordLength(w + rest) == |w|
    decreases |w|
  {
    if w != [] {
      assert (w + rest)[1..] == w[1..] + rest;
      WordLengthOfWord(w[1..], rest);
    }
  }

  lemma WordsOfWord(w: string, rest: string)
    requires w != [] && NoWhitespace(w)
    requires rest == [] || IsWhitespace(rest[0])
    ensures Words(w + rest) == [w] + Words(rest)
  {
    WordLengthOfWord(w, rest);
    assert (w + rest)[..|w|] == w;
    assert (w + rest)[|w|..] == rest;
  }

  // ---------------------------------------------------------------------------
  // parse_config_files

  /**
   * A section of the config document whose header is split to get a profile
   * name: it has no `source_profile` key and its name starts with `profile`.
   */
  predicate NeedsSplit(sec: Section)
  {
    SourceProfileField !in sec.props && sec.name.Some? && ProfilePrefix <= sec.name.value
  }

  /** A header that is split has a second word; indexing a missing one panics. */
  predicate Splittable(sec: Section)
  {
    NeedsSplit(sec) ==> |Words(sec.name.value)| >= 2
  }

  predicate SplitsUpTo(conf: Document, n: nat)
    requires n <= |conf|
  {
    forall i :: 0 <= i < n ==> Splittable(conf[i])
  }

  /** The number of sections before the first header that cannot be split (all of them when there is none). */
  function SplittablePrefix(conf: Document): (k: nat)
    ensures k <= |conf| && SplitsUpTo(conf, k)
    ensures k < |conf| ==> !Splittable(conf[k])
  {
    if conf == [] || !Splittable(conf[0]) then 0
    else
      var k := 1 + SplittablePrefix(conf[1..]);
      assert forall i :: 1 <= i < k ==> conf[i] == conf[1..][i - 1];
      k
  }

  /**
   * The profile a config section names, or None when the section is skipped:
   * it has a `source_profile` key, it has no name, or its name does not start
   * with `profile`.  The profile is the second whitespace-separated word.
   */
  function ProfileName(sec: Section): (r: Option<string>)
    requires Splittable(sec)
    ensures r.None? <==> !NeedsSplit(sec)
    ensures r.Some? ==> r.value != [] && NoWhitespace(r.value)
  {
    if SourceProfileField in sec.props then None
    else match sec.name
      case None => None
      case Some(s) => if !(ProfilePrefix <= s) then None else Some(Words(s)[1])
  }

  /**
   * A header written the conventional way, `profile`, whitespace, then a name
   * without whitespace, splits into exactly those two words, so a section
   * with that header and no `source_profile` key names exactly that profile.
   */
  lemma ConventionalHeader(sep: string, name: string, props: Properties)
    requires sep != [] && AllWhitespace(sep)
    requires name != [] && NoWhitespace(name)
    requires SourceProfileField !in props
    ensures Words(ProfilePrefix + sep + name) == [ProfilePrefix, name]
    ensures ProfileName(Section(Some(ProfilePrefix + sep + name), props)) == Some(name)
  {
    assert ProfilePrefix + sep + name == ProfilePrefix + (sep + name);
    WordsOfWord(ProfilePrefix, sep + name);
    WordsSkipWhitespace(sep, name);
    WordsOfWord(name, []);
    assert name + [] == name;
  }

  function NoAccessKeyError(profile: string): RotateError
  {
    RotateError("No access key for profile: " + profile)
  }

  function NoSecretKeyError(profile: string): RotateError
  {
    RotateError("No secret key for profile: " + profile)
  }

  /** One iteration of the loop over the config document. */
  function ParseStep(res: Registry, sec: Section, cred: Document): Result<Registry, RotateError>
    requires Splittable(sec)
  {
    match ProfileName(sec)
    case None => Ok(res)
    case Some(p) =>
      match FindSection(cred, Some(p))
      case None => Ok(res)
      case Some(props) =>
        if AccessKeyField !in props then Err(NoAccessKeyError(p))
        else if SecretKeyField !in props then Err(NoSecretKeyError(p))
        else Ok(res[p := NewConfig(props[AccessKeyField], props[SecretKeyField])])
  }

  /** The outcome of the loop after its first `n` sections; the first error stops it. */
  function ParsePrefix(conf: Document, cred: Document, n: nat): Result<Registry, RotateError>
    requires n <= |conf| && SplitsUpTo(conf, n)
  {
    if n == 0 then Ok(map[])
    else match ParsePrefix(conf, cred, n - 1)
      case Err(e) => Err(e)
      case Ok(res) => ParseStep(res, conf[n - 1], cred)
  }

  /** Once the loop has failed, the later sections do not change its outcome. */
  lemma {:induction false} ParseErrSticks(conf: Document, cred: Document, n: nat, m: nat)
    requires n <= m <= |conf| && SplitsUpTo(conf, m)
    requires ParsePrefix(conf, cred, n).Err?
    ensures ParsePrefix(conf, cred, m) == ParsePrefix(conf, cred, n)
    decreases m
  {
    if m > n {
      ParseErrSticks(conf, cred, n, m - 1);
    }
  }

  /** Some section among the first `n` of the config document names profile `p`. */
  ghost predicate Listed(conf: Document, n: nat, p: string)
    requires n <= |conf| && SplitsUpTo(conf, n)
  {
    exists i :: 0 <= i < n && ProfileName(conf[i]) == Some(p)
  }

  predicate HasBothKeys(props: Properties)
  {
    AccessKeyField in props && SecretKeyField in props
  }

  /** A listed profile whose credentials section exists but lacks a key. */
  predicate Incomplete(sec: Section, cred: Document)
    requires Splittable(sec)
  {
    ProfileName(sec).Some?
    && FindSection(cred, Some(ProfileName(sec).value)).Some?
    && !HasBothKeys(FindSection(cred, Some(ProfileName(sec).value)).value)
  }

  /** The error an incomplete section is reported with: the access key is checked first. */
  function IncompleteError(sec: Section, cred: Document): RotateError
    requires Splittable(sec)
    requires Incomplete(sec, cred)
  {
    var p := ProfileName(sec).value;
    if AccessKeyField !in FindSection(cred, Some(p)).value then NoAccessKeyError(p) else NoSecretKeyError(p)
  }

  /**
   * On success the registry holds exactly the listed profiles that have a
   * credentials section (a profile without one is left out, not an error),
   * each section has both keys, and each entry is that section's two values.
   */
  lemma {:induction false} ParseOkExact(conf: Document, cred: Document, n: nat)
    requires n <= |conf| && SplitsUpTo(conf, n)
    requires ParsePrefix(conf, cred, n).Ok?
    ensures forall p :: p in ParsePrefix(conf, cred, n).value
                    <==> Listed(conf, n, p) && FindSection(cred, Some(p)).Some?
    ensures forall p :: p in ParsePrefix(conf, cred, n).value ==>
              var props := FindSection(cred, Some(p)).value;
              HasBothKeys(props)
              && ParsePrefix(conf, cred, n).value[p] == AWSConfig(props[AccessKeyField], props[SecretKeyField])
  {
    if n > 0 {
      ParseOkExact(conf, cred, n - 1);
      var res := ParsePrefix(conf, cred, n - 1).value;
      var m := ParsePrefix(conf, cred, n).value;
      forall p
        ensures p in m <==> Listed(conf, n, p) && FindSection(cred, Some(p)).Some?
      {
        if Listed(conf, n, p) {
          var i :| 0 <= i < n && ProfileName(conf[i]) == Some(p);
          if i < n - 1 {
            assert Listed(conf, n - 1, p);
          }
        }
        if Listed(conf, n - 1, p) {
          var i :| 0 <= i < n - 1 && ProfileName(conf[i]) == Some(p);
          assert Listed(conf, n, p);
        }
      }
    }
  }

  /** No listed profile has an incomplete credentials section after a success. */
  lemma ParseOkComplete(conf: Document, cred: Document, n: nat)
    requires n <= |conf| && SplitsUpTo(conf, n)
    requires ParsePrefix(conf, cred, n).Ok?
    ensures forall i :: 0 <= i < n ==> !Incomplete(conf[i], cred)
  {
    ParseOkExact(conf, cred, n);
    forall i | 0 <= i < n
      ensures !Incomplete(conf[i], cred)
    {
      if ProfileName(conf[i]).Some? {
        assert Listed(conf, n, ProfileName(conf[i]).value);
      }
    }
  }

  /**
   * A failure is caused by the first listed profile whose credentials section
   * lacks a key, and names that profile and the key checked first; no
   * registry, partial or not, comes with it.
   */
  lemma {:induction false} ParseErrFirst(conf: Document, cred: Document, n: nat)
    requires n <= |conf| && SplitsUpTo(conf, n)
    requires ParsePrefix(conf, cred, n).Err?
    ensures exists i :: 0 <= i < n && Incomplete(conf[i], cred)
              && ParsePrefix(conf, cred, n).error == IncompleteError(conf[i], cred)
              && forall j :: 0 <= j < i ==> !Incomplete(conf[j], cred)
  {
    assert n > 0;
    if ParsePrefix(conf, cred, n - 1).Err? {
      ParseErrFirst(conf, cred, n - 1);
    } else {
      ParseOkComplete(conf, cred, n - 1);
      assert Incomplete(conf[n - 1], cred);
    }
  }

  /** The registry build fails exactly when some listed profile has an incomplete credentials section. */
  lemma ParseFailsIff(conf: Document, cred: Document, n: nat)
    requires n <= |conf| && SplitsUpTo(conf, n)
    ensures ParsePrefix(conf, cred, n).Err? <==> exists i :: 0 <= i < n && Incomplete(conf[i], cred)
  {
    if ParsePrefix(conf, cred, n).Err? {
      ParseErrFirst(conf, cred, n);
    } else {
      ParseOkComplete(conf, cred, n);
    }
  }

  /**
   * The loop does not panic: it has returned an error before it reaches the
   * first header without a second word, if there is one.
   */
  predicate NoSplitPanic(conf: Document, cred: Document)
  {
    SplittablePrefix(conf) < |conf| ==> ParsePrefix(conf, cred, SplittablePrefix(conf)).Err?
  }

  /**
   * What `parse_config_files` returns when it does not panic: the outcome of
   * the loop over the sections it reaches.  A success has read every section.
   */
  function ParseResult(conf: Document, cred: Document): (r: Result<Registry, RotateError>)
    requires NoSplitPanic(conf, cred)
    ensures r.Ok? ==> SplittablePrefix(conf) == |conf|
  {
    ParsePrefix(conf, cred, SplittablePrefix(conf))
  }

  /** A header without whitespace is a single word, so it has no second word to take. */
  lemma OneWordHeader(name: string)
    requires name != [] && NoWhitespace(name)
    ensures Words(name) == [name]
  {
    WordsOfWord(name, []);
    assert name + [] == name;
  }

  /** A one-word header that has to be split has no second word. */
  lemma OneWordNotSplittable(sec: Section)
    requires NeedsSplit(sec) && sec.name.value != [] && NoWhitespace(sec.name.value)
    ensures !Splittable(sec)
  {
    OneWordHeader(sec.name.value);
  }

  /** Of two sections, only the first can be split. */
  lemma PrefixOfTwo(conf: Document)
    requires |conf| == 2 && Splittable(conf[0]) && !Splittable(conf[1])
    ensures SplittablePrefix(conf) == 1
  {
    assert conf[1..][0] == conf[1];
  }

  /** A first profile whose credentials section is empty fails on its access key. */
  lemma FirstFails(conf: Document, cred: Document, p: string)
    requires |conf| >= 1 && Splittable(conf[0]) && ProfileName(conf[0]) == Some(p)
    requires FindSection(cred, Some(p)) == Some(map[])
    ensures SplitsUpTo(conf, 1) && ParsePrefix(conf, cred, 1) == Err(NoAccessKeyError(p))
  {
  }

  /**
   * A header without a second word does no harm when an earlier profile has
   * already failed: `[profile a]` with an empty credentials section, then
   * `[profilefoo]`, gives the error for `a`.
   */
  lemma ErrorBeforeBadHeader(conf: Document, cred: Document)
    requires conf == [Section(Some("profile a"), map[]), Section(Some("profilefoo"), map[])]
    requires cred == [Section(Some("a"), map[])]
    ensures !Splittable(conf[1])
    ensures NoSplitPanic(conf, cred)
    ensures ParseResult(conf, cred) == Err(NoAccessKeyError("a"))
  {
    assert ProfilePrefix <= "profilefoo";
    OneWordNotSplittable(conf[1]);
    assert ProfilePrefix + " " + "a" == "profile a";
    ConventionalHeader(" ", "a", map[]);
    PrefixOfTwo(conf);
    assert FindSection(cred, Some("a")) == Some(map[]);
    FirstFails(conf, cred, "a");
  }

  /** `parse_config_files`, on the two documents as loaded. */
  method ParseConfigFiles(conf: Document, cred: Document) returns (r: Result<Registry, RotateError>)
    requires NoSplitPanic(conf, cred)
    ensures r == ParseResult(conf, cred)
  {
    var res: Registry := map[];
    var i := 0;
    while i < |conf|
      invariant 0 <= i <= SplittablePrefix(conf)
      invariant ParsePrefix(conf, cred, i) == Ok(res)
    {
      assert i < SplittablePrefix(conf);
      var sec := conf[i];
      i := i + 1;
      if SourceProfileField in sec.props {
        continue;
      }
      var profileName: string;
      match sec.name {
        case None =>
          continue;
        case Some(s) =>
          if !(ProfilePrefix <= s) {
            continue;
          }
          profileName := Words(s)[1];
      }
      var section := FindSection(cred, Some(profileName));
      if section.None? {
        continue;
      }
      if AccessKeyField !in section.value {
        ParseErrSticks(conf, cred, i, SplittablePrefix(conf));
        return Err(NoAccessKeyError(profileName));
      }
      if SecretKeyField !in section.value {
        ParseErrSticks(conf, cred, i, SplittablePrefix(conf));
        return Err(NoSecretKeyError(profileName));
      }
      res := res[profileName := NewConfig(section.value[AccessKeyField], section.value[SecretKeyField])];
    }
    r := Ok(res);
  }

  // ---------------------------------------------------------------------------
  // write_credentials

  /** A credentials section after `set` of both keys: the other keys are kept. */
  function WithKeys(found: Option<Properties>, c: AWSConfig): (props: Properties)
    ensures props.Keys == PropsOrEmpty(found).Keys + {AccessKeyField, SecretKeyField}
    ensures props[AccessKeyField] == c.accessKeyId && props[SecretKeyField] == c.secretAccessKey
    ensures forall k :: k in PropsOrEmpty(found) && k != AccessKeyField && k != SecretKeyField
                        ==> props[k] == PropsOrEmpty(found)[k]
  {
    PropsOrEmpty(found)[AccessKeyField := c.accessKeyId][SecretKeyField := c.secretAccessKey]
  }

  /** One iteration of the loop in `write_credentials`: `with_section(name).set(..).set(..)`. */
  function SetCredentials(doc: Document, name: string, c: AWSConfig): Document
  {
    SetKey(SetKey(doc, Some(name), AccessKeyField, c.accessKeyId), Some(name), SecretKeyField, c.secretAccessKey)
  }

  lemma SetCredentialsLookup(doc: Document, name: string, c: AWSConfig, other: Option<string>)
    ensures FindSection(SetCredentials(doc, name, c), other)
         == if other == Some(name) then Some(WithKeys(FindSection(doc, other), c)) else FindSection(doc, other)
  {
    var mid := SetKey(doc, Some(name), AccessKeyField, c.accessKeyId);
    SetKeyLookup(doc, Some(name), AccessKeyField, c.accessKeyId, other);
    SetKeyLookup(mid, Some(name), SecretKeyField, c.secretAccessKey, other);
    SetKeyLookup(doc, Some(name), AccessKeyField, c.accessKeyId, Some(name));
  }

  /**
   * What a later load of `doc` shows after the keys of `configs` were merged
   * in: each profile in `configs` has a section holding its two keys beside
   * its other keys, and every other section is as it was.
   */
  ghost predicate MergedInto(doc: Document, configs: Registry, written: Document)
  {
    forall name :: FindSection(written, name)
      == if name.Some? && name.value in configs then Some(WithKeys(FindSection(doc, name), configs[name.value]))
         else FindSection(doc, name)
  }

  /**
   * Two merges in a row are one merge of both updates, the later one winning
   * for a profile in both: a second write for one profile leaves the first
   * write's profile intact.
   */
  lemma MergesCompose(doc: Document, first: Registry, mid: Document, second: Registry, written: Document)
    requires MergedInto(doc, first, mid) && MergedInto(mid, second, written)
    ensures MergedInto(doc, first + second, written)
  {
    forall name: Option<string>
      ensures FindSection(written, name)
        == if name.Some? && name.value in first + second
           then Some(WithKeys(FindSection(doc, name), (first + second)[name.value]))
           else FindSection(doc, name)
    {
      if name.Some? && name.value in second && name.value in first {
        assert WithKeys(Some(WithKeys(FindSection(doc, name), first[name.value])), second[name.value])
            == WithKeys(FindSection(doc, name), second[name.value]);
      }
    }
  }

  /**
   * Two writes to an empty credentials file, first for profile `test` and then
   * for `test2`, leave both profiles with their own keys.
   */
  lemma SecondWriteKeepsFirst(first: Document, second: Document)
    requires MergedInto([], map["test" := AWSConfig("ThisIsAnAccessKey", "ThisIsASecretKey")], first)
    requires MergedInto(first, map["test2" := AWSConfig("ThisIsAnAccessKey2", "ThisIsASecretKey2")], second)
    ensures FindSection(second, Some("test"))
         == Some(map[AccessKeyField := "ThisIsAnAccessKey", SecretKeyField := "ThisIsASecretKey"])
    ensures FindSection(second, Some("test2"))
         == Some(map[AccessKeyField := "ThisIsAnAccessKey2", SecretKeyField := "ThisIsASecretKey2"])
  {
    assert FindSection(second, Some("test")) == FindSection(first, Some("test"));
    assert FindSection(first, Some("test2")) == None;
  }

  function LoadError(credPath: string, reason: string): RotateError
  {
    RotateError("Failed to load the credential file at: " + credPath + ", reason " + reason)
  }

  function WriteError(reason: string): RotateError
  {
    RotateError("Failed to write credentials: " + reason)
  }

  /** What `write_credentials` returns: a load failure first, then a write failure. */
  function WriteResult(credPath: string, loaded: Result<Document, string>, writeFailure: Option<string>): Result<(), RotateError>
  {
    if loaded.Err? then Err(LoadError(credPath, loaded.error))
    else if writeFailure.Some? then Err(WriteError(writeFailure.value))
    else Ok(())
  }

  /**
   * The document `write_credentials` hands to the file writer: nothing when
   * the file could not be loaded, otherwise the loaded document with
   * `configs` merged in.
   */
  ghost predicate IsWrittenDocument(configs: Registry, loaded: Result<Document, string>, written: Option<Document>)
  {
    match loaded
    case Err(_) => written == None
    case Ok(doc) => written.Some? && MergedInto(doc, configs, written.value)
  }

  /**
   * `write_credentials`.  `loaded` is the credentials file as loaded at the
   * start of the call (an error when it cannot be read or parsed) and
   * `writeFailure` the error, if any, of writing it back.
   */
  method WriteCredentials(configs: Registry, credPath: string, loaded: Result<Document, string>, writeFailure: Option<string>)
    returns (written: Option<Document>, r: Result<(), RotateError>)
    ensures IsWrittenDocument(configs, loaded, written)
    ensures r == WriteResult(credPath, loaded, writeFailure)
  {
    if loaded.Err? {
      return None, Err(LoadError(credPath, loaded.error));
    }
    var cred := loaded.value;
    var todo := configs.Keys;
    while todo != {}
      invariant todo <= configs.Keys
      invariant forall name :: (FindSection(cred, name)
        == if name.Some? && name.value in configs && name.value !in todo
           then Some(WithKeys(FindSection(loaded.value, name), configs[name.value]))
           else FindSection(loaded.value, name))
      decreases todo
    {
      var name :| name in todo;
      ghost var before := cred;
      cred := SetCredentials(cred, name, configs[name]);
      forall other: Option<string>
        ensures FindSection(cred, other)
          == if other == Some(name) then Some(WithKeys(FindSection(before, other), configs[name]))
             else FindSection(before, other)
      {
        SetCredentialsLookup(before, name, configs[name], other);
      }
      todo := todo - {name};
    }
    written := Some(cred);
    r := if writeFailure.None? then Ok(()) else Err(WriteError(writeFailure.value));
  }

  // ---------------------------------------------------------------------------
  // get_config_path

  datatype ConfigType = Credentials | Config

  /** A path as the sequence of its components. */
  datatype PathBuf = PathBuf(components: seq<string>)

  function Push(p: PathBuf, component: string): PathBuf
  {
    PathBuf(p.components + [component])
  }

  /** `PathBuf::from` on an environment value; the value is kept whole, as one opaque component. */
  function PathFromString(s: string): PathBuf
  {
    PathBuf([s])
  }

  function EnvVarName(t: ConfigType): string
  {
    match t
    case Credentials => "AWS_SHARED_CREDENTIALS_FILE"
    case Config => "AWS_CONFIG_FILE"
  }

  function FileName(t: ConfigType): string
  {
    match t
    case Credentials => "credentials"
    case Config => "config"
  }

  const HomeDirError: RotateError := RotateError("Failed to find home directory")

  /**
   * `get_config_path`, with the home directory and the environment given.
   * No home directory is an error even when the variable is set; a non-empty
   * variable wins; an unset or empty one gives `<home>/.aws/<file>`.
   */
  function GetConfigPath(t: ConfigType, home: Option<PathBuf>, env: map<string, string>): (r: Result<PathBuf, RotateError>)
    ensures home.None? ==> r == Err(HomeDirError)
    ensures home.Some? && EnvVarName(t) in env && env[EnvVarName(t)] != "" ==> r == Ok(PathFromString(env[EnvVarName(t)]))
    ensures home.Some? && (EnvVarName(t) !in env || env[EnvVarName(t)] == "")
            ==> r == Ok(PathBuf(home.value.components + [".aws", FileName(t)]))
  {
    match home
    case None => Err(HomeDirError)
    case Some(dir) =>
      var default := Push(Push(dir, ".aws"), FileName(t));
      assert default.components == dir.components + [".aws", FileName(t)];
      if EnvVarName(t) in env && env[EnvVarName(t)] != "" then Ok(PathFromString(env[EnvVarName(t)]))
      else Ok(default)
  }

  /** An empty variable is treated exactly as an unset one. */
  lemma EmptyEnvIsUnset(t: ConfigType, home: Option<PathBuf>, env: map<string, string>)
    ensures GetConfigPath(t, home, env[EnvVarName(t) := ""]) == GetConfigPath(t, home, env - {EnvVarName(t)})
  {
  }

  /** Each document's location depends only on its own variable. */
  lemma OtherVariableIgnored(t: ConfigType, home: Option<PathBuf>, env: map<string, string>, key: string, value: string)
    requires key != EnvVarName(t)
    ensures GetConfigPath(t, home, env[key := value]) == GetConfigPath(t, home, env)
  {
  }

  /** With both variables unset, the two documents default to different files in the same directory. */
  lemma DefaultsDistinct(home: PathBuf, env: map<string, string>)
    requires EnvVarName(Credentials) !in env && EnvVarName(Config) !in env
    ensures GetConfigPath(Credentials, Some(home), env).Ok? && GetConfigPath(Config, Some(home), env).Ok?
    ensures GetConfigPath(Credentials, Some(home), env) != GetConfigPath(Config, Some(home), env)
    ensures GetConfigPath(Credentials, Some(home), env).value.components[..|home.components| + 1]
         == GetConfigPath(Config, Some(home), env).value.components[..|home.components| + 1]
         == home.components + [".aws"]
  {
    var c := GetConfigPath(Credentials, Some(home), env).value.components;
    var d := GetConfigPath(Config, Some(home), env).value.components;
    assert c[|c| - 1] != d[|d| - 1];
  }
}
