/** The configuration of the service, read from environment variables by
    `Settings.from_env` (api/settings.py), and the boolean parser `_env_bool`. */
module Config {
  import opened Wrappers
  import opened Text
  import opened PyInt

  /** The process environment: a variable is either absent or holds a string. */
  type Env = map<string, string>

  /** `os.getenv(name)`. */
  function GetEnv(env: Env, name: string): Option<string> {
    if name in env then Some(env[name]) else None
  }

  /** `os.getenv(name, default)`: the default only when the variable is absent. */
  function GetEnvOr(env: Env, name: string, default: string): string {
    if name in env then env[name] else default
  }

  /** Why `from_env` raises: an unparsable number or boolean (`ValueError`
      naming the variable), or one of the five consistency checks. */
  datatype ConfigError =
    | InvalidInt(name: string, raw: string)
    | InvalidBool(name: string, raw: string)
    | ChunkWordsNotPositive
    | ChunkOverlapNegative
    | ChunkOverlapTooLarge
    | RouterMaxDocsetsNotPositive
    | ResultsTopKNotPositive

  /** The frozen `Settings` record. Paths are kept as strings. */
  datatype Settings = Settings(
    docsetsFile: string,
    token: Option<string>,
    embeddingModel: string,
    embeddingCacheDir: string,
    indexSnapshotPath: Option<string>,
    chunkWords: int,
    chunkOverlapWords: int,
    routerMaxDocsets: int,
    bm25TopK: int,
    vectorTopK: int,
    resultsTopK: int,
    autoIndex: bool)

  const TruthyWords: set<string> := {"1", "true", "yes", "y", "on"}
  const FalsyWords: set<string> := {"0", "false", "no", "n", "off"}

  const DefaultEmbeddingModel: string := "BAAI/bge-small-en-v1.5"

  /** The boolean a normalised (stripped, lowercased) value spells, if any. */
  function BoolWord(value: string): Option<bool> {
    if value in TruthyWords then Some(true)
    else if value in FalsyWords then Some(false)
    else None
  }

  /** `_env_bool(name, default)`. */
  function EnvBool(env: Env, name: string, default: bool): Result<bool, ConfigError> {
    match GetEnv(env, name)
    case None => Ok(default)
    case Some(raw) =>
      match BoolWord(Lower(Strip(raw)))
      case Some(b) => Ok(b)
      case None => Err(InvalidBool(name, raw))
  }

  /** `int(os.getenv(name, default))`, literally: the default text is
      parsed like a set value. */
  function EnvIntText(env: Env, name: string, default: string): Result<int, ConfigError> {
    var raw := GetEnvOr(env, name, default);
    match ParseInt(raw)
    case Some(v) => Ok(v)
    case None => Err(InvalidInt(name, raw))
  }

  /** `int(os.getenv(name, str(default)))` as `from_env` reads its numbers:
      an unset variable gives the default, a set one must parse. */
  function EnvInt(env: Env, name: string, default: int): Result<int, ConfigError> {
    match GetEnv(env, name)
    case None => Ok(default)
    case Some(raw) =>
      match ParseInt(raw)
      case Some(v) => Ok(v)
      case None => Err(InvalidInt(name, raw))
  }

  /** `Path(s)`: the empty string names the current directory. Other path
      normalisation is not modelled. */
  function PathOf(s: string): string {
    if s == "" then "." else s
  }

  /** `Path(p).expanduser()` for `~` and `~/…`, given the user's home
      directory (trailing slashes dropped; `/` if nothing is left).
      `~user` forms are not modelled and are kept as they are. */
  function ExpandUser(p: string, home: string): string {
    if p == "~" || (|p| >= 2 && p[..2] == "~/") then
      var joined := RStripChars(home, {'/'}) + p[1..];
      if joined == "" then "/" else joined
    else p
  }

  /** `Path.home() / ".cache" / "docs_api" / "fastembed"`. */
  function DefaultCacheDir(home: string): string {
    RStripChars(home, {'/'}) + "/.cache/docs_api/fastembed"
  }

  /** The optional snapshot path: set only when the variable holds
      something besides whitespace. */
  function SnapshotPath(env: Env, home: string): Option<string> {
    match GetEnv(env, "DOCS_API_INDEX_SNAPSHOT_PATH")
    case None => None
    case Some(raw) => if raw == "" || Strip(raw) == "" then None else Some(ExpandUser(PathOf(raw), home))
  }

  /** The six numbers and the flag `from_env` parses from the environment. */
  datatype Numbers = Numbers(
    chunkWords: int,
    chunkOverlapWords: int,
    routerMaxDocsets: int,
    bm25TopK: int,
    vectorTopK: int,
    resultsTopK: int,
    autoIndex: bool)

  /** The parsing half of `from_env`: the numbers, then the flag, each with
      its default, the first failure raising. */
  function ReadNumbers(env: Env): Result<Numbers, ConfigError> {
    var chunkWords :- EnvInt(env, "DOCS_API_CHUNK_WORDS", 280);
    var chunkOverlapWords :- EnvInt(env, "DOCS_API_CHUNK_OVERLAP_WORDS", 60);
    var routerMaxDocsets :- EnvInt(env, "DOCS_API_ROUTER_MAX_DOCSETS", 3);
    var bm25TopK :- EnvInt(env, "DOCS_API_BM25_TOP_K", 20);
    var vectorTopK :- EnvInt(env, "DOCS_API_VECTOR_TOP_K", 20);
    var resultsTopK :- EnvInt(env, "DOCS_API_RESULTS_TOP_K", 8);
    var autoIndex :- EnvBool(env, "DOCS_API_AUTO_INDEX", true);
    Ok(Numbers(chunkWords, chunkOverlapWords, routerMaxDocsets, bm25TopK, vectorTopK, resultsTopK, autoIndex))
  }

  /** The validation half of `from_env`, in the order of its checks. */
  function Check(n: Numbers): Result<Numbers, ConfigError> {
    if n.chunkWords <= 0 then Err(ChunkWordsNotPositive)
    else if n.chunkOverlapWords < 0 then Err(ChunkOverlapNegative)
    else if n.chunkOverlapWords >= n.chunkWords then Err(ChunkOverlapTooLarge)
    else if n.routerMaxDocsets <= 0 then Err(RouterMaxDocsetsNotPositive)
    else if n.resultsTopK <= 0 then Err(ResultsTopKNotPositive)
    else Ok(n)
  }

  /** What `from_env` checks of the numbers. */
  predicate Consistent(n: Numbers) {
    && n.chunkWords > 0
    && 0 <= n.chunkOverlapWords < n.chunkWords
    && n.routerMaxDocsets > 0
    && n.resultsTopK > 0
  }

  predicate Valid(s: Settings) {
    && s.chunkWords > 0
    && 0 <= s.chunkOverlapWords < s.chunkWords
    && s.routerMaxDocsets > 0
    && s.resultsTopK > 0
  }

  /** `Settings.from_env()`, given the environment, the default docsets
      file (next to the module) and the user's home directory. */
  function FromEnv(env: Env, defaultDocsetsFile: string, home: string): Result<Settings, ConfigError> {
    var numbers :- ReadNumbers(env);
    var n :- Check(numbers);
    Ok(Settings(
      PathOf(GetEnvOr(env, "DOCS_API_DOCSETS_FILE", defaultDocsetsFile)),
      GetEnv(env, "DOCS_API_TOKEN"),
      GetEnvOr(env, "DOCS_API_EMBEDDING_MODEL", DefaultEmbeddingModel),
      PathOf(GetEnvOr(env, "DOCS_API_EMBEDDING_CACHE_DIR", DefaultCacheDir(home))),
      SnapshotPath(env, home),
      n.chunkWords, n.chunkOverlapWords, n.routerMaxDocsets, n.bm25TopK, n.vectorTopK, n.resultsTopK,
      n.autoIndex))
  }

  // ---------------------------------------------------------------------
  // `_env_bool`

  /** An unset variable gives the default. */
  lemma EnvBoolUnset(env: Env, name: string, default: bool)
    requires name !in env
    ensures EnvBool(env, name, default) == Ok(default)
  {
  }

  /** The truthy and falsy words share none, so a normalised value is
      read as exactly one boolean or as neither. */
  lemma BoolWordSets(value: string)
    ensures BoolWord(value) == Some(true) <==> value in TruthyWords
    ensures BoolWord(value) == Some(false) <==> value in FalsyWords
    ensures BoolWord(value) == None <==> value !in TruthyWords && value !in FalsyWords
  {
    if value in TruthyWords {
      assert value !in FalsyWords by {
        assert forall t, f :: t in TruthyWords && f in FalsyWords ==> t != f;
      }
    }
  }

  /** A set variable gives `True` exactly for the truthy words, `False`
      exactly for the falsy words (after strip and lowercasing), and raises
      for anything else. */
  lemma EnvBoolSet(env: Env, name: string, default: bool)
    requires name in env
    ensures var value := Lower(Strip(env[name]));
      && (EnvBool(env, name, default) == Ok(true) <==> value in TruthyWords)
      && (EnvBool(env, name, default) == Ok(false) <==> value in FalsyWords)
      && (EnvBool(env, name, default) == Err(InvalidBool(name, env[name])) <==>
          (value !in TruthyWords && value !in FalsyWords))
  {
    BoolWordSets(Lower(Strip(env[name])));
  }

  /** Surrounding whitespace and the case of ASCII letters do not change
      what `_env_bool` decides: any `raw2` that lowercases like `raw`,
      padded with whitespace, is read the same way. */
  lemma EnvBoolTolerant(env: Env, name: string, default: bool,
                        raw: string, raw2: string, pre: string, post: string)
    requires AllSpaces(pre) && AllSpaces(post) && Lower(raw2) == Lower(raw)
    ensures var r1 := EnvBool(env[name := raw], name, default);
      var r2 := EnvBool(env[name := pre + raw2 + post], name, default);
      r1.Ok? == r2.Ok? && (r1.Ok? ==> r1.value == r2.value)
  {
    var padded := pre + raw2 + post;
    StripPadded(pre, raw2, post);
    StripLower(raw2);
    StripLower(raw);
    assert Lower(Strip(padded)) == Lower(Strip(raw));
    EnvBoolOf(env, name, default, raw);
    EnvBoolOf(env, name, default, padded);
  }

  /** A set variable is read through its normalised word alone. */
  lemma EnvBoolOf(env: Env, name: string, default: bool, raw: string)
    ensures var b := BoolWord(Lower(Strip(raw)));
      var r := EnvBool(env[name := raw], name, default);
      r.Ok? == b.Some? && (r.Ok? ==> r.value == b.value)
  {
    assert GetEnv(env[name := raw], name) == Some(raw);
  }

  // ---------------------------------------------------------------------
  // `Settings.from_env`

  /** The checks pass exactly for consistent numbers, which they keep. */
  lemma CheckConsistent(n: Numbers)
    ensures Check(n).Ok? <==> Consistent(n)
    ensures Check(n).Ok? ==> Check(n).value == n
  {
  }

  /** Every record `from_env` returns passes its checks: positive chunk size,
      an overlap in `[0, chunk_words)`, positive router and result limits. */
  lemma FromEnvValid(env: Env, defaultDocsetsFile: string, home: string)
    requires FromEnv(env, defaultDocsetsFile, home).Ok?
    ensures Valid(FromEnv(env, defaultDocsetsFile, home).value)
  {
    CheckConsistent(ReadNumbers(env).value);
  }

  /** `from_env` succeeds exactly when all numbers and the flag parse and
      the numbers pass the checks. */
  lemma FromEnvSucceeds(env: Env, defaultDocsetsFile: string, home: string)
    ensures FromEnv(env, defaultDocsetsFile, home).Ok?
        <==> ReadNumbers(env).Ok? && Consistent(ReadNumbers(env).value)
  {
    if ReadNumbers(env).Ok? {
      CheckConsistent(ReadNumbers(env).value);
    }
  }

  /** The first failing variable decides the error: a bad chunk size is
      reported, with its raw text, before anything read after it. */
  lemma FromEnvFirstError(env: Env, defaultDocsetsFile: string, home: string)
    requires "DOCS_API_CHUNK_WORDS" in env && ParseInt(env["DOCS_API_CHUNK_WORDS"]).None?
    ensures FromEnv(env, defaultDocsetsFile, home)
         == Err(InvalidInt("DOCS_API_CHUNK_WORDS", env["DOCS_API_CHUNK_WORDS"]))
  {
  }

  /** Reading a number with an integer default is `int` of the variable or
      of the default's decimal text. */
  lemma EnvIntIsText(env: Env, name: string, default: int)
    ensures EnvInt(env, name, default) == EnvIntText(env, name, Show(default))
  {
    ParseShow(default);
  }

  /** The defaults are the decimal texts `from_env` passes to `os.getenv`. */
  lemma DefaultTexts()
    ensures Show(280) == "280" && Show(60) == "60" && Show(3) == "3"
    ensures Show(20) == "20" && Show(8) == "8"
  {
  }

  /** Setting one variable leaves what is read from every other one as it was. */
  lemma EnvIntOther(env: Env, key: string, raw: string, name: string, default: int)
    requires key != name
    ensures EnvInt(env[key := raw], name, default) == EnvInt(env, name, default)
  {
  }

  lemma EnvBoolOther(env: Env, key: string, raw: string, name: string, default: bool)
    requires key != name
    ensures EnvBool(env[key := raw], name, default) == EnvBool(env, name, default)
  {
  }

  /** A variable set to the decimal text of `v` is read as `v`. */
  lemma EnvIntShown(env: Env, name: string, v: int, default: int)
    ensures EnvInt(env[name := Show(v)], name, default) == Ok(v)
  {
    ParseShow(v);
  }

  /** The limits of the two retrievers are not checked: setting them to any
      number, zero or negative included, neither makes `from_env` fail nor
      changes anything else, and the numbers are kept as they are. */
  lemma TopKNotValidated(env: Env, bm25: int, vector: int)
    requires ReadNumbers(env).Ok? && Consistent(ReadNumbers(env).value)
    ensures var env2 := env["DOCS_API_BM25_TOP_K" := Show(bm25)]["DOCS_API_VECTOR_TOP_K" := Show(vector)];
      && ReadNumbers(env2) == Ok(ReadNumbers(env).value.(bm25TopK := bm25, vectorTopK := vector))
      && Consistent(ReadNumbers(env2).value)
  {
    SetBm25TopK(env, bm25);
    SetVectorTopK(env["DOCS_API_BM25_TOP_K" := Show(bm25)], vector);
  }

  /** Setting `DOCS_API_BM25_TOP_K` to the text of `v` changes only that number. */
  lemma SetBm25TopK(env: Env, v: int)
    requires ReadNumbers(env).Ok?
    ensures ReadNumbers(env["DOCS_API_BM25_TOP_K" := Show(v)]) == Ok(ReadNumbers(env).value.(bm25TopK := v))
  {
    var key := "DOCS_API_BM25_TOP_K";
    var n := ReadNumbers(env).value;
    ReadNumbersOk(env);
    EnvIntShown(env, key, v, 20);
    EnvIntOther(env, key, Show(v), "DOCS_API_CHUNK_WORDS", 280);
    EnvIntOther(env, key, Show(v), "DOCS_API_CHUNK_OVERLAP_WORDS", 60);
    EnvIntOther(env, key, Show(v), "DOCS_API_ROUTER_MAX_DOCSETS", 3);
    EnvIntOther(env, key, Show(v), "DOCS_API_VECTOR_TOP_K", 20);
    EnvIntOther(env, key, Show(v), "DOCS_API_RESULTS_TOP_K", 8);
    EnvBoolOther(env, key, Show(v), "DOCS_API_AUTO_INDEX", true);
    ReadNumbersOf(env[key := Show(v)], n.(bm25TopK := v));
  }

  /** Setting `DOCS_API_VECTOR_TOP_K` to the text of `v` changes only that number. */
  lemma SetVectorTopK(env: Env, v: int)
    requires ReadNumbers(env).Ok?
    ensures ReadNumbers(env["DOCS_API_VECTOR_TOP_K" := Show(v)]) == Ok(ReadNumbers(env).value.(vectorTopK := v))
  {
    var key := "DOCS_API_VECTOR_TOP_K";
    var n := ReadNumbers(env).value;
    ReadNumbersOk(env);
    EnvIntShown(env, key, v, 20);
    EnvIntOther(env, key, Show(v), "DOCS_API_CHUNK_WORDS", 280);
    EnvIntOther(env, key, Show(v), "DOCS_API_CHUNK_OVERLAP_WORDS", 60);
    EnvIntOther(env, key, Show(v), "DOCS_API_ROUTER_MAX_DOCSETS", 3);
    EnvIntOther(env, key, Show(v), "DOCS_API_BM25_TOP_K", 20);
    EnvIntOther(env, key, Show(v), "DOCS_API_RESULTS_TOP_K", 8);
    EnvBoolOther(env, key, Show(v), "DOCS_API_AUTO_INDEX", true);
    ReadNumbersOf(env[key := Show(v)], n.(vectorTopK := v));
  }

  /** A successful read has read every variable successfully, in its field. */
  lemma ReadNumbersOk(env: Env)
    requires ReadNumbers(env).Ok?
    ensures var n := ReadNumbers(env).value;
      && EnvInt(env, "DOCS_API_CHUNK_WORDS", 280) == Ok(n.chunkWords)
      && EnvInt(env, "DOCS_API_CHUNK_OVERLAP_WORDS", 60) == Ok(n.chunkOverlapWords)
      && EnvInt(env, "DOCS_API_ROUTER_MAX_DOCSETS", 3) == Ok(n.routerMaxDocsets)
      && EnvInt(env, "DOCS_API_BM25_TOP_K", 20) == Ok(n.bm25TopK)
      && EnvInt(env, "DOCS_API_VECTOR_TOP_K", 20) == Ok(n.vectorTopK)
      && EnvInt(env, "DOCS_API_RESULTS_TOP_K", 8) == Ok(n.resultsTopK)
      && EnvBool(env, "DOCS_API_AUTO_INDEX", true) == Ok(n.autoIndex)
  {
  }

  /** When every variable reads successfully, the numbers are what was read. */
  lemma ReadNumbersOf(env: Env, n: Numbers)
    requires EnvInt(env, "DOCS_API_CHUNK_WORDS", 280) == Ok(n.chunkWords)
    requires EnvInt(env, "DOCS_API_CHUNK_OVERLAP_WORDS", 60) == Ok(n.chunkOverlapWords)
    requires EnvInt(env, "DOCS_API_ROUTER_MAX_DOCSETS", 3) == Ok(n.routerMaxDocsets)
    requires EnvInt(env, "DOCS_API_BM25_TOP_K", 20) == Ok(n.bm25TopK)
    requires EnvInt(env, "DOCS_API_VECTOR_TOP_K", 20) == Ok(n.vectorTopK)
    requires EnvInt(env, "DOCS_API_RESULTS_TOP_K", 8) == Ok(n.resultsTopK)
    requires EnvBool(env, "DOCS_API_AUTO_INDEX", true) == Ok(n.autoIndex)
    ensures ReadNumbers(env) == Ok(n)
  {
  }

  /** With none of its variables set, `from_env` uses chunks of 280 words
      overlapping by 60, 3 docsets, 20 + 20 retrieval candidates, 8 results
      and automatic indexing, and these defaults pass its checks. */
  lemma FromEnvDefaults(defaultDocsetsFile: string, home: string)
    ensures FromEnv(map[], defaultDocsetsFile, home)
         == Ok(Settings(
              PathOf(defaultDocsetsFile), None, DefaultEmbeddingModel,
              PathOf(DefaultCacheDir(home)), None,
              280, 60, 3, 20, 20, 8, true))
  {
  }
}
