/**
 * Configuration parsing of app/config/config.py. The environment is a map from variable
 * names to their values; the keyword file is what reading it yields.
 */
module Config {
  import opened Wrappers
  import opened Text
  import opened Json
  import Settings

  type Env = map<string, string>

  /** os.getenv(name, default). */
  function GetEnv(env: Env, name: string, default: string): string {
    if name in env then env[name] else default
  }

  /** _EnvBool: the same rule as _env_bool of app/core/settings.py. */
  function EnvBool(value: Option<string>, default: bool): (r: bool)
    ensures r == Settings.EnvBool(value, default)
  {
    if value.None? then default else Lower(Strip(value.value)) in Settings.TrueWords
  }

  // ---------------------------------------------------------------------------
  // _BuildBaseUrlFromParts
  // ---------------------------------------------------------------------------

  /** LLM_SCHEME stripped, "http" when it is unset or blank. */
  function Scheme(env: Env): (r: string)
    ensures r != ""
    ensures "LLM_SCHEME" !in env ==> r == "http"
    ensures "LLM_SCHEME" in env && Strip(env["LLM_SCHEME"]) == "" ==> r == "http"
    ensures "LLM_SCHEME" in env && Strip(env["LLM_SCHEME"]) != "" ==> r == Strip(env["LLM_SCHEME"])
  {
    if "LLM_SCHEME" !in env then StripUnpadded("http"); "http"
    else
      var s := Strip(GetEnv(env, "LLM_SCHEME", "http"));
      if s == "" then "http" else s
  }

  /** A setting as _BuildBaseUrlFromParts reads it: stripped, "" when unset. */
  function Setting(env: Env, name: string): string {
    Strip(GetEnv(env, name, ""))
  }

  /**
   * _BuildBaseUrlFromParts: a non-blank LLM_BASE_URL wins; otherwise scheme://host[:port] from
   * LLM_SCHEME, LLM_HOST and LLM_PORT, or "" without a host.
   */
  function BuildBaseUrlFromParts(env: Env): (r: string)
    ensures Setting(env, "LLM_BASE_URL") != "" ==> r == Setting(env, "LLM_BASE_URL")
    ensures Setting(env, "LLM_BASE_URL") == "" ==> (r == "" <==> Setting(env, "LLM_HOST") == "")
    ensures Setting(env, "LLM_BASE_URL") == "" && Setting(env, "LLM_HOST") != "" && Setting(env, "LLM_PORT") == "" ==>
              r == Scheme(env) + "://" + Setting(env, "LLM_HOST")
    ensures Setting(env, "LLM_BASE_URL") == "" && Setting(env, "LLM_HOST") != "" && Setting(env, "LLM_PORT") != "" ==>
              r == Scheme(env) + "://" + Setting(env, "LLM_HOST") + ":" + Setting(env, "LLM_PORT")
  {
    var baseUrl := Setting(env, "LLM_BASE_URL");
    if baseUrl != "" then baseUrl
    else
      var host := Setting(env, "LLM_HOST");
      if host == "" then ""
      else
        var scheme := Scheme(env);
        var port := Setting(env, "LLM_PORT");
        if port != "" then scheme + "://" + host + ":" + port
        else scheme + "://" + host
  }

  /** Without a base URL and a scheme, a host gives an http URL. */
  lemma DefaultSchemeIsHttp(env: Env)
    requires Setting(env, "LLM_BASE_URL") == "" && Setting(env, "LLM_HOST") != ""
    requires "LLM_SCHEME" !in env
    ensures StartsWith(BuildBaseUrlFromParts(env), "http://")
  {
    if Setting(env, "LLM_PORT") == "" {
      HttpPrefix(BuildBaseUrlFromParts(env), Scheme(env), Setting(env, "LLM_HOST"));
    } else {
      HttpPrefixWithPort(BuildBaseUrlFromParts(env), Scheme(env), Setting(env, "LLM_HOST"), Setting(env, "LLM_PORT"));
    }
  }

  lemma HttpPrefix(r: string, scheme: string, host: string)
    requires scheme == "http" && r == scheme + "://" + host
    ensures StartsWith(r, "http://")
  {
    assert r == "http://" + host;
  }

  lemma HttpPrefixWithPort(r: string, scheme: string, host: string, port: string)
    requires scheme == "http" && r == scheme + "://" + host + ":" + port
    ensures StartsWith(r, "http://")
  {
    assert r == "http://" + (host + ":" + port);
  }

  /** With a base URL set, host, scheme and port are ignored. */
  lemma BaseUrlIgnoresParts(env1: Env, env2: Env)
    requires GetEnv(env1, "LLM_BASE_URL", "") == GetEnv(env2, "LLM_BASE_URL", "")
    requires Setting(env1, "LLM_BASE_URL") != ""
    ensures BuildBaseUrlFromParts(env1) == BuildBaseUrlFromParts(env2)
  {
  }

  // ---------------------------------------------------------------------------
  // _LoadToolKeywordMap
  // ---------------------------------------------------------------------------

  /** What opening and json.load-ing the keyword file gives. */
  datatype KeywordFile =
    | Absent                // os.path.exists is false
    | ReadFailed            // OSError or json.JSONDecodeError
    | Loaded(data: Json)

  /** [str(item) for item in value if item]. */
  function Keywords(items: seq<Json>): (r: seq<string>)
    ensures |r| <= |items|
    ensures forall i :: 0 <= i < |r| ==> r[i] != ""
    ensures |items| == 1 ==> r == if Truthy(items[0]) then [PyStr(items[0])] else []
  {
    if items == [] then []
    else (if Truthy(items[0]) then [PyStr(items[0])] else []) + Keywords(items[1..])
  }

  /** The keyword list of a concatenation is the concatenation of the keyword lists: the order is kept. */
  lemma {:induction false} KeywordsAppend(a: seq<Json>, b: seq<Json>)
    ensures Keywords(a + b) == Keywords(a) + Keywords(b)
  {
    if a != [] {
      assert (a + b)[1..] == a[1..] + b;
      KeywordsAppend(a[1..], b);
    } else {
      assert a + b == b;
    }
  }

  /** The normalised map of the given items: the loop's state after the prefix data[..i]. */
  function KeywordMap(data: seq<(string, Json)>): seq<(string, seq<string>)> {
    if data == [] then []
    else
      var rest := KeywordMap(data[..|data| - 1]);
      var (key, value) := data[|data| - 1];
      if value.JList? then Put(rest, key, Keywords(value.items)) else rest
  }

  /** Every list-valued key is kept with its keyword list; every other key is dropped. */
  lemma {:induction false} KeywordMapGet(data: seq<(string, Json)>, k: string)
    requires DistinctKeys(data)
    ensures Get(KeywordMap(data), k) == if Get(data, k).Some? && Get(data, k).value.JList?
                                        then Some(Keywords(Get(data, k).value.items)) else None
  {
    if data != [] {
      var init := data[..|data| - 1];
      var (key, value) := data[|data| - 1];
      assert data == init + [(key, value)];
      assert DistinctKeys(init);
      KeywordMapGet(init, k);
      GetSnoc(init, key, value, k);
      if key == k {
        assert k !in Keys(init) by {
          forall i | 0 <= i < |init| ensures Keys(init)[i] != k {
            assert data[i].0 != data[|data| - 1].0;
          }
        }
        if value.JList? {
          GetPutSame(KeywordMap(init), key, Keywords(value.items));
        }
      } else if value.JList? {
        GetPutOther(KeywordMap(init), key, Keywords(value.items), k);
      }
    }
  }

  /** The loop of _LoadToolKeywordMap over data.items(). */
  method NormalizeKeywordMap(data: seq<(string, Json)>) returns (normalized: seq<(string, seq<string>)>)
    ensures normalized == KeywordMap(data)
  {
    normalized := [];
    for i := 0 to |data|
      invariant normalized == KeywordMap(data[..i])
    {
      assert data[..i + 1][..i] == data[..i];
      var (key, value) := data[i];
      if !value.JList? {
        continue;
      }
      normalized := Put(normalized, key, Keywords(value.items));
    }
    assert data[..|data|] == data;
  }

  /** _LoadToolKeywordMap: {} for an empty path, a missing or unreadable file, or a top level that is no dict. */
  method LoadToolKeywordMap(path: string, file: KeywordFile) returns (r: seq<(string, seq<string>)>)
    ensures path == "" || !file.Loaded? || !file.data.JObject? ==> r == []
    ensures path != "" && file.Loaded? && file.data.JObject? ==> r == KeywordMap(file.data.fields)
  {
    if path == "" {
      return [];
    }
    match file
    case Absent =>
      return [];
    case ReadFailed =>
      return [];
    case Loaded(data) =>
      if !data.JObject? {
        return [];
      }
      r := NormalizeKeywordMap(data.fields);
  }
}
