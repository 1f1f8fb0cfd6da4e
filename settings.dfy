/** Boolean environment flags of app/core/settings.py. */
module Settings {
  import opened Wrappers
  import opened Text

  /** The texts, after strip() and lower(), that read as true. */
  const TrueWords: set<string> := {"1", "true", "yes", "y", "on"}

  /**
   * _env_bool: `value` is what os.getenv(name) returns. An unset variable gives the default;
   * a set one is true exactly when its stripped, lowered text is a true word, whatever the default.
   */
  function EnvBool(value: Option<string>, default: bool): (r: bool)
    ensures value.None? ==> r == default
    ensures value.Some? ==> (r <==> Lower(Strip(value.value)) in TrueWords)
  {
    if value.None? then default else Lower(Strip(value.value)) in TrueWords
  }

  /** Whitespace around the value and the case of its letters do not change the flag. */
  lemma EnvBoolIgnoresPaddingAndCase(ws1: string, s: string, ws2: string, default: bool)
    requires forall i :: 0 <= i < |ws1| ==> IsSpace(ws1[i])
    requires forall i :: 0 <= i < |ws2| ==> IsSpace(ws2[i])
    ensures EnvBool(Some(ws1 + s + ws2), default) == EnvBool(Some(Lower(s)), default)
  {
    StripIgnoresPadding(ws1, s, ws2);
    StripLowerCommute(s);
    StripLowerCommute(Strip(s));
    StripIdempotent(s);
    LowerIdempotent(Strip(s));
  }

  /** A set but empty variable is false, even when the default is true. */
  lemma SetEmptyIsFalse()
    ensures !EnvBool(Some(""), true)
  {
    assert Strip("") == "";
    assert Lower("") == "";
  }
}
