/**
 * The front end's helper that turns a path the server returns into a URL the
 * browser can load. The build mode and the configured development base URL
 * are parameters.
 */
module FileUrl {
  import opened Wrappers
  import opened Text

  /** A path that is already an absolute web address. */
  predicate HasScheme(p: string) {
    StartsWith(p, "http://") || StartsWith(p, "https://")
  }

  /**
   * `getFullUrl`: no URL for a missing or empty path; an absolute address as
   * it is; in development with a base URL configured, the base followed by
   * the path; otherwise the path itself, relative to the page's own origin.
   */
  function FullUrl(path: Option<string>, dev: bool, devBase: Option<string>): (r: Option<string>)
    ensures r.None? <==> path.None? || path.value == ""
    ensures r.Some? ==> EndsWith(r.value, path.value)
    ensures r.Some? && (HasScheme(path.value) || !dev || devBase.None? || devBase.value == "") ==> r.value == path.value
    ensures r.Some? && !HasScheme(path.value) && dev && devBase.Some? && devBase.value != "" ==>
      r.value == devBase.value + path.value
  {
    if path.None? || path.value == "" then None
    else if HasScheme(path.value) then Some(path.value)
    else if dev && devBase.Some? && devBase.value != "" then
      assert (devBase.value + path.value)[|devBase.value|..] == path.value;
      Some(devBase.value + path.value)
    else Some(path.value)
  }

  /** A prefix that is an absolute address makes the whole string one. */
  lemma SchemeOfPrefix(a: string, b: string)
    requires HasScheme(a)
    ensures HasScheme(a + b)
  {
    if StartsWith(a, "http://") {
      assert (a + b)[..7] == a[..7];
    } else {
      assert (a + b)[..8] == a[..8];
    }
  }

  /**
   * Applying the helper to its own result changes nothing when the base is
   * unset or is itself an absolute address: a URL is never prefixed twice.
   */
  lemma FullUrlIdempotent(path: Option<string>, dev: bool, devBase: Option<string>)
    requires devBase.None? || devBase.value == "" || HasScheme(devBase.value)
    ensures FullUrl(FullUrl(path, dev, devBase), dev, devBase) == FullUrl(path, dev, devBase)
  {
    var r := FullUrl(path, dev, devBase);
    if r.Some? && r.value != path.value {
      SchemeOfPrefix(devBase.value, path.value);
    }
  }

  /** Outside development, or without a base, every non-empty path stays relative. */
  lemma ProductionKeepsPaths(path: string, devBase: Option<string>)
    requires path != ""
    ensures FullUrl(Some(path), false, devBase) == Some(path)
    ensures FullUrl(Some(path), true, None) == Some(path)
  {
  }
}
