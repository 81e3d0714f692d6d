/**
 * The database URL the backend connects to (backend/database.py): the environment's value
 * or a local SQLite default, with the legacy `postgres://` scheme rewritten to the async
 * driver's scheme. The engine and its sessions are not part of this model.
 */
module DatabaseUrl {
  import opened Wrappers
  import opened Text

  const DefaultUrl: string := "sqlite+aiosqlite:///./echat.db"
  const LegacyScheme: string := "postgres://"
  const AsyncScheme: string := "postgresql+asyncpg://"

  /** Python's `s.replace(pat, repl, 1)` for a non-empty `pat`: the first occurrence replaced. */
  function ReplaceFirst(s: string, pat: string, repl: string): (r: string)
    requires pat != ""
    ensures StartsWith(s, pat) ==> r == repl + s[|pat|..]
    ensures !Contains(s, pat) ==> r == s
    decreases |s|
  {
    if StartsWith(s, pat) then
      assert OccursAt(s, pat, 0);
      repl + s[|pat|..]
    else if s == [] then s
    else
      var rest := ReplaceFirst(s[1..], pat, repl);
      assert !Contains(s, pat) ==> !Contains(s[1..], pat) by {
        if Contains(s[1..], pat) {
          var i :| 0 <= i <= |s[1..]| && OccursAt(s[1..], pat, i);
          assert OccursAt(s, pat, i + 1);
        }
      }
      [s[0]] + rest
  }

  /** `os.getenv("DATABASE_URL", default)`: the variable's value when it is set, else the default. */
  function FromEnvironment(env: Option<string>): (r: string)
    ensures env.None? ==> r == DefaultUrl
    ensures env.Some? ==> r == env.value
  {
    env.GetOr(DefaultUrl)
  }

  /** The rewrite: a URL with the legacy scheme gets the async scheme and keeps the rest; any other URL is kept. */
  function Rewrite(url: string): (r: string)
    ensures StartsWith(url, LegacyScheme) ==> r == AsyncScheme + url[|LegacyScheme|..]
    ensures !StartsWith(url, LegacyScheme) ==> r == url
  {
    if StartsWith(url, LegacyScheme) then ReplaceFirst(url, LegacyScheme, AsyncScheme) else url
  }

  /** `DATABASE_URL` as the module computes it. */
  function DatabaseUrl(env: Option<string>): (url: string)
    ensures !StartsWith(url, LegacyScheme)
    ensures env.None? ==> url == DefaultUrl
    ensures env.Some? && !StartsWith(env.value, LegacyScheme) ==> url == env.value
    ensures env.Some? && StartsWith(env.value, LegacyScheme) ==> url == AsyncScheme + env.value[|LegacyScheme|..]
  {
    var u := FromEnvironment(env);
    assert !StartsWith(DefaultUrl, LegacyScheme) by { assert DefaultUrl[1] != LegacyScheme[1]; }
    if StartsWith(u, LegacyScheme) then
      AsyncSchemeIsNotLegacy(u[|LegacyScheme|..]);
      Rewrite(u)
    else
      Rewrite(u)
  }

  /** A rewritten URL no longer has the legacy scheme. */
  lemma AsyncSchemeIsNotLegacy(rest: string)
    ensures !StartsWith(AsyncScheme + rest, LegacyScheme)
  {
    assert (AsyncScheme + rest)[8] == 'q';
  }

  /** Rewriting twice is rewriting once. */
  lemma RewriteIdempotent(url: string)
    ensures Rewrite(Rewrite(url)) == Rewrite(url)
  {
    if StartsWith(url, LegacyScheme) {
      AsyncSchemeIsNotLegacy(url[|LegacyScheme|..]);
    }
  }

  /** A URL that already names `postgresql://` is left as it is, and so is the default. */
  lemma OtherSchemesUnchanged(rest: string)
    ensures Rewrite("postgresql://" + rest) == "postgresql://" + rest
    ensures DatabaseUrl(None) == DefaultUrl
  {
    assert ("postgresql://" + rest)[8] == 'q';
    assert DefaultUrl[0] == 's';
  }

  /** The rewrite keeps everything after the scheme: host, credentials, path and query. */
  lemma RewriteKeepsRemainder(rest: string)
    ensures Rewrite(LegacyScheme + rest) == AsyncScheme + rest
  {
    assert (LegacyScheme + rest)[..|LegacyScheme|] == LegacyScheme;
    assert (LegacyScheme + rest)[|LegacyScheme|..] == rest;
  }
}
