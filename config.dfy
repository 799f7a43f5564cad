/** `Settings.ASYNC_DATABASE_URL`: the asyncpg connection URL, taken from
    `DATABASE_URL` with its scheme rewritten, or assembled from the five
    `POSTGRES_*` settings; and the reverse rewrite the migrations apply to
    get a synchronous URL back. */
module Config {
  import opened Wrappers
  import opened Text

  const SYNC_SCHEME: string := "postgresql://"
  const ASYNC_SCHEME: string := "postgresql+asyncpg://"

  /** The database settings read from the environment; each may be unset. */
  datatype Settings = Settings(
    databaseUrl: Option<string>,
    user: Option<string>,
    password: Option<string>,
    host: Option<string>,
    port: Option<string>,
    db: Option<string>)

  /** `all([...])` over the five `POSTGRES_*` settings. */
  predicate AllFieldsSet(s: Settings) {
    NonEmpty(s.user) && NonEmpty(s.password) && NonEmpty(s.host) && NonEmpty(s.port) && NonEmpty(s.db)
  }

  /** `url.replace("postgresql://", "postgresql+asyncpg://")`. */
  function ToAsync(url: string): string {
    ReplaceAll(url, SYNC_SCHEME, ASYNC_SCHEME)
  }

  /** `url.replace("postgresql+asyncpg://", "postgresql://")`, the rewrite
      the migrations apply to the asynchronous URL. */
  function ToSync(url: string): string {
    ReplaceAll(url, ASYNC_SCHEME, SYNC_SCHEME)
  }

  /** `ASYNC_DATABASE_URL`: a non-empty `DATABASE_URL` wins and the
      `POSTGRES_*` settings are then ignored; otherwise all five must be set,
      or the property raises `ValueError`. */
  function AsyncDatabaseUrl(s: Settings): (r: Result<string>)
    ensures r.Err? <==> !NonEmpty(s.databaseUrl) && !AllFieldsSet(s)
    ensures r.Err? ==> r.error == ValueError
    ensures r.Ok? ==> |r.value| > 0
    ensures r.Ok? && !NonEmpty(s.databaseUrl) ==> StartsWith(r.value, ASYNC_SCHEME)
  {
    if NonEmpty(s.databaseUrl) then
      ToAsyncNonEmpty(s.databaseUrl.value);
      Ok(ToAsync(s.databaseUrl.value))
    else if !AllFieldsSet(s) then Err(ValueError)
    else
      Ok(ASYNC_SCHEME + s.user.value + ":" + s.password.value + "@" + s.host.value + ":" + s.port.value + "/" + s.db.value)
  }

  lemma ToAsyncNonEmpty(url: string)
    requires |url| > 0
    ensures |ToAsync(url)| > 0
  {
  }

  /** With `DATABASE_URL` set, the result depends on it alone. */
  lemma UrlOverridesFields(s: Settings, t: Settings)
    requires NonEmpty(s.databaseUrl) && t.databaseUrl == s.databaseUrl
    ensures AsyncDatabaseUrl(s) == AsyncDatabaseUrl(t)
  {
  }

  predicate NoP(w: string) {
    forall i :: 0 <= i < |w| ==> w[i] != 'p'
  }

  /** A prefix is its first character followed by a prefix of the tail. */
  lemma HeadSlice(t: string, k: int)
    requires 0 < k <= |t|
    ensures t[..k] == [t[0]] + t[1..][..k - 1]
  {
    forall q | 0 <= q < k ensures t[..k][q] == ([t[0]] + t[1..][..k - 1])[q] {
      if q > 0 {
        assert ([t[0]] + t[1..][..k - 1])[q] == t[1..][q - 1];
      }
    }
  }

  /** A slice past the first character of `[c] + s` is a slice of `s`. */
  lemma ConsSlice(c: char, s: string, a: int, b: int)
    requires 1 <= a <= b <= |s| + 1
    ensures ([c] + s)[a..b] == s[a - 1..b - 1]
  {
    forall q | 0 <= q < b - a ensures ([c] + s)[a..b][q] == s[a - 1..b - 1][q] {
      assert ([c] + s)[a + q] == s[a - 1 + q];
    }
  }

  /** A prefix without a `p` of the rewritten text was copied from the
      original: no scheme was rewritten inside it, and the rest of the
      rewritten text is the rewrite of the rest of the original. */
  lemma {:induction false} PrefixNoP(t: string, w: string)
    requires NoP(w)
    ensures |w| <= |ToAsync(t)| && ToAsync(t)[..|w|] == w ==>
      |w| <= |t| && t[..|w|] == w && ToAsync(t)[|w|..] == ToAsync(t[|w|..])
    decreases |t|
  {
    if |w| > 0 && |t| >= |SYNC_SCHEME| && t[..|SYNC_SCHEME|] != SYNC_SCHEME {
      var rest := ToAsync(t[1..]);
      var r := ToAsync(t);
      assert r == [t[0]] + rest;
      PrefixNoP(t[1..], w[1..]);
      if |w| <= |r| && r[..|w|] == w {
        HeadSlice(r, |w|);
        assert r[1..] == rest;
        assert w[1..] == rest[..|w| - 1];
        HeadSlice(t, |w|);
        assert t[1..][|w| - 1..] == t[|w|..];
        assert r[|w|..] == rest[|w| - 1..];
      }
    } else if |w| > 0 && |t| >= |SYNC_SCHEME| {
      assert ToAsync(t)[0] == 'p';
    } else if |w| == 0 {
      assert t[0..] == t;
    }
  }

  /** No "postgresql://" survives the rewrite. */
  lemma {:induction false} NoSyncAfterRewrite(t: string)
    ensures !Contains(ToAsync(t), SYNC_SCHEME)
    decreases |t|
  {
    var n := |SYNC_SCHEME|;
    if |t| < n {
      assert ToAsync(t) == t;
    } else if t[..n] == SYNC_SCHEME {
      NoSyncAfterRewrite(t[n..]);
      assert ToAsync(t) == ASYNC_SCHEME + ToAsync(t[n..]);
      NoSyncAfterAsyncScheme(ToAsync(t[n..]));
    } else {
      NoSyncAfterRewrite(t[1..]);
      assert ToAsync(t) == [t[0]] + ToAsync(t[1..]);
      NoSyncAfterCopy(t);
    }
  }

  /** Where "postgresql+asyncpg://" differs from "postgresql://" at each
      offset: only its first and its seventeenth letters are a `p`. */
  lemma AsyncSchemeLetters()
    ensures ASYNC_SCHEME[10] == '+' && SYNC_SCHEME[10] == ':'
    ensures ASYNC_SCHEME[17] == 'g' && SYNC_SCHEME[1] == 'o'
    ensures SYNC_SCHEME[0] == 'p'
    ensures forall j :: 0 < j < |ASYNC_SCHEME| && j != 16 ==> ASYNC_SCHEME[j] != 'p'
  {
    var w, tail := "ostgresql+async", "g://";
    assert ASYNC_SCHEME == "p" + w + "p" + tail;
    assert 'p' !in w && 'p' !in tail;
    forall j | 0 < j < |ASYNC_SCHEME| && j != 16 ensures ASYNC_SCHEME[j] != 'p' {
      if j < 16 {
        assert ASYNC_SCHEME[j] == w[j - 1] && w[j - 1] in w;
      } else {
        assert ASYNC_SCHEME[j] == tail[j - 17] && tail[j - 17] in tail;
      }
    }
  }

  /** Putting "postgresql+asyncpg://" in front of a text without
      "postgresql://" creates none. */
  lemma NoSyncAfterAsyncScheme(rest: string)
    requires !Contains(rest, SYNC_SCHEME)
    ensures !Contains(ASYNC_SCHEME + rest, SYNC_SCHEME)
  {
    var n := |SYNC_SCHEME|;
    var r := ASYNC_SCHEME + rest;
    forall i | 0 <= i <= |r| - n ensures !OccursAt(r, SYNC_SCHEME, i) {
      if i >= |ASYNC_SCHEME| {
        assert r[i..i + n] == rest[i - |ASYNC_SCHEME|..i - |ASYNC_SCHEME| + n];
        assert !OccursAt(rest, SYNC_SCHEME, i - |ASYNC_SCHEME|);
      } else {
        AsyncSchemeLetters();
        var k := if i == 0 then 10 else if i == 16 then 1 else 0;
        assert r[i + k] == ASYNC_SCHEME[i + k] != SYNC_SCHEME[k];
        assert r[i..i + n][k] == r[i + k];
      }
    }
  }

  /** A character copied in front of a rewritten rest creates no
      "postgresql://" when the original text did not start with one. */
  lemma NoSyncAfterCopy(t: string)
    requires |t| >= |SYNC_SCHEME| && t[..|SYNC_SCHEME|] != SYNC_SCHEME
    requires !Contains(ToAsync(t[1..]), SYNC_SCHEME)
    ensures !Contains([t[0]] + ToAsync(t[1..]), SYNC_SCHEME)
  {
    var n := |SYNC_SCHEME|;
    var rest := ToAsync(t[1..]);
    var r := [t[0]] + rest;
    forall i | 0 <= i <= |r| - n ensures !OccursAt(r, SYNC_SCHEME, i) {
      if i >= 1 {
        assert r[i..i + n] == rest[i - 1..i - 1 + n];
        assert !OccursAt(rest, SYNC_SCHEME, i - 1);
      } else {
        PrefixNoP(t[1..], SYNC_SCHEME[1..]);
        HeadSlice(r, n);
        assert r[1..] == rest;
        HeadSlice(t, n);
      }
    }
  }

  /** The result taken from `DATABASE_URL` holds no "postgresql://". */
  lemma AsyncUrlHasNoSyncScheme(s: Settings)
    requires NonEmpty(s.databaseUrl)
    ensures !Contains(AsyncDatabaseUrl(s).value, SYNC_SCHEME)
  {
    NoSyncAfterRewrite(s.databaseUrl.value);
  }

  /** Feeding the result back in as `DATABASE_URL` gives it back. */
  lemma AsyncUrlIdempotent(s: Settings)
    requires NonEmpty(s.databaseUrl)
    ensures AsyncDatabaseUrl(s.(databaseUrl := Some(AsyncDatabaseUrl(s).value))) == AsyncDatabaseUrl(s)
  {
    var out := AsyncDatabaseUrl(s).value;
    NoSyncAfterRewrite(s.databaseUrl.value);
    ReplaceAbsent(out, SYNC_SCHEME, ASYNC_SCHEME);
  }

  /** A rewritten text that begins with "pg://" came from one that does. */
  lemma PgPrefix(v: string)
    ensures |ToAsync(v)| >= 5 && ToAsync(v)[..5] == "pg://" ==> |v| >= 5 && v[..5] == "pg://"
  {
    var r := ToAsync(v);
    if |v| >= |SYNC_SCHEME| && v[..|SYNC_SCHEME|] != SYNC_SCHEME {
      var rest := ToAsync(v[1..]);
      assert r == [v[0]] + rest;
      PrefixNoP(v[1..], "g://");
      if |r| >= 5 && r[..5] == "pg://" {
        HeadSlice(r, 5);
        assert r[1..] == rest;
        assert rest[..4] == "pg://"[1..] == "g://";
        HeadSlice(v, 5);
      }
    } else if |v| >= |SYNC_SCHEME| {
      assert r[1] == 'o';
      if |r| >= 5 {
        assert r[..5][1] == r[1];
      }
    }
  }

  /** A rewrite that begins with "postgresql+asyncpg://" comes from a text
      that begins with "postgresql://" or with "postgresql+asyncpg://". */
  lemma StartsAsync(u: string)
    ensures |ToAsync(u)| >= |ASYNC_SCHEME| && ToAsync(u)[..|ASYNC_SCHEME|] == ASYNC_SCHEME ==>
      StartsWith(u, SYNC_SCHEME) || StartsWith(u, ASYNC_SCHEME)
  {
    var r := ToAsync(u);
    var m := |ASYNC_SCHEME|;
    if |u| >= |SYNC_SCHEME| && u[..|SYNC_SCHEME|] != SYNC_SCHEME && |r| >= m && r[..m] == ASYNC_SCHEME {
      var rest := ToAsync(u[1..]);
      assert r == [u[0]] + rest;
      var w := "ostgresql+async";
      AsyncSchemeParts();
      ConsSlice(u[0], rest, 1, 16);
      assert rest[..15] == r[..m][1..16];
      PrefixNoP(u[1..], w);
      HeadSlice(u, 16);
      assert u[0] == r[..m][0];
      StartsAsyncTail(u, rest);
    }
  }

  /** The pieces of "postgresql+asyncpg://" the proof above takes apart. */
  lemma AsyncSchemeParts()
    ensures ASYNC_SCHEME[0] == 'p' && ASYNC_SCHEME[..16] == "p" + "ostgresql+async"
    ensures ASYNC_SCHEME[1..16] == "ostgresql+async" && NoP("ostgresql+async")
    ensures ASYNC_SCHEME[16..21] == "pg://"
  {
    var w := "ostgresql+async";
    assert ASYNC_SCHEME == "p" + w + "pg://";
    assert 'p' !in w;
    forall i | 0 <= i < |w| ensures w[i] != 'p' {
      assert w[i] in w;
    }
  }

  /** The second half of `StartsAsync`: after the copied "ostgresql+async"
      the rewrite continues with "pg://", which the original has too. */
  lemma StartsAsyncTail(u: string, rest: string)
    requires |u| >= 16 && u[..16] == ASYNC_SCHEME[..16] && rest == ToAsync(u[1..])
    requires ToAsync(u) == [u[0]] + rest && |ToAsync(u)| >= |ASYNC_SCHEME|
    requires ToAsync(u)[..|ASYNC_SCHEME|] == ASYNC_SCHEME
    requires rest[15..] == ToAsync(u[1..][15..])
    ensures StartsWith(u, ASYNC_SCHEME)
  {
    var r := ToAsync(u);
    var v := u[1..][15..];
    AsyncSchemeParts();
    ConsSlice(u[0], rest, 16, 21);
    assert r[16..21] == r[..21][16..21];
    assert rest[15..20] == rest[15..][..5];
    PgPrefix(v);
    assert u[..21] == u[..16] + v[..5];
  }

  /** An occurrence in a suffix is an occurrence in the whole. */
  lemma ContainsSuffix(u: string, pat: string, k: nat)
    requires k <= |u| && Contains(u[k..], pat)
    ensures Contains(u, pat)
  {
    var i :| 0 <= i <= |u[k..]| - |pat| && OccursAt(u[k..], pat, i);
    assert u[k..][i..i + |pat|] == u[i + k..i + k + |pat|];
    assert OccursAt(u, pat, i + k);
  }

  /** The migrations' reverse rewrite recovers any URL that did not already
      contain "postgresql+asyncpg://". */
  lemma {:induction false} RewriteRoundTrip(u: string)
    requires !Contains(u, ASYNC_SCHEME)
    ensures ToSync(ToAsync(u)) == u
    decreases |u|
  {
    var n := |SYNC_SCHEME|;
    var m := |ASYNC_SCHEME|;
    if |u| < n {
      assert ToAsync(u) == u;
    } else if u[..n] == SYNC_SCHEME {
      if Contains(u[n..], ASYNC_SCHEME) {
        ContainsSuffix(u, ASYNC_SCHEME, n);
      }
      RewriteRoundTrip(u[n..]);
      var x := ToAsync(u[n..]);
      assert ToAsync(u) == ASYNC_SCHEME + x;
      assert (ASYNC_SCHEME + x)[..m] == ASYNC_SCHEME && (ASYNC_SCHEME + x)[m..] == x;
      assert u == SYNC_SCHEME + u[n..];
    } else {
      if Contains(u[1..], ASYNC_SCHEME) {
        ContainsSuffix(u, ASYNC_SCHEME, 1);
      }
      RewriteRoundTrip(u[1..]);
      var t := ToAsync(u[1..]);
      assert ToAsync(u) == [u[0]] + t;
      StartsAsync(u);
      assert !OccursAt(u, ASYNC_SCHEME, 0);
      assert u == [u[0]] + u[1..];
      if |t| < m - 1 {
        assert ToSync(t) == t;
      } else {
        assert ([u[0]] + t)[1..] == t;
      }
    }
  }

  /** `DATABASE_URL` is recovered from the asynchronous URL by the
      migrations' rewrite, unless it already named the asyncpg driver. */
  lemma AsyncUrlRoundTrip(s: Settings)
    requires NonEmpty(s.databaseUrl) && !Contains(s.databaseUrl.value, ASYNC_SCHEME)
    ensures ToSync(AsyncDatabaseUrl(s).value) == s.databaseUrl.value
  {
    RewriteRoundTrip(s.databaseUrl.value);
  }
}
