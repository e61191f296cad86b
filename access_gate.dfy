/**
 * The access gate that runs ahead of page requests (middleware.ts): a routing
 * decision on the request path and the outcome of the session lookup, plus the
 * path matcher that decides which requests the gate sees at all.
 */
module AccessGate {
  import opened Wrappers
  import opened Sessions

  const CallbackPath: string := "/auth/callback"
  const SignInPath: string := "/signin"
  const HomePath: string := "/home"

  /** `NextResponse.next()` or `NextResponse.redirect(<origin> + target)`. */
  datatype GateResult = PassThrough | Redirect(target: string)

  /**
   * The middleware's decision chain. The callback path is decided before the
   * session is looked up; a lookup that throws lands in the catch branch and
   * redirects to sign-in (fail closed); the lookup's `error` field is never read.
   */
  function Middleware(pathname: string, lookup: SessionLookup): (r: GateResult)
    ensures pathname == CallbackPath ==> r == PassThrough
    ensures r.Redirect? ==> r.target == HomePath || r.target == SignInPath
    ensures r == PassThrough <==>
              pathname == CallbackPath
              || (lookup.Returned? && (SignedIn(lookup) <==> pathname != SignInPath))
    ensures r == Redirect(HomePath) <==> pathname == SignInPath && SignedIn(lookup)
    ensures r == Redirect(SignInPath) <==>
              pathname != CallbackPath && (lookup.Threw? || (pathname != SignInPath && !SignedIn(lookup)))
  {
    if pathname == CallbackPath then PassThrough
    else
      match lookup
      case Threw => Redirect(SignInPath)
      case Returned(session, _) =>
        if pathname == SignInPath then
          if session.Some? then Redirect(HomePath) else PassThrough
        else if session.None? then Redirect(SignInPath)
        else PassThrough
  }

  /** On the callback path the session lookup, whatever it would give, plays no part. */
  lemma CallbackIgnoresSession(a: SessionLookup, b: SessionLookup)
    ensures Middleware(CallbackPath, a) == Middleware(CallbackPath, b) == PassThrough
  {
  }

  /** Only the presence of a session matters; the `error` reported beside it does not. */
  lemma SessionErrorIgnored(pathname: string, session: Option<Session>, e1: Option<string>, e2: Option<string>)
    ensures Middleware(pathname, Returned(session, e1)) == Middleware(pathname, Returned(session, e2))
  {
  }

  // ---------------------------------------------------------------------------
  // The matcher `/((?!api|_next/static|_next/image|favicon.ico).*)`, which the
  // framework anchors at both ends of the pathname.

  /** JavaScript line terminators, the characters the regex `.` does not match. */
  predicate IsLineTerminator(c: char)
  {
    c == '\n' || c == '\r' || c == '\U{2028}' || c == '\U{2029}'
  }

  /** One regex source character against one text character: `.` is the wildcard. */
  predicate CharMatches(p: char, c: char)
  {
    if p == '.' then !IsLineTerminator(c) else c == p
  }

  /** The alternatives of the negative lookahead, as regex source text. */
  const ExcludedAlternatives: seq<string> := ["api", "_next/static", "_next/image", "favicon.ico"]

  /** The regex source `pattern` (letters, `/`, `_` and `.` only) matches a prefix of `s`. */
  predicate PrefixMatches(pattern: string, s: string)
  {
    |pattern| <= |s| && forall i :: 0 <= i < |pattern| ==> CharMatches(pattern[i], s[i])
  }

  /** The matcher: the gate runs on a request whose pathname this accepts. */
  predicate GateRunsOn(pathname: string)
  {
    && |pathname| >= 1
    && pathname[0] == '/'
    && (forall k :: 0 <= k < |ExcludedAlternatives| ==> !PrefixMatches(ExcludedAlternatives[k], pathname[1..]))
    && (forall i :: 1 <= i < |pathname| ==> !IsLineTerminator(pathname[i]))
  }

  /** A text starts with the literal `lit`. */
  predicate StartsWith(s: string, lit: string)
  {
    |lit| <= |s| && s[..|lit|] == lit
  }

  /** An alternative without `.` matches exactly when the text starts with it. */
  lemma LiteralAlternative(lit: string, s: string)
    requires forall i :: 0 <= i < |lit| ==> lit[i] != '.'
    ensures PrefixMatches(lit, s) <==> StartsWith(s, lit)
  {
    if PrefixMatches(lit, s) {
      assert s[..|lit|] == lit;
    }
  }

  /**
   * The matcher in plain terms: after the leading `/`, the path must not start
   * with `api`, `_next/static`, `_next/image`, or `favicon` followed by one
   * character other than a line terminator and `ico`; and it must hold no line
   * terminator at all.
   */
  lemma {:induction false} GateRunsOnIff(pathname: string)
    ensures GateRunsOn(pathname) <==>
              && |pathname| >= 1 && pathname[0] == '/'
              && !StartsWith(pathname[1..], "api")
              && !StartsWith(pathname[1..], "_next/static")
              && !StartsWith(pathname[1..], "_next/image")
              && !(StartsWith(pathname[1..], "favicon") && |pathname| >= 12 && pathname[9..12] == "ico")
              && (forall i :: 0 <= i < |pathname| - 1 ==> !IsLineTerminator(pathname[1..][i]))
  {
    if |pathname| >= 1 && pathname[0] == '/' {
      var rest := pathname[1..];
      var alts := ExcludedAlternatives;
      assert alts[0] == "api" && alts[1] == "_next/static" && alts[2] == "_next/image" && alts[3] == "favicon.ico";
      assert (forall k :: 0 <= k < |alts| ==> !PrefixMatches(alts[k], rest))
         <==> !PrefixMatches(alts[0], rest) && !PrefixMatches(alts[1], rest)
              && !PrefixMatches(alts[2], rest) && !PrefixMatches(alts[3], rest);
      LiteralAlternative("api", rest);
      LiteralAlternative("_next/static", rest);
      LiteralAlternative("_next/image", rest);
      FaviconAlternative(rest);
      assert forall i :: 0 <= i < |rest| ==> rest[i] == pathname[i + 1];
      if |pathname| >= 12 {
        assert rest[8..11] == pathname[9..12];
      }
    }
  }

  /**
   * The `favicon.ico` alternative also excludes `favicon` + any one character
   * + `ico`; a line terminator in that position is caught by the rest of the
   * matcher anyway.
   */
  lemma FaviconAlternative(s: string)
    ensures PrefixMatches("favicon.ico", s) <==>
              StartsWith(s, "favicon") && |s| >= 11 && s[8..11] == "ico" && !IsLineTerminator(s[7])
  {
    var f := "favicon.ico";
    if PrefixMatches(f, s) {
      assert s[..7] == f[..7];
      assert s[8..11] == f[8..11];
    } else if StartsWith(s, "favicon") && |s| >= 11 && s[8..11] == "ico" && !IsLineTerminator(s[7]) {
      forall i | 0 <= i < |f| ensures CharMatches(f[i], s[i]) {
        if i < 7 {
          assert s[..7][i] == s[i];
        } else if i > 7 {
          assert s[8..11][i - 8] == s[i];
        }
      }
      assert false;
    }
  }

  /**
   * What a page request meets: the middleware if the matcher accepts its path,
   * nothing otherwise. Only a matched path is ever redirected, and a matched
   * page other than the callback and sign-in is let through only with a session.
   */
  function Gate(pathname: string, lookup: SessionLookup): (r: GateResult)
    ensures !GateRunsOn(pathname) ==> r == PassThrough
    ensures r.Redirect? ==> GateRunsOn(pathname)
    ensures (GateRunsOn(pathname) && pathname != CallbackPath && pathname != SignInPath && r == PassThrough)
              ==> SignedIn(lookup)
    ensures r == Redirect(HomePath) <==> pathname == SignInPath && SignedIn(lookup)
  {
    GatedWhenFirstCharIsPlain(SignInPath);
    if GateRunsOn(pathname) then Middleware(pathname, lookup) else PassThrough
  }

  /** API routes (any path whose text after `/` starts with `api`) are never gated. */
  lemma {:induction false} ApiPathsBypassGate(pathname: string, lookup: SessionLookup)
    requires |pathname| >= 4 && pathname[..4] == "/api"
    ensures Gate(pathname, lookup) == PassThrough
  {
    var rest := pathname[1..];
    assert rest[..3] == "api";
    assert ExcludedAlternatives[0] == "api";
    LiteralAlternative("api", rest);
  }

  /** A path whose first character after `/` begins no alternative, with no line terminator, is gated. */
  lemma GatedWhenFirstCharIsPlain(pathname: string)
    requires |pathname| >= 2 && pathname[0] == '/'
    requires pathname[1] != 'a' && pathname[1] != '_' && pathname[1] != 'f'
    requires forall i :: 1 <= i < |pathname| ==> !IsLineTerminator(pathname[i])
    ensures GateRunsOn(pathname)
  {
    var alts := ExcludedAlternatives;
    forall k | 0 <= k < |alts| ensures !PrefixMatches(alts[k], pathname[1..]) {
      assert alts[k][0] in {'a', '_', 'f'};
      assert pathname[1..][0] == pathname[1];
    }
  }

  /** The two gated page routes of the application go through the middleware; the callback passes. */
  lemma PageRoutesAreGated(lookup: SessionLookup)
    ensures Gate(HomePath, lookup) == Middleware(HomePath, lookup)
    ensures Gate(SignInPath, lookup) == Middleware(SignInPath, lookup)
    ensures Gate(CallbackPath, lookup) == PassThrough
  {
    GatedWhenFirstCharIsPlain(HomePath);
    GatedWhenFirstCharIsPlain(SignInPath);
  }
}
