/** The two route guards: the private guard lets a signed-in user through
    and sends anyone else to the sign-in page with the place they wanted;
    the public guard (around the sign-in and sign-up pages) lets only
    visitors through and sends a signed-in user on. Includes
    `encodeURIComponent`, which builds the private guard's redirect. */
module Routes {
  import opened Base
  import opened Text
  import opened Entities
  import Login

  /** The parts of the browser location a guard reads. `prevUrl` is the
      `prevUrl` entry of the navigation state, when there is one. */
  datatype Location = Location(pathname: string, search: string, prevUrl: Option<string>)

  /** What a guard renders: the nested route, or a `<Navigate>` to `to`
      carrying `{ prevUrl: statePrevUrl }` as navigation state. */
  datatype Outcome = Render | Redirect(to: string, statePrevUrl: string)

  /** The path both guards and the logout send a visitor to. */
  const SignInPath := "/signin"

  /** The paths the route table declares under the public guard. */
  const PublicPaths: seq<string> := ["/login", "/signup"]

  /** The characters `encodeURIComponent` leaves as they are. */
  predicate Unreserved(c: char) {
    || ('A' <= c <= 'Z') || ('a' <= c <= 'z') || ('0' <= c <= '9')
    || c == '-' || c == '_' || c == '.' || c == '!' || c == '~'
    || c == '*' || c == '\'' || c == '(' || c == ')'
  }

  /** An upper-case hexadecimal digit. */
  function HexUpper(d: nat): (c: char)
    requires d < 16
    ensures Unreserved(c)
  {
    if d < 10 then ('0' as int + d) as char else ('A' as int + d - 10) as char
  }

  /** The UTF-8 encoding of a Unicode scalar value. */
  function Utf8(cp: nat): (bytes: seq<nat>)
    requires cp < 0x11_0000
    ensures 1 <= |bytes| <= 4
    ensures forall i :: 0 <= i < |bytes| ==> bytes[i] < 256
    ensures (cp < 0x80) <==> |bytes| == 1
    ensures |bytes| > 1 ==> forall i :: 1 <= i < |bytes| ==> 0x80 <= bytes[i] < 0xC0
  {
    if cp < 0x80 then [cp]
    else if cp < 0x800 then [0xC0 + cp / 64, 0x80 + cp % 64]
    else if cp < 0x1_0000 then [0xE0 + cp / 4096, 0x80 + (cp / 64) % 64, 0x80 + cp % 64]
    else [0xF0 + cp / 262144, 0x80 + (cp / 4096) % 64, 0x80 + (cp / 64) % 64, 0x80 + cp % 64]
  }

  /** `%XX` for each byte, upper-case hexadecimal. */
  function PercentBytes(bytes: seq<nat>): (r: string)
    requires forall i :: 0 <= i < |bytes| ==> bytes[i] < 256
    ensures |r| == 3 * |bytes|
    ensures forall i :: 0 <= i < |r| ==> Unreserved(r[i]) || r[i] == '%'
  {
    if bytes == [] then ""
    else ['%', HexUpper(bytes[0] / 16), HexUpper(bytes[0] % 16)] + PercentBytes(bytes[1..])
  }

  /** One character as `encodeURIComponent` writes it. */
  function EncodeChar(c: char): (r: string)
    ensures Unreserved(c) ==> r == [c]
    ensures !Unreserved(c) ==> 3 <= |r| <= 12 && r[0] == '%'
    ensures forall i :: 0 <= i < |r| ==> Unreserved(r[i]) || r[i] == '%'
  {
    if Unreserved(c) then [c] else PercentBytes(Utf8(c as int))
  }

  /** `encodeURIComponent(s)`. Dafny strings hold Unicode scalar values, so
      the lone-surrogate error of JavaScript cannot arise. */
  function EncodeURIComponent(s: string): (r: string)
    ensures |r| >= |s|
    ensures forall i :: 0 <= i < |r| ==> Unreserved(r[i]) || r[i] == '%'
    ensures (forall i :: 0 <= i < |s| ==> Unreserved(s[i])) ==> r == s
  {
    if s == [] then ""
    else
      var rest := EncodeURIComponent(s[1..]);
      assert (forall i :: 0 <= i < |s| ==> Unreserved(s[i])) ==> rest == s[1..] by {
        if forall i :: 0 <= i < |s| ==> Unreserved(s[i]) {
          assert forall i :: 0 <= i < |s[1..]| ==> s[1..][i] == s[i + 1];
        }
      }
      EncodeChar(s[0]) + rest
  }

  /** The private guard: the nested route for a signed-in user, otherwise a
      redirect to the sign-in page whose `prevUrl` query parameter is the
      encoded path and query, and whose state keeps the bare path. */
  function PrivateRoute(user: Option<User>, loc: Location): (r: Outcome)
    ensures r.Render? <==> user.Some?
    ensures r.Redirect? ==> r.statePrevUrl == loc.pathname
    ensures r.Redirect? ==> |SignInPath| <= |r.to| && r.to[..|SignInPath|] == SignInPath
  {
    if user.Some? then Render
    else Redirect(SignInPath + "?prevUrl=" + EncodeURIComponent(loc.pathname + loc.search), loc.pathname)
  }

  /** The public guard: the nested route for a visitor, otherwise a redirect
      to the state's `prevUrl` when it is non-empty, else home, with the
      current path as the new state. */
  function PublicRoute(user: Option<User>, loc: Location): (r: Outcome)
    ensures r.Render? <==> user.None?
    ensures r.Redirect? ==> r.statePrevUrl == loc.pathname
    ensures r.Redirect? && Truthy(loc.prevUrl) ==> r.to == loc.prevUrl.value
    ensures r.Redirect? && !Truthy(loc.prevUrl) ==> r.to == "/"
  {
    if user.Some? then Redirect(OrElse(loc.prevUrl, "/"), loc.pathname) else Render
  }

  /** Whether either guard renders depends on the stored user alone, never
      on the location, and exactly one of the two guards renders. */
  lemma GuardsDependOnUserOnly(user: Option<User>, a: Location, b: Location)
    ensures PrivateRoute(user, a).Render? == PrivateRoute(user, b).Render?
    ensures PublicRoute(user, a).Render? == PublicRoute(user, b).Render?
    ensures PrivateRoute(user, a).Render? != PublicRoute(user, a).Render?
  {
  }

  /** The private redirect is the sign-in path followed by exactly one
      query parameter, `prevUrl`, whose value is the encoded location. */
  lemma PrivateRedirectQuery(loc: Location)
    ensures PrivateRoute(None, loc).Redirect?
    ensures Split(PrivateRoute(None, loc).to, '?')
         == [SignInPath, "prevUrl=" + EncodeURIComponent(loc.pathname + loc.search)]
  {
    var e := EncodeURIComponent(loc.pathname + loc.search);
    EncodedOmits(loc.pathname + loc.search, '?');
    var r := "?prevUrl=";
    QueryPrefixParts(SignInPath, r);
    SplitAfterPath(SignInPath, r, e);
  }

  /** The sign-in path holds no `?`, and the query prefix starts with its
      only one. The literals arrive as parameters so that
      callers do not unfold them themselves. */
  lemma QueryPrefixParts(p: string, r: string)
    requires p == SignInPath && r == "?prevUrl="
    ensures '?' !in p && r[0] == '?' && r[1..] == "prevUrl=" && '?' !in r[1..]
  {
  }

  /** A path, then a query that starts with the only `?`, splits in two. */
  lemma SplitAfterPath(p: string, r: string, e: string)
    requires |r| >= 1 && r[0] == '?'
    requires '?' !in p && '?' !in r[1..] && '?' !in e
    ensures Split(p + r + e, '?') == [p, r[1..] + e]
  {
    var tail := r[1..] + e;
    NotInConcat(r[1..], e, '?');
    assert p + r + e == p + ['?'] + tail by {
      assert r == ['?'] + r[1..];
    }
    SplitAtFirst(p, tail, '?');
  }

  /** Nothing in the visited location can add a parameter or a fragment to
      the private redirect: it holds no `&` and no `#`. */
  lemma PrivateRedirectNoExtraParts(loc: Location)
    ensures PrivateRoute(None, loc).Redirect?
    ensures '&' !in PrivateRoute(None, loc).to && '#' !in PrivateRoute(None, loc).to
  {
    var e := EncodeURIComponent(loc.pathname + loc.search);
    var pre := SignInPath + "?prevUrl=";
    RedirectPrefixFree(pre);
    EncodedOmits(loc.pathname + loc.search, '&');
    EncodedOmits(loc.pathname + loc.search, '#');
    NotInConcat(pre, e, '&');
    NotInConcat(pre, e, '#');
    assert PrivateRoute(None, loc).to == pre + e;
  }

  /** The redirect prefix holds no `&` and no `#`; the literal is a
      parameter for the same reason. */
  lemma RedirectPrefixFree(pre: string)
    requires pre == SignInPath + "?prevUrl="
    ensures '&' !in pre && '#' !in pre
  {
  }

  /** A character that is neither unreserved nor `%` never appears in an
      encoded string. */
  lemma EncodedOmits(s: string, c: char)
    requires !Unreserved(c) && c != '%'
    ensures c !in EncodeURIComponent(s)
  {
  }

  lemma NotInConcat(a: string, b: string, c: char)
    requires c !in a && c !in b
    ensures c !in a + b
  {
  }

  /** Splitting at the only occurrence of the separator gives the two sides. */
  lemma SplitAtFirst(a: string, b: string, sep: char)
    requires sep !in a && sep !in b
    ensures Split(a + [sep] + b, sep) == [a, b]
  {
    var s := a + [sep] + b;
    assert s[|a|] == sep;
    assert s[..|a|] == a;
    assert s[|a| + 1..] == b;
  }

  /** A visitor sent to sign in from a non-empty path and then signed in
      comes back to that path: the sign-in page follows the state the guard
      left. The query of the original location is not part of that state, so
      it is lost. */
  lemma RedirectThenSignIn(loc: Location)
    requires loc.pathname != ""
    ensures Login.AfterSignIn(Some(PrivateRoute(None, loc).statePrevUrl)) == loc.pathname
    ensures loc.search != "" ==>
      Login.AfterSignIn(Some(PrivateRoute(None, loc).statePrevUrl)) != loc.pathname + loc.search
  {
    if loc.search != "" {
      assert |loc.pathname + loc.search| > |loc.pathname|;
    }
  }

  /** A signed-in user who reaches a public page is sent exactly where a
      sign-in there would have sent them. */
  lemma PublicRedirectMatchesSignIn(u: User, loc: Location)
    ensures PublicRoute(Some(u), loc).to == Login.AfterSignIn(loc.prevUrl)
  {
  }

  /** The sign-in path the guards redirect to is not one of the public paths
      the route table declares (it declares `/login`). */
  lemma SignInPathUndeclared()
    ensures SignInPath !in PublicPaths
  {
    assert |SignInPath| != |PublicPaths[0]|;
    assert SignInPath[5] == 'i' && PublicPaths[1][5] == 'u';
  }
}
