/**
 * The Cognito hosted-login client of the front end
 * (`frontend/src/utils/cognitoOAuth.ts`): the PKCE verifier and state
 * (section 4.1 of RFC 7636), the base64url form of the code challenge
 * (section 5 of RFC 4648, section 4.2 of RFC 7636), the callback's check of
 * the `state` parameter (section 10.12 of RFC 6749), and what the module
 * keeps in `sessionStorage` and `localStorage`.
 *
 * The random bytes, the SHA-256 digest with its `btoa` rendering, the
 * token endpoint's answer and `Date.now()` are parameters.
 */
module CognitoOAuth {
  import opened Wrappers
  import opened Strings

  /** An element of a `Uint8Array`. */
  newtype Byte = b: int | 0 <= b < 256

  /** `n` consecutive characters starting at `first`. */
  function Run(first: char, n: nat): (r: string)
    requires first as int + n <= 0xD800
    ensures |r| == n && forall i :: 0 <= i < n ==> r[i] as int == first as int + i
  {
    seq(n, i requires 0 <= i < n => (first as int + i) as char)
  }

  /**
   * The verifier alphabet of `generateRandomString`:
   * "ABCDEFGHIJKLMNOPQRSTUVWXYZabcdefghijklmnopqrstuvwxyz0123456789-._~".
   */
  const Charset: string := Run('A', 26) + Run('a', 26) + Run('0', 10) + "-._~"

  /** The unreserved characters of section 4.1 of RFC 7636: ALPHA / DIGIT / "-" / "." / "_" / "~". */
  predicate Unreserved(c: char)
  {
    ('A' <= c <= 'Z') || ('a' <= c <= 'z') || ('0' <= c <= '9') || c == '-' || c == '.' || c == '_' || c == '~'
  }

  /** The alphabet is exactly the 66 unreserved characters, upper case first, then lower case, digits and "-._~". */
  lemma CharsetIsUnreserved()
    ensures |Charset| == 66
    ensures Charset[0] == 'A' && Charset[26] == 'a' && Charset[52] == '0' && Charset[62..] == "-._~"
    ensures forall k :: 0 <= k < |Charset| ==> Unreserved(Charset[k])
    ensures forall c :: Unreserved(c) <==> c in Charset
  {
    var tail := "-._~";
    assert Charset[62..] == tail;
    forall k | 0 <= k < |Charset|
      ensures Unreserved(Charset[k])
    {
      if k >= 62 {
        assert Charset[k] == tail[k - 62];
      }
    }
    forall c | Unreserved(c)
      ensures c in Charset
    {
      if 'A' <= c <= 'Z' {
        assert Charset[c as int - 'A' as int] == c;
      } else if 'a' <= c <= 'z' {
        assert Charset[26 + c as int - 'a' as int] == c;
      } else if '0' <= c <= '9' {
        assert Charset[52 + c as int - '0' as int] == c;
      } else {
        assert c in tail;
      }
    }
  }

  /**
   * `generateRandomString(values.length)` once `crypto.getRandomValues` has
   * filled `values`: character `i` is `charset[values[i] % 66]`.
   */
  method RandomString(values: seq<Byte>) returns (r: string)
    ensures |r| == |values|
    ensures forall i :: 0 <= i < |r| ==> r[i] == Charset[values[i] as int % 66]
    ensures forall i :: 0 <= i < |r| ==> Unreserved(r[i])
  {
    r := "";
    var i := 0;
    while i < |values|
      invariant 0 <= i <= |values|
      invariant |r| == i
      invariant forall k :: 0 <= k < i ==> r[k] == Charset[values[k] as int % 66]
    {
      r := r + [Charset[values[i] as int % 66]];
      i := i + 1;
    }
    CharsetIsUnreserved();
  }

  /** The characters `btoa` writes, without the padding. */
  predicate Base64Char(c: char)
  {
    ('A' <= c <= 'Z') || ('a' <= c <= 'z') || ('0' <= c <= '9') || c == '+' || c == '/'
  }

  /** The characters of the URL- and filename-safe alphabet of section 5 of RFC 4648. */
  predicate Base64UrlChar(c: char)
  {
    ('A' <= c <= 'Z') || ('a' <= c <= 'z') || ('0' <= c <= '9') || c == '-' || c == '_'
  }

  /** `n` padding characters. */
  function Pad(n: nat): (r: string)
    ensures |r| == n && forall k :: 0 <= k < n ==> r[k] == '='
  {
    seq(n, k => '=')
  }

  /** The two alphabet swaps of the base64url step. */
  function UrlAlphabet(s: string): (r: string)
    ensures |r| == |s|
  {
    ReplaceChar(ReplaceChar(s, '+', '-'), '/', '_')
  }

  /** The last step of `generateCodeChallenge`: `+` to `-`, `/` to `_`, and every `=` dropped. */
  function UrlSafe(b64: string): (r: string)
    ensures '+' !in r && '/' !in r && '=' !in r
    ensures |r| == |b64| - Count(b64, '=')
  {
    var swapped := UrlAlphabet(b64);
    CountReplace(ReplaceChar(b64, '+', '-'), '/', '_', '=');
    CountReplace(b64, '+', '-', '=');
    assert '+' !in swapped;
    RemoveChar(swapped, '=')
  }

  /** Swapping two characters other than `c` keeps the number of `c`. */
  lemma {:induction false} CountReplace(s: string, a: char, b: char, c: char)
    requires a != c && b != c
    ensures Count(ReplaceChar(s, a, b), c) == Count(s, c)
    decreases |s|
  {
    if |s| > 0 {
      assert ReplaceChar(s, a, b)[1..] == ReplaceChar(s[1..], a, b);
      CountReplace(s[1..], a, b, c);
    }
  }

  /** Dropping `c` from a string that has none changes nothing. */
  lemma {:induction false} RemoveAbsent(s: string, c: char)
    requires c !in s
    ensures RemoveChar(s, c) == s
    decreases |s|
  {
    if |s| > 0 {
      RemoveAbsent(s[1..], c);
    }
  }

  /** Dropping `=` from a string followed by padding drops the padding. */
  lemma {:induction false} RemovePadding(s: string, n: nat)
    requires '=' !in s
    ensures RemoveChar(s + Pad(n), '=') == s
    decreases |s| + n
  {
    if |s| > 0 {
      assert (s + Pad(n))[1..] == s[1..] + Pad(n);
      RemovePadding(s[1..], n);
    } else if n > 0 {
      assert (s + Pad(n))[1..] == s + Pad(n - 1);
      RemovePadding(s, n - 1);
    }
  }

  /**
   * The inverse of the base64url step for `btoa` output: the alphabet swapped
   * back and the padding restored to a multiple of four characters.
   */
  function Restore(u: string): (r: string)
    ensures |r| % 4 == 0
  {
    ReplaceChar(ReplaceChar(u, '-', '+'), '_', '/') + Pad(PadFor(|u|))
  }

  /** The number of `=` that fills `n` characters up to a multiple of four. */
  function PadFor(n: nat): nat
  {
    (4 - n % 4) % 4
  }

  /** For `btoa` output (digits of the standard alphabet, then at most two `=` up to a multiple of four) the step only swaps the alphabet and drops the padding. */
  lemma UrlSafeOfPadded(body: string, pad: nat)
    requires forall k :: 0 <= k < |body| ==> Base64Char(body[k])
    ensures UrlSafe(body + Pad(pad)) == UrlAlphabet(body)
    ensures forall k :: 0 <= k < |body| ==> Base64UrlChar(UrlSafe(body + Pad(pad))[k])
  {
    var s := body + Pad(pad);
    assert UrlAlphabet(s) == UrlAlphabet(body) + Pad(pad);
    assert '=' !in UrlAlphabet(body) by {
      forall k | 0 <= k < |body|
        ensures UrlAlphabet(body)[k] != '='
      {
        assert Base64Char(body[k]);
      }
    }
    RemovePadding(UrlAlphabet(body), pad);
  }

  /** Swapping the alphabet back undoes `UrlAlphabet` on characters of the standard alphabet. */
  lemma SwapBack(body: string)
    requires forall k :: 0 <= k < |body| ==> Base64Char(body[k])
    ensures ReplaceChar(ReplaceChar(UrlAlphabet(body), '-', '+'), '_', '/') == body
  {
    var back := ReplaceChar(ReplaceChar(UrlAlphabet(body), '-', '+'), '_', '/');
    forall k | 0 <= k < |body|
      ensures back[k] == body[k]
    {
      assert Base64Char(body[k]);
    }
  }

  /** The base64url step loses nothing: restoring its output gives back the `btoa` string. */
  lemma UrlSafeRoundTrip(body: string, pad: nat)
    requires forall k :: 0 <= k < |body| ==> Base64Char(body[k])
    requires pad <= 2 && (|body| + pad) % 4 == 0
    ensures Restore(UrlSafe(body + Pad(pad))) == body + Pad(pad)
  {
    UrlSafeOfPadded(body, pad);
    SwapBack(body);
    PadLength(|body|, pad);
    var u := UrlSafe(body + Pad(pad));
    assert u == UrlAlphabet(body);
    assert Restore(u) == ReplaceChar(ReplaceChar(UrlAlphabet(body), '-', '+'), '_', '/') + Pad(pad);
  }

  /** The padding `Restore` adds is the padding that was dropped. */
  lemma PadLength(n: nat, pad: nat)
    requires pad <= 2 && (n + pad) % 4 == 0
    ensures PadFor(n) == pad
  {
  }

  /** A SHA-256 digest renders as 43 digits and one `=`; its challenge is 43 characters long. */
  lemma ChallengeLength(body: string)
    requires |body| == 43 && forall k :: 0 <= k < |body| ==> Base64Char(body[k])
    ensures |UrlSafe(body + Pad(1))| == 43
  {
    UrlSafeOfPadded(body, 1);
  }

  /** `sessionStorage` or `localStorage`: `getItem` gives `null` for a key not set. */
  type Storage = map<string, string>

  /** `storage.getItem(k)`. */
  function Item(st: Storage, k: string): Option<string>
  {
    if k in st then Some(st[k]) else None
  }

  /** `!x` is false: present and not empty. */
  predicate Given(x: Option<string>)
  {
    x.Some? && x.value != ""
  }

  /** What `signInWithManagedLogin` sends to the authorize endpoint besides the fixed parameters. */
  datatype Authorize = Authorize(state: string, codeChallenge: string, codeChallengeMethod: string)

  /**
   * `signInWithManagedLogin` with the two filled byte arrays and `digest`,
   * the `btoa` rendering of the verifier's SHA-256: the state and verifier
   * are kept in the session and the challenge goes to the authorize
   * endpoint.
   */
  method SignIn(session: Storage, stateBytes: seq<Byte>, verifierBytes: seq<Byte>, digest: string -> string)
    returns (next: Storage, request: Authorize)
    requires |stateBytes| == 32 && |verifierBytes| == 128
    ensures "oauth_state" in next && "code_verifier" in next
    ensures |next["oauth_state"]| == 32 && |next["code_verifier"]| == 128
    ensures forall k :: 0 <= k < 128 ==> Unreserved(next["code_verifier"][k])
    ensures forall k :: k != "oauth_state" && k != "code_verifier" ==> Item(next, k) == Item(session, k)
    ensures request == Authorize(next["oauth_state"], UrlSafe(digest(next["code_verifier"])), "S256")
  {
    var state := RandomString(stateBytes);
    var verifier := RandomString(verifierBytes);
    next := session["oauth_state" := state]["code_verifier" := verifier];
    request := Authorize(state, UrlSafe(digest(verifier)), "S256");
  }

  /** The tokens the token endpoint answers with. */
  datatype TokenSet = TokenSet(accessToken: string, idToken: string, refreshToken: string, expiresIn: int)

  /** The token endpoint's answer: a failure (network, non-2xx, bad JSON) or the tokens. */
  datatype Exchange = Rejected | Granted(tokens: TokenSet)

  /** A request to the token endpoint. */
  datatype TokenRequest = AuthorizationCode(code: string, verifier: string) | RefreshGrant(refreshToken: string)

  /** The two storages. */
  datatype Browser = Browser(session: Storage, local: Storage)

  /** What `handleOAuthCallback` leaves behind, returns, and sends. */
  datatype Callback = Callback(browser: Browser, tokens: Option<TokenSet>, request: Option<TokenRequest>)

  /** `String(Date.now() + expires_in * 1000)`. */
  function Expiry(now: int, t: TokenSet): string
  {
    IntToString(now + t.expiresIn * 1000)
  }

  /** The four `localStorage.setItem` calls after a code exchange. */
  function Keep(local: Storage, t: TokenSet, now: int): (r: Storage)
    ensures Item(r, "access_token") == Some(t.accessToken)
    ensures Item(r, "id_token") == Some(t.idToken)
    ensures Item(r, "refresh_token") == Some(t.refreshToken)
    ensures Item(r, "token_expiry") == Some(Expiry(now, t))
  {
    local["access_token" := t.accessToken]["id_token" := t.idToken]["refresh_token" := t.refreshToken]["token_expiry" := Expiry(now, t)]
  }

  /** The callback's check: a code and a state, the state the one stored, and a stored verifier. */
  predicate Accepts(session: Storage, code: Option<string>, state: Option<string>)
  {
    Given(code) && Given(state) && state == Item(session, "oauth_state") && Given(Item(session, "code_verifier"))
  }

  /**
   * `handleOAuthCallback` with the query's `code` and `state`, the token
   * endpoint's answer and the time: nothing is sent and nothing changes
   * unless the check passes; then the state and verifier leave the session,
   * the code is exchanged with the stored verifier, and granted tokens are
   * kept with their expiry time.
   */
  function HandleCallback(b: Browser, code: Option<string>, state: Option<string>, reply: Exchange, now: int): (o: Callback)
    ensures o.request.Some? <==> Accepts(b.session, code, state)
    ensures !Accepts(b.session, code, state) ==> o == Callback(b, None, None)
    ensures Accepts(b.session, code, state) ==>
      && o.request == Some(AuthorizationCode(code.value, b.session["code_verifier"]))
      && o.browser.session == b.session - {"oauth_state", "code_verifier"}
    ensures o.tokens.Some? <==> Accepts(b.session, code, state) && reply.Granted?
    ensures o.tokens.Some? ==> o.tokens == Some(reply.tokens) && o.browser.local == Keep(b.local, reply.tokens, now)
    ensures o.tokens.None? ==> o.browser.local == b.local
  {
    if !Accepts(b.session, code, state) then Callback(b, None, None)
    else
      var session := b.session - {"oauth_state", "code_verifier"};
      var request := AuthorizationCode(code.value, b.session["code_verifier"]);
      match reply
      case Rejected => Callback(Browser(session, b.local), None, Some(request))
      case Granted(t) => Callback(Browser(session, Keep(b.local, t, now)), Some(t), Some(request))
  }

  /** The callback of a sign-in (same state, fresh code) exchanges the code with that sign-in's verifier. */
  lemma CallbackUsesOwnVerifier(b: Browser, code: string, reply: Exchange, now: int)
    requires "oauth_state" in b.session && "code_verifier" in b.session
    requires code != "" && b.session["oauth_state"] != "" && b.session["code_verifier"] != ""
    ensures HandleCallback(b, Some(code), Some(b.session["oauth_state"]), reply, now).request
      == Some(AuthorizationCode(code, b.session["code_verifier"]))
  {
  }

  /** A callback whose state is not the stored one sends nothing and changes nothing, and a second callback after a first accepted one is refused. */
  lemma ForeignStateRefused(b: Browser, code: Option<string>, state: Option<string>, reply: Exchange, now: int)
    ensures state != Item(b.session, "oauth_state") ==> HandleCallback(b, code, state, reply, now) == Callback(b, None, None)
    ensures var first := HandleCallback(b, code, state, reply, now);
      first.request.Some? ==> HandleCallback(first.browser, code, state, reply, now).request.None?
  {
  }

  /**
   * `isAuthenticated`: an id token and an expiry are stored and the clock
   * is before the expiry; an expiry that `parseInt` cannot read counts as
   * expired.
   */
  function IsAuthenticated(local: Storage, now: int): (ok: bool)
    ensures ok ==> Given(Item(local, "id_token")) && Given(Item(local, "token_expiry"))
    ensures ok <==>
      && Given(Item(local, "id_token")) && Given(Item(local, "token_expiry"))
      && ParseInt(local["token_expiry"]).Some? && now < ParseInt(local["token_expiry"]).value
  {
    var token := Item(local, "id_token");
    var expiry := Item(local, "token_expiry");
    if !Given(token) || !Given(expiry) then false
    else
      match ParseInt(expiry.value)
      case None => false
      case Some(e) => now < e
  }

  /** After a granted exchange with a non-empty id token the user is signed in until the stored expiry, and not after. */
  lemma SignedInUntilExpiry(b: Browser, code: Option<string>, state: Option<string>, t: TokenSet, now: int, later: int)
    requires Accepts(b.session, code, state) && t.idToken != ""
    ensures var local := HandleCallback(b, code, state, Granted(t), now).browser.local;
      IsAuthenticated(local, later) <==> later < now + t.expiresIn * 1000
  {
    ParseIntToString(now + t.expiresIn * 1000);
    assert Expiry(now, t) != "" by {
      assert |NatToString(if now + t.expiresIn * 1000 < 0 then -(now + t.expiresIn * 1000) else now + t.expiresIn * 1000)| >= 1;
    }
  }

  /** `getIdToken`: the stored id token while signed in, `null` otherwise. */
  function GetIdToken(local: Storage, now: int): (r: Option<string>)
    ensures r.Some? <==> IsAuthenticated(local, now)
    ensures r.Some? ==> r == Item(local, "id_token") && r.value != ""
  {
    if !IsAuthenticated(local, now) then None else Item(local, "id_token")
  }

  /** `getAccessToken`: the stored access token (possibly `null`) while signed in, `null` otherwise. */
  function GetAccessToken(local: Storage, now: int): (r: Option<string>)
    ensures !IsAuthenticated(local, now) ==> r.None?
    ensures IsAuthenticated(local, now) ==> r == Item(local, "access_token")
  {
    if !IsAuthenticated(local, now) then None else Item(local, "access_token")
  }

  const TokenKeys := {"access_token", "id_token", "refresh_token", "token_expiry"}

  /** The four `removeItem` calls of `signOut`; every other key stays. */
  function SignOut(local: Storage): (r: Storage)
    ensures forall k :: k in TokenKeys ==> Item(r, k).None?
    ensures forall k :: k !in TokenKeys ==> Item(r, k) == Item(local, k)
  {
    local - TokenKeys
  }

  /** After signing out nobody is signed in at any time and neither token is handed out. */
  lemma SignedOutStaysOut(local: Storage, now: int)
    ensures !IsAuthenticated(SignOut(local), now)
    ensures GetIdToken(SignOut(local), now).None? && GetAccessToken(SignOut(local), now).None?
  {
    assert Item(SignOut(local), "id_token").None?;
  }

  /** What `refreshTokens` leaves in `localStorage`, returns, and sends. */
  datatype Refresh = Refresh(local: Storage, ok: bool, request: Option<TokenRequest>)

  /**
   * `refreshTokens`: without a stored refresh token nothing is sent; a
   * granted refresh stores the new access token, id token and expiry and
   * keeps the stored refresh token.
   */
  function RefreshTokens(local: Storage, reply: Exchange, now: int): (o: Refresh)
    ensures o.request.Some? <==> Given(Item(local, "refresh_token"))
    ensures o.request.Some? ==> o.request == Some(RefreshGrant(local["refresh_token"]))
    ensures o.ok <==> Given(Item(local, "refresh_token")) && reply.Granted?
    ensures !o.ok ==> o.local == local
    ensures Item(o.local, "refresh_token") == Item(local, "refresh_token")
    ensures o.ok ==>
      && Item(o.local, "access_token") == Some(reply.tokens.accessToken)
      && Item(o.local, "id_token") == Some(reply.tokens.idToken)
      && Item(o.local, "token_expiry") == Some(Expiry(now, reply.tokens))
  {
    var token := Item(local, "refresh_token");
    if !Given(token) then Refresh(local, false, None)
    else
      var request := RefreshGrant(token.value);
      match reply
      case Rejected => Refresh(local, false, Some(request))
      case Granted(t) =>
        Refresh(local["access_token" := t.accessToken]["id_token" := t.idToken]["token_expiry" := Expiry(now, t)], true, Some(request))
  }

  /** A refresh after a granted sign-in sends the refresh token that sign-in stored, and signing out ends the refreshes. */
  lemma RefreshUsesLoginToken(b: Browser, code: Option<string>, state: Option<string>, t: TokenSet, now: int, reply: Exchange, later: int)
    requires Accepts(b.session, code, state) && t.refreshToken != ""
    ensures var local := HandleCallback(b, code, state, Granted(t), now).browser.local;
      && RefreshTokens(local, reply, later).request == Some(RefreshGrant(t.refreshToken))
      && RefreshTokens(SignOut(local), reply, later).request.None?
  {
    var local := HandleCallback(b, code, state, Granted(t), now).browser.local;
    assert Item(SignOut(local), "refresh_token").None?;
  }
}
