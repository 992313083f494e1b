/**
 * `controller/OAuth2Controller.java`: the redirects back to the frontend
 * after an OAuth login, and the table that turns a one-time code into a
 * token. `minted` stands for `UUID.randomUUID()`.
 */
module OAuthController {
  import opened Wrappers

  const TokenQuery := "?token="
  const ErrorQuery := "?error="
  const DefaultError := "Authentication failed"
  const ServerStatus := "running"

  /** What `/debug` answers. */
  datatype DebugInfo = DebugInfo(authorizedRedirectUris: seq<string>, serverStatus: string, tokens: nat)

  /** `/token`: the code's token, or `minted` recorded as its token when the code is new. */
  function Exchanged(memo: map<string, string>, code: string, minted: string): (r: (map<string, string>, string))
    ensures code in r.0 && r.0[code] == r.1
    ensures code in memo ==> r == (memo, memo[code])
    ensures code !in memo ==> r.1 == minted && r.0 == memo[code := minted]
    ensures forall c :: c in memo ==> c in r.0 && r.0[c] == memo[c]
  {
    if code in memo then (memo, memo[code]) else (memo[code := minted], minted)
  }

  /** `/success`: the first authorised URI with the token; `None` where the source indexes an empty array. */
  function SuccessUrl(uris: seq<string>, token: string): (r: Option<string>)
    ensures r.None? <==> uris == []
    ensures r.Some? ==> r.value == uris[0] + TokenQuery + token
  {
    if uris == [] then None else Some(uris[0] + TokenQuery + token)
  }

  /** `/error`: the first authorised URI with the error, "Authentication failed" when none is given. */
  function ErrorUrl(uris: seq<string>, error: Option<string>): (r: Option<string>)
    ensures r.None? <==> uris == []
    ensures r.Some? ==> r.value == uris[0] + ErrorQuery + error.GetOr(DefaultError)
  {
    if uris == [] then None else Some(uris[0] + ErrorQuery + (if error.Some? then error.value else DefaultError))
  }

  /** The value of a redirect URL after its base and query key, as the frontend reads it back. */
  function QueryValue(url: string, base: string, key: string): Option<string> {
    var prefix := base + key;
    if |prefix| <= |url| && url[..|prefix|] == prefix then Some(url[|prefix|..]) else None
  }

  class Controller {
    /** `authorizedRedirectUris`, from the application's configuration. */
    const redirectUris: seq<string>
    /** The static `codeToTokenMap`. */
    var codeToToken: map<string, string>

    constructor (uris: seq<string>)
      ensures redirectUris == uris && codeToToken == map[]
    {
      redirectUris := uris;
      codeToToken := map[];
    }

    /** `success`: `generateToken` cannot throw, so the error branch is never taken. */
    method Success(minted: string) returns (r: Option<string>)
      ensures r == SuccessUrl(redirectUris, minted)
    {
      if |redirectUris| == 0 {
        return None;
      }
      var url := redirectUris[0];
      var token := minted;
      url := url + TokenQuery + token;
      return Some(url);
    }

    method Error(error: Option<string>) returns (r: Option<string>)
      ensures r == ErrorUrl(redirectUris, error)
    {
      if |redirectUris| == 0 {
        return None;
      }
      var url := redirectUris[0] + ErrorQuery + (if error.Some? then error.value else DefaultError);
      return Some(url);
    }

    method ExchangeToken(code: string, minted: string) returns (token: string)
      modifies this
      ensures (codeToToken, token) == Exchanged(old(codeToToken), code, minted)
    {
      if code in codeToToken {
        token := codeToToken[code];
      } else {
        token := minted;
        codeToToken := codeToToken[code := token];
      }
    }

    method Debug() returns (info: DebugInfo)
      ensures info == DebugInfo(redirectUris, ServerStatus, |codeToToken|)
    {
      info := DebugInfo(redirectUris, ServerStatus, |codeToToken|);
    }
  }

  // -------------------------------------------------------------- lemmas

  /** The same code always gets the same token, whatever minted value a later call would use. */
  lemma ExchangeMemoised(memo: map<string, string>, code: string, minted: string, minted2: string)
    ensures var (once, token) := Exchanged(memo, code, minted);
      Exchanged(once, code, minted2) == (once, token)
  {
  }

  /** A new code adds exactly one entry to the table and a known code adds none, so `/debug` counts the codes exchanged. */
  lemma ExchangeCount(memo: map<string, string>, code: string, minted: string)
    ensures |Exchanged(memo, code, minted).0| == |memo| + (if code in memo then 0 else 1)
  {
    if code !in memo {
      assert memo[code := minted].Keys == memo.Keys + {code};
    }
  }

  /** The token in a success redirect reads back from it. */
  lemma SuccessTokenReadsBack(uris: seq<string>, token: string)
    requires uris != []
    ensures QueryValue(SuccessUrl(uris, token).value, uris[0], TokenQuery) == Some(token)
  {
    var url := SuccessUrl(uris, token).value;
    assert url == (uris[0] + TokenQuery) + token;
  }

  /** The error in an error redirect reads back from it, or the default when none was given. */
  lemma ErrorReadsBack(uris: seq<string>, error: Option<string>)
    requires uris != []
    ensures QueryValue(ErrorUrl(uris, error).value, uris[0], ErrorQuery) == Some(error.GetOr(DefaultError))
  {
    var url := ErrorUrl(uris, error).value;
    assert url == (uris[0] + ErrorQuery) + error.GetOr(DefaultError);
  }
}
