/** The WeChat Work adapter (src/messenger/adapters/wechat_adapter.py): an
    access token cached until five minutes before it expires, and text and
    image sends that go to every user of a "|"-separated recipient list.
    The HTTP endpoints are parameters: `fetch` is what the token request
    returns, `upload` what the image upload returns, and `post(i)` what the
    send to the i-th user returns. Times are whole seconds. */
module WeChat {
  import opened Common
  import opened Messages

  /** The reply to the token request. */
  datatype TokenFetch = TokenGranted(token: string, expiresIn: int) | TokenDenied(errmsg: string) | FetchRaised

  /** The reply to one message post. */
  datatype PostReply = Accepted | Rejected(errmsg: string) | PostRaised

  /** The reply to the image upload. */
  datatype UploadReply = Uploaded(mediaId: Option<string>) | UploadRejected | UploadRaised

  /** The cached token and its expiry. */
  datatype TokenCache = TokenCache(token: Option<string>, expiresAt: int)

  /** Whether the cache answers at time `now` without a request. */
  predicate Fresh(c: TokenCache, now: int)
  {
    Given(c.token) && now < c.expiresAt
  }

  datatype TokenStep = TokenStep(cache: TokenCache, token: Option<string>)

  /** `_get_access_token`: the new cache and the token, None when the
      request failed or was denied (the exception). */
  function Refresh(c: TokenCache, now: int, fetch: TokenFetch): (s: TokenStep)
    ensures Fresh(c, now) ==> s == TokenStep(c, c.token)
    ensures !Fresh(c, now) && fetch.TokenGranted? ==>
      s.token == Some(fetch.token) && s.cache == TokenCache(Some(fetch.token), now + fetch.expiresIn - 300)
    ensures !Fresh(c, now) && !fetch.TokenGranted? ==> s.token.None? && s.cache == c
    ensures s.token.Some? <==> Fresh(c, now) || fetch.TokenGranted?
  {
    if Fresh(c, now) then TokenStep(c, c.token)
    else match fetch
      case TokenGranted(token, expiresIn) => TokenStep(TokenCache(Some(token), now + expiresIn - 300), Some(token))
      case _ => TokenStep(c, None)
  }

  /** A granted token is served from the cache, with no request, until
      300 seconds before its lifetime ends. */
  lemma GrantedTokenCached(c: TokenCache, now: int, token: string, expiresIn: int, later: int, fetch: TokenFetch)
    requires !Fresh(c, now) && token != ""
    requires now <= later < now + expiresIn - 300
    ensures var s := Refresh(c, now, TokenGranted(token, expiresIn));
            Refresh(s.cache, later, fetch) == TokenStep(s.cache, Some(token))
  {
  }

  /** The largest image the adapter uploads: 2 MiB. */
  const MaxImageBytes := 2 * 1024 * 1024

  /** The per-user loop of `send_text`: each post's failure or exception
      only clears the result; a non-numeric agent id raises at the first
      user (None). */
  method PostToEach(users: seq<string>, agentOk: bool, post: nat -> PostReply) returns (r: Option<bool>, sentTo: seq<string>)
    ensures r.None? <==> users != [] && !agentOk
    ensures r.Some? ==> sentTo == users && (r.value <==> forall i :: 0 <= i < |users| ==> post(i) == Accepted)
    ensures |sentTo| <= |users| && sentTo == users[..|sentTo|]
  {
    var allSuccess := true;
    sentTo := [];
    var i := 0;
    while i < |users|
      invariant 0 <= i <= |users|
      invariant sentTo == users[..i]
      invariant agentOk || i == 0
      invariant allSuccess <==> forall j :: 0 <= j < i ==> post(j) == Accepted
    {
      if !agentOk {
        return None, sentTo;
      }
      sentTo := sentTo + [users[i]];
      if post(i) != Accepted {
        allSuccess := false;
      }
      i := i + 1;
    }
    return Some(allSuccess), sentTo;
  }

  /** The per-user loop of `send_image`: a post that raises ends it with
      False at once, as does a non-numeric agent id at the first user; a
      post that is answered with an error only clears the result. */
  method PostImageToEach(users: seq<string>, agentOk: bool, post: nat -> PostReply) returns (ok: bool, sentTo: seq<string>)
    ensures ok <==> (users == [] || agentOk) && forall i :: 0 <= i < |users| ==> post(i) == Accepted
    ensures |sentTo| <= |users| && sentTo == users[..|sentTo|]
  {
    var allSuccess := true;
    sentTo := [];
    var i := 0;
    while i < |users|
      invariant 0 <= i <= |users|
      invariant sentTo == users[..i]
      invariant agentOk || i == 0
      invariant allSuccess <==> forall j :: 0 <= j < i ==> post(j) == Accepted
    {
      if !agentOk {
        return false, sentTo;
      }
      if post(i) == PostRaised {
        return false, sentTo;
      }
      sentTo := sentTo + [users[i]];
      if post(i) != Accepted {
        allSuccess := false;
      }
      i := i + 1;
    }
    return allSuccess, sentTo;
  }

  class WeChatAdapter {
    const agentid: string
    var accessToken: Option<string>
    var tokenExpiresAt: int

    constructor (agentid: string)
      ensures this.agentid == agentid && Cache() == TokenCache(None, 0)
    {
      this.agentid := agentid;
      accessToken := None;
      tokenExpiresAt := 0;
    }

    function Cache(): TokenCache
      reads this
    {
      TokenCache(accessToken, tokenExpiresAt)
    }

    method GetAccessToken(now: int, fetch: TokenFetch) returns (token: Option<string>)
      modifies this`accessToken, this`tokenExpiresAt
      ensures TokenStep(Cache(), token) == Refresh(old(Cache()), now, fetch)
    {
      if Given(accessToken) && now < tokenExpiresAt {
        return accessToken;
      }
      match fetch
      case TokenGranted(t, expiresIn) =>
        accessToken := Some(t);
        tokenExpiresAt := now + expiresIn - 300;
        return Some(t);
      case _ =>
        return None;
    }

    /** `send_text`: one post per recipient, in order; True iff every post
        was accepted. None is an exception: the token request failed, or the
        agent id is not a number while there is someone to send to. */
    method SendText(content: string, recipientId: string, now: int, fetch: TokenFetch, post: nat -> PostReply)
      returns (r: Option<bool>, sentTo: seq<string>)
      modifies this`accessToken, this`tokenExpiresAt
      ensures Cache() == Refresh(old(Cache()), now, fetch).cache
      ensures r.None? <==>
        Refresh(old(Cache()), now, fetch).token.None? || (Recipients(recipientId) != [] && ParseInt(agentid).None?)
      ensures r.Some? ==> sentTo == Recipients(recipientId)
      ensures r.Some? ==> (r.value <==> forall i :: 0 <= i < |sentTo| ==> post(i) == Accepted)
      ensures |sentTo| <= |Recipients(recipientId)| && sentTo == Recipients(recipientId)[..|sentTo|]
    {
      var token := GetAccessToken(now, fetch);
      if token.None? {
        return None, [];
      }
      r, sentTo := PostToEach(Recipients(recipientId), ParseInt(agentid).Some?, post);
    }

    /** `send_markdown` and `send_card`: a single post addressed to the whole
        recipient string, True iff it was accepted; a failed or raising post
        gives False. None is an exception: the token request failed, or the
        agent id is not a number. */
    method PostOnce(now: int, fetch: TokenFetch, reply: PostReply) returns (r: Option<bool>)
      modifies this`accessToken, this`tokenExpiresAt
      ensures Cache() == Refresh(old(Cache()), now, fetch).cache
      ensures r.None? <==> Refresh(old(Cache()), now, fetch).token.None? || ParseInt(agentid).None?
      ensures r.Some? ==> (r.value <==> reply == Accepted)
    {
      var token := GetAccessToken(now, fetch);
      if token.None? || ParseInt(agentid).None? {
        return None;
      }
      return Some(reply == Accepted);
    }

    /** `send_image`: a missing or oversized file is refused before any
        request; a failed upload before any post; then one post per
        recipient. Every exception, including a failed post, ends it with
        False. */
    method SendImage(exists_: bool, size: int, recipientId: string, now: int, fetch: TokenFetch,
                     upload: UploadReply, post: nat -> PostReply) returns (ok: bool, sentTo: seq<string>)
      modifies this`accessToken, this`tokenExpiresAt
      ensures (!exists_ || size > MaxImageBytes) ==> !ok && sentTo == [] && Cache() == old(Cache())
      ensures (exists_ && size <= MaxImageBytes) ==> Cache() == Refresh(old(Cache()), now, fetch).cache
      ensures !upload.Uploaded? ==> !ok && sentTo == []
      ensures ok <==>
        exists_ && size <= MaxImageBytes && Refresh(old(Cache()), now, fetch).token.Some? && upload.Uploaded? &&
        (Recipients(recipientId) == [] || ParseInt(agentid).Some?) &&
        forall i :: 0 <= i < |Recipients(recipientId)| ==> post(i) == Accepted
      ensures |sentTo| <= |Recipients(recipientId)| && sentTo == Recipients(recipientId)[..|sentTo|]
    {
      if !exists_ {
        return false, [];
      }
      if size > MaxImageBytes {
        return false, [];
      }
      var token := GetAccessToken(now, fetch);
      if token.None? {
        return false, [];
      }
      if !upload.Uploaded? {
        return false, [];
      }
      ok, sentTo := PostImageToEach(Recipients(recipientId), ParseInt(agentid).Some?, post);
    }

    /** `shutdown`: forget the token. */
    method Shutdown()
      modifies this`accessToken, this`tokenExpiresAt
      ensures Cache() == TokenCache(None, 0)
    {
      accessToken := None;
      tokenExpiresAt := 0;
    }
  }
}
