/** The notification channels of the older monitoring loop
    (modules/im/__init__.py): a WeChat Work notifier, an optional Telegram
    notifier, and `IMManager`, which fans every notification out to the
    notifiers it loaded. The HTTP replies are parameters, as in the WeChat
    adapter; a notifier's outcome as seen by the manager is `Some(result)`
    or `None` when it raised. Times are whole seconds. */
module IM {
  import opened Common
  import WeChat

  /** The two notifier classes. */
  datatype Kind = WeChatKind | TelegramKind

  /** `notifier.__class__.__name__`. */
  function ClassName(k: Kind): string
  {
    match k
    case WeChatKind => "WeChatNotifier"
    case TelegramKind => "TelegramNotifier"
  }

  /** `hasattr(notifier, 'send_image')`: only the WeChat notifier has one. */
  predicate HasSendImage(k: Kind)
  {
    k == WeChatKind
  }

  /** What the manager makes of one notifier's outcome: an exception counts
      as False. */
  function Delivered(outcome: Option<bool>): bool
  {
    outcome == Some(true)
  }

  // ---------------------------------------------------------------- WeChat

  /** The per-user loop of `_send_text`: a non-numeric agent id raises at the
      first user, a post that raises ends the loop with its exception, and a
      post answered with an error only clears the result. `sentTo` are the
      users a post was attempted for, in order. */
  method PostTextToEach(users: seq<string>, agentOk: bool, post: nat -> WeChat.PostReply)
    returns (r: Option<bool>, sentTo: seq<string>)
    ensures r.None? <==> users != [] && (!agentOk || exists i :: 0 <= i < |users| && post(i) == WeChat.PostRaised)
    ensures r.Some? ==> sentTo == users && (r.value <==> forall i :: 0 <= i < |users| ==> post(i) == WeChat.Accepted)
    ensures |sentTo| <= |users| && sentTo == users[..|sentTo|]
    ensures r.None? && agentOk ==>
      |sentTo| > 0 && post(|sentTo| - 1) == WeChat.PostRaised &&
      forall i :: 0 <= i < |sentTo| - 1 ==> post(i) != WeChat.PostRaised
  {
    var allSuccess := true;
    sentTo := [];
    var i := 0;
    while i < |users|
      invariant 0 <= i <= |users|
      invariant sentTo == users[..i]
      invariant agentOk || i == 0
      invariant forall j :: 0 <= j < i ==> post(j) != WeChat.PostRaised
      invariant allSuccess <==> forall j :: 0 <= j < i ==> post(j) == WeChat.Accepted
    {
      if !agentOk {
        return None, sentTo;
      }
      sentTo := sentTo + [users[i]];
      if post(i) == WeChat.PostRaised {
        return None, sentTo;
      }
      if post(i) != WeChat.Accepted {
        allSuccess := false;
      }
      i := i + 1;
    }
    return Some(allSuccess), sentTo;
  }

  /** `touser or self.config.wechat.touser`: an absent or empty argument
      falls back to the configured list. */
  function RecipientList(touser: Option<string>, configured: string): (s: string)
    ensures touser.Some? && touser.value != "" ==> s == touser.value
    ensures (touser.None? || touser.value == "") ==> s == configured
  {
    if touser.Some? && touser.value != "" then touser.value else configured
  }

  class WeChatNotifier {
    /** `config.wechat.touser` and `config.wechat.agentid`. */
    const touser: string
    const agentid: string
    var accessToken: Option<string>
    var tokenExpiresAt: int

    constructor (touser: string, agentid: string)
      ensures this.touser == touser && this.agentid == agentid && Cache() == WeChat.TokenCache(None, 0)
    {
      this.touser := touser;
      this.agentid := agentid;
      accessToken := None;
      tokenExpiresAt := 0;
    }

    function Cache(): WeChat.TokenCache
      reads this
    {
      WeChat.TokenCache(accessToken, tokenExpiresAt)
    }

    /** `initialize` only logs: it always succeeds. */
    method Initialize() returns (ok: bool)
      ensures ok
    {
      return true;
    }

    /** `_get_access_token`: the same five-minute-early cache as the WeChat
        adapter's; None is the exception of a failed request. */
    method GetAccessToken(now: int, fetch: WeChat.TokenFetch) returns (token: Option<string>)
      modifies this`accessToken, this`tokenExpiresAt
      ensures WeChat.TokenStep(Cache(), token) == WeChat.Refresh(old(Cache()), now, fetch)
    {
      if WeChat.Fresh(Cache(), now) {
        return accessToken;
      }
      match fetch
      case TokenGranted(t, expiresIn) =>
        accessToken := Some(t);
        tokenExpiresAt := now + expiresIn - 300;
        return Some(t);
      case _ =>
        return None;
    }

    /** `_send_text`: one post per recipient of the "|"-separated list,
        trimmed and without empty names; True iff every post was accepted.
        None is an exception, which `_send_text` does not catch. */
    method SendText(content: string, touserArg: Option<string>, now: int, fetch: WeChat.TokenFetch,
                    post: nat -> WeChat.PostReply) returns (r: Option<bool>, sentTo: seq<string>)
      modifies this`accessToken, this`tokenExpiresAt
      ensures Cache() == WeChat.Refresh(old(Cache()), now, fetch).cache
      ensures var users := Recipients(RecipientList(touserArg, touser));
        && |sentTo| <= |users| && sentTo == users[..|sentTo|]
        && (WeChat.Refresh(old(Cache()), now, fetch).token.None? ==> r.None? && sentTo == [])
        && (r.Some? ==> sentTo == users && (r.value <==> forall i :: 0 <= i < |users| ==> post(i) == WeChat.Accepted))
        && (r.None? <==>
              (WeChat.Refresh(old(Cache()), now, fetch).token.None? ||
               (users != [] && (ParseInt(agentid).None? || exists i :: 0 <= i < |users| && post(i) == WeChat.PostRaised))))
    {
      var token := GetAccessToken(now, fetch);
      if token.None? {
        return None, [];
      }
      r, sentTo := PostTextToEach(Recipients(RecipientList(touserArg, touser)), ParseInt(agentid).Some?, post);
    }

    /** `notify`: every level is sent as plain text to the configured
        recipients. */
    method Notify(message: string, now: int, fetch: WeChat.TokenFetch, post: nat -> WeChat.PostReply)
      returns (r: Option<bool>, sentTo: seq<string>)
      modifies this`accessToken, this`tokenExpiresAt
      ensures Cache() == WeChat.Refresh(old(Cache()), now, fetch).cache
      ensures |sentTo| <= |Recipients(touser)| && sentTo == Recipients(touser)[..|sentTo|]
      ensures r == Some(true) <==>
        WeChat.Refresh(old(Cache()), now, fetch).token.Some? &&
        (Recipients(touser) == [] || ParseInt(agentid).Some?) &&
        forall i :: 0 <= i < |Recipients(touser)| ==> post(i) == WeChat.Accepted
    {
      ghost var users := Recipients(touser);
      r, sentTo := SendText(message, None, now, fetch, post);
      if forall i :: 0 <= i < |users| ==> post(i) == WeChat.Accepted {
        assert !exists i :: 0 <= i < |users| && post(i) == WeChat.PostRaised;
      }
    }

    /** `send_image`: a missing or oversized file is refused first; then the
        upload and one post per configured recipient, any exception ending
        it with False. */
    method SendImage(exists_: bool, size: int, now: int, fetch: WeChat.TokenFetch,
                     upload: WeChat.UploadReply, post: nat -> WeChat.PostReply) returns (ok: bool, sentTo: seq<string>)
      modifies this`accessToken, this`tokenExpiresAt
      ensures (!exists_ || size > WeChat.MaxImageBytes) ==> !ok && sentTo == [] && Cache() == old(Cache())
      ensures (exists_ && size <= WeChat.MaxImageBytes) ==> Cache() == WeChat.Refresh(old(Cache()), now, fetch).cache
      ensures !upload.Uploaded? ==> !ok && sentTo == []
      ensures ok <==>
        exists_ && size <= WeChat.MaxImageBytes && WeChat.Refresh(old(Cache()), now, fetch).token.Some? &&
        upload.Uploaded? && (Recipients(touser) == [] || ParseInt(agentid).Some?) &&
        forall i :: 0 <= i < |Recipients(touser)| ==> post(i) == WeChat.Accepted
      ensures |sentTo| <= |Recipients(touser)| && sentTo == Recipients(touser)[..|sentTo|]
    {
      if !exists_ || size > WeChat.MaxImageBytes {
        return false, [];
      }
      var token := GetAccessToken(now, fetch);
      if token.None? || !upload.Uploaded? {
        return false, [];
      }
      ok, sentTo := WeChat.PostImageToEach(Recipients(touser), ParseInt(agentid).Some?, post);
    }
  }

  // -------------------------------------------------------------- Telegram

  /** The Telegram settings: `config.telegram.bot_token` and `chat_id`, an
      unset one being empty. */
  datatype Telegram = Telegram(botToken: string, chatId: string)

  /** `bool(bot_token and chat_id)`. */
  predicate Enabled(t: Telegram)
  {
    t.botToken != "" && t.chatId != ""
  }

  /** `emoji.get(level, "")`. */
  function LevelEmoji(level: string): string
  {
    if level == "danger" then "🚨"
    else if level == "warning" then "⚠️"
    else if level == "info" then "📝"
    else ""
  }

  /** The text posted: the level's emoji, a space, the message. */
  function TelegramText(level: string, message: string): (text: string)
    ensures |text| == |LevelEmoji(level)| + 1 + |message|
    ensures text[|LevelEmoji(level)|] == ' ' && text[|LevelEmoji(level)| + 1..] == message
  {
    LevelEmoji(level) + " " + message
  }

  /** An unknown level is posted with no emoji, only the space. */
  lemma UnknownLevelBare(level: string, message: string)
    requires level != "danger" && level != "warning" && level != "info"
    ensures TelegramText(level, message) == " " + message
  {
  }

  /** The three known levels have distinct, non-empty emoji. */
  lemma KnownLevelsMarked()
    ensures LevelEmoji("danger") != "" && LevelEmoji("warning") != "" && LevelEmoji("info") != ""
    ensures LevelEmoji("danger") != LevelEmoji("warning") && LevelEmoji("warning") != LevelEmoji("info")
    ensures LevelEmoji("danger") != LevelEmoji("info")
  {
    assert LevelEmoji("danger")[0] != LevelEmoji("warning")[0];
    assert LevelEmoji("warning")[0] != LevelEmoji("info")[0];
    assert LevelEmoji("danger")[0] != LevelEmoji("info")[0];
  }

  /** The `sendMessage` request: chat and text. */
  datatype TelegramPost = TelegramPost(chatId: string, text: string)

  /** The reply: `ok` set, `ok` not set, or an exception. */
  datatype TelegramReply = TelegramOk | TelegramNotOk(description: string) | TelegramRaised

  datatype TelegramOutcome = TelegramOutcome(request: Option<TelegramPost>, ok: bool)

  /** `TelegramNotifier.notify`: a disabled notifier sends nothing and
      answers False; an enabled one posts the text and answers True iff
      the reply says `ok` (an exception is caught and answers False). */
  function TelegramNotify(t: Telegram, message: string, level: string, reply: TelegramReply): (o: TelegramOutcome)
    ensures !Enabled(t) ==> o == TelegramOutcome(None, false)
    ensures Enabled(t) ==> o.request == Some(TelegramPost(t.chatId, TelegramText(level, message)))
    ensures o.ok <==> Enabled(t) && reply.TelegramOk?
  {
    if !Enabled(t) then TelegramOutcome(None, false)
    else TelegramOutcome(Some(TelegramPost(t.chatId, TelegramText(level, message))), reply.TelegramOk?)
  }

  /** `TelegramNotifier.initialize` succeeds exactly when it is enabled. */
  function TelegramInitialize(t: Telegram): (ok: bool)
    ensures ok <==> t.botToken != "" && t.chatId != ""
  {
    Enabled(t)
  }

  // --------------------------------------------------------------- Manager

  /** The results map of `notify_all` after the first `n` notifiers: each
      writes its class name, a later one overwriting an earlier. */
  function Results(kinds: seq<Kind>, outcome: nat -> Option<bool>, n: nat): map<string, bool>
    requires n <= |kinds|
  {
    if n == 0 then map[]
    else Results(kinds, outcome, n - 1)[ClassName(kinds[n - 1]) := Delivered(outcome(n - 1))]
  }

  /** The keys are the class names of the notifiers. */
  lemma {:induction false} ResultsKeys(kinds: seq<Kind>, outcome: nat -> Option<bool>, n: nat)
    requires n <= |kinds|
    ensures Results(kinds, outcome, n).Keys == set i | 0 <= i < n :: ClassName(kinds[i])
  {
    if n > 0 {
      ResultsKeys(kinds, outcome, n - 1);
      var prev := set i | 0 <= i < n - 1 :: ClassName(kinds[i]);
      assert (set i | 0 <= i < n :: ClassName(kinds[i])) == prev + {ClassName(kinds[n - 1])};
    }
  }

  /** A name holds the result of the last notifier of that class. */
  lemma {:induction false} ResultsLastWins(kinds: seq<Kind>, outcome: nat -> Option<bool>, n: nat, i: nat)
    requires i < n <= |kinds|
    requires forall j :: i < j < n ==> ClassName(kinds[j]) != ClassName(kinds[i])
    ensures ClassName(kinds[i]) in Results(kinds, outcome, n)
    ensures Results(kinds, outcome, n)[ClassName(kinds[i])] == Delivered(outcome(i))
  {
    if i < n - 1 {
      ResultsLastWins(kinds, outcome, n - 1, i);
    }
  }

  class IMManager {
    var notifiers: seq<Kind>

    constructor ()
      ensures notifiers == []
    {
      notifiers := [];
    }

    /** `initialize`: the WeChat notifier, whose initialize always succeeds,
        then the Telegram notifier when it is enabled, appended to those
        already loaded; True iff any notifier is loaded, which is always. */
    method Initialize(telegram: Telegram) returns (ok: bool)
      modifies this`notifiers
      ensures notifiers == old(notifiers) + [WeChatKind] + (if Enabled(telegram) then [TelegramKind] else [])
      ensures ok <==> |notifiers| > 0
      ensures ok
    {
      var wechatOk := true;
      if wechatOk {
        notifiers := notifiers + [WeChatKind];
      }
      if TelegramInitialize(telegram) {
        notifiers := notifiers + [TelegramKind];
      }
      return |notifiers| > 0;
    }

    /** `notify`: every notifier is asked in order, whatever the others
        answered or raised; True iff any of them answered True. */
    method Notify(outcome: nat -> Option<bool>) returns (success: bool)
      ensures success <==> exists i :: 0 <= i < |notifiers| && Delivered(outcome(i))
    {
      success := false;
      var i := 0;
      while i < |notifiers|
        invariant 0 <= i <= |notifiers|
        invariant success <==> exists j :: 0 <= j < i && Delivered(outcome(j))
      {
        if outcome(i) == Some(true) {
          success := true;
        }
        i := i + 1;
      }
    }

    /** `notify_all`: one result per class name, False for an exception. */
    method NotifyAll(outcome: nat -> Option<bool>) returns (results: map<string, bool>)
      ensures results == Results(notifiers, outcome, |notifiers|)
    {
      results := map[];
      var i := 0;
      while i < |notifiers|
        invariant 0 <= i <= |notifiers|
        invariant results == Results(notifiers, outcome, i)
      {
        var name := ClassName(notifiers[i]);
        assert Results(notifiers, outcome, i + 1) == Results(notifiers, outcome, i)[name := Delivered(outcome(i))];
        if outcome(i).Some? {
          assert Delivered(outcome(i)) == outcome(i).value;
          results := results[name := outcome(i).value];
        } else {
          results := results[name := false];
        }
        i := i + 1;
      }
    }

    /** `send_image`: only the notifiers that can send images are asked;
        True iff any of them succeeded. */
    method SendImage(outcome: nat -> Option<bool>) returns (success: bool, asked: seq<nat>)
      ensures success <==> exists i :: 0 <= i < |notifiers| && HasSendImage(notifiers[i]) && Delivered(outcome(i))
      ensures forall i :: 0 <= i < |notifiers| ==> (i in asked <==> HasSendImage(notifiers[i]))
      ensures forall k :: 0 <= k < |asked| ==> asked[k] < |notifiers|
    {
      success := false;
      asked := [];
      var i := 0;
      while i < |notifiers|
        invariant 0 <= i <= |notifiers|
        invariant success <==> exists j :: 0 <= j < i && HasSendImage(notifiers[j]) && Delivered(outcome(j))
        invariant forall j :: 0 <= j < |notifiers| ==> (j in asked <==> j < i && HasSendImage(notifiers[j]))
        invariant forall k :: 0 <= k < |asked| ==> asked[k] < i
      {
        if HasSendImage(notifiers[i]) {
          asked := asked + [i];
          if outcome(i) == Some(true) {
            success := true;
          }
        }
        i := i + 1;
      }
    }
  }
}
