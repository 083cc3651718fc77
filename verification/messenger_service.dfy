/** The messenger service (src/messenger/messenger_service.py): a list of
    adapters (WeChat first, then Telegram), broadcast sends that try every
    adapter, platform sends that use the first adapter of that name, and the
    choice of each platform's default recipient. `native(i, call)` is what
    the i-th adapter's own send does. */
module Messenger {
  import opened Common
  import opened Messages
  import opened Adapters

  /** The settings the service reads; absent settings are None. */
  datatype MessengerConfig = MessengerConfig(
    wechatCorpid: Option<string>,
    wechatSecret: Option<string>,
    wechatAgentid: Option<string>,
    wechatRecipient: Option<string>,
    telegramToken: Option<string>,
    telegramChatId: Option<string>,
    defaultRecipient: Option<string>,
    enableReceiving: bool)

  /** Python's `a or b or ""` over optional strings: the first given one. */
  function FirstGiven(candidates: seq<Option<string>>): (r: string)
    ensures r == "" <==> forall i :: 0 <= i < |candidates| ==> !Given(candidates[i])
    ensures r != "" ==> exists i :: 0 <= i < |candidates| && candidates[i] == Some(r) &&
                                    forall j :: 0 <= j < i ==> !Given(candidates[j])
    decreases |candidates|
  {
    if candidates == [] then ""
    else if Given(candidates[0]) then candidates[0].value
    else
      var r := FirstGiven(candidates[1..]);
      assert forall i :: 0 < i < |candidates| ==> candidates[i] == candidates[1..][i - 1];
      r
  }

  /** Where each platform's default recipient may come from, in order. */
  function RecipientSources(cfg: MessengerConfig, platform: string): seq<Option<string>>
  {
    if platform == "wechat" then [cfg.wechatRecipient, cfg.defaultRecipient]
    else if platform == "telegram" then [cfg.telegramChatId, cfg.defaultRecipient]
    else [cfg.defaultRecipient]
  }

  /** `_get_default_recipient`. */
  function DefaultRecipient(cfg: MessengerConfig, platform: string): (r: string)
    ensures platform == "wechat" && Given(cfg.wechatRecipient) ==> r == cfg.wechatRecipient.value
    ensures platform == "telegram" && Given(cfg.telegramChatId) ==> r == cfg.telegramChatId.value
    ensures (platform == "wechat" && !Given(cfg.wechatRecipient)) ||
            (platform == "telegram" && !Given(cfg.telegramChatId)) ||
            (platform != "wechat" && platform != "telegram") ==>
      r == (if Given(cfg.defaultRecipient) then cfg.defaultRecipient.value else "")
  {
    var own := if platform == "wechat" then cfg.wechatRecipient
               else if platform == "telegram" then cfg.telegramChatId
               else None;
    if Given(own) then own.value
    else if Given(cfg.defaultRecipient) then cfg.defaultRecipient.value
    else ""
  }

  /** The chain of `or`s picks the first given source for the platform. */
  lemma DefaultRecipientFirstGiven(cfg: MessengerConfig, platform: string)
    ensures DefaultRecipient(cfg, platform) == FirstGiven(RecipientSources(cfg, platform))
  {
    var s := RecipientSources(cfg, platform);
    if |s| == 2 {
      assert s[1..][1..] == [];
    } else {
      assert s[1..] == [];
    }
  }

  /** The index of the first adapter with the given name. */
  function FirstNamed(adapters: seq<AdapterSpec>, name: string): (r: Option<nat>)
    ensures r.None? <==> forall i :: 0 <= i < |adapters| ==> adapters[i].platformName != name
    ensures r.Some? ==> r.value < |adapters| && adapters[r.value].platformName == name &&
                        forall j :: 0 <= j < r.value ==> adapters[j].platformName != name
    decreases |adapters|
  {
    if adapters == [] then None
    else if adapters[0].platformName == name then Some(0)
    else
      match FirstNamed(adapters[1..], name)
      case None => None
      case Some(k) => Some(k + 1)
  }

  /** The adapters the constructor keeps: WeChat, then Telegram, skipping
      an absent one. */
  function AdapterList(wechat: Option<AdapterSpec>, telegram: Option<AdapterSpec>): (l: seq<AdapterSpec>)
    ensures |l| == (if wechat.Some? then 1 else 0) + (if telegram.Some? then 1 else 0)
    ensures wechat.Some? ==> l[0] == wechat.value
    ensures telegram.Some? ==> l[|l| - 1] == telegram.value
  {
    (if wechat.Some? then [wechat.value] else []) + (if telegram.Some? then [telegram.value] else [])
  }

  class MessengerService {
    const config: MessengerConfig
    const adapters: seq<AdapterSpec>

    constructor (wechat: Option<AdapterSpec>, telegram: Option<AdapterSpec>, config: MessengerConfig)
      ensures adapters == AdapterList(wechat, telegram) && this.config == config
    {
      this.config := config;
      adapters := AdapterList(wechat, telegram);
    }

    predicate HasAdapters()
    {
      |adapters| > 0
    }

    /** The text message built for adapter i. */
    function TextFor(i: nat, content: string, level: MessageLevel): Message
      requires i < |adapters|
    {
      SendText(content, DefaultRecipient(config, adapters[i].platformName), level, None)
    }

    /** The image message built for adapter i. */
    function ImageFor(i: nat, path: string, level: MessageLevel): Message
      requires i < |adapters|
    {
      SendImage(path, DefaultRecipient(config, adapters[i].platformName), level, None)
    }

    /** What adapter i's `send_message` of the text message reports. */
    function TextReply(i: nat, content: string, level: MessageLevel, native: (nat, Call) -> Reply): Reply
      requires i < |adapters|
    {
      SendMessage(adapters[i], TextFor(i, content, level), c => native(i, c)).reply
    }

    /** What adapter i's `send_message` of the image message reports. */
    function ImageReply(i: nat, path: string, level: MessageLevel, native: (nat, Call) -> Reply): Reply
      requires i < |adapters|
    {
      SendMessage(adapters[i], ImageFor(i, path, level), c => native(i, c)).reply
    }

    /** `_send_to_all_text`: every adapter is tried, an exception counts as
        a failure, and the result is whether any adapter reported success. */
    method SendToAllText(content: string, level: MessageLevel, native: (nat, Call) -> Reply) returns (success: bool)
      ensures success <==> exists i :: 0 <= i < |adapters| && TextReply(i, content, level, native) == Returned(true)
    {
      success := false;
      var i := 0;
      while i < |adapters|
        invariant 0 <= i <= |adapters|
        invariant success <==> exists j :: 0 <= j < i && TextReply(j, content, level, native) == Returned(true)
      {
        var reply := TextReply(i, content, level, native);
        if reply == Returned(true) {
          success := true;
        }
        i := i + 1;
      }
    }

    /** `_send_to_all_image`, the same loop over image messages. */
    method SendToAllImage(path: string, level: MessageLevel, native: (nat, Call) -> Reply) returns (success: bool)
      ensures success <==> exists i :: 0 <= i < |adapters| && ImageReply(i, path, level, native) == Returned(true)
    {
      success := false;
      var i := 0;
      while i < |adapters|
        invariant 0 <= i <= |adapters|
        invariant success <==> exists j :: 0 <= j < i && ImageReply(j, path, level, native) == Returned(true)
      {
        var reply := ImageReply(i, path, level, native);
        if reply == Returned(true) {
          success := true;
        }
        i := i + 1;
      }
    }

    /** The caller's message as `_send_to_all_message` hands it to adapter
        i: that adapter's default recipient, and the platform the previous
        adapter stamped on it. */
    function HandedOn(i: nat, message: Message): Message
      requires i < |adapters|
    {
      var m := message.(recipientId := Some(DefaultRecipient(config, adapters[i].platformName)));
      if i == 0 then m else m.(platform := Some(adapters[i - 1].platformName))
    }

    /** What adapter i's `send_message` of the caller's message reports. */
    function MessageReply(i: nat, message: Message, native: (nat, Call) -> Reply): Reply
      requires i < |adapters|
    {
      SendMessage(adapters[i], HandedOn(i, message), c => native(i, c)).reply
    }

    /** `_send_to_all_message`: the caller's message is changed in place for
        each adapter, so afterwards it carries the last adapter's platform
        and default recipient. The changed message is returned. */
    method SendToAllMessage(message: Message, native: (nat, Call) -> Reply) returns (success: bool, after: Message)
      ensures |adapters| == 0 ==> after == message
      ensures |adapters| > 0 ==>
        var last := adapters[|adapters| - 1].platformName;
        after == message.(recipientId := Some(DefaultRecipient(config, last)), platform := Some(last))
      ensures success <==> exists i :: 0 <= i < |adapters| && MessageReply(i, message, native) == Returned(true)
    {
      success := false;
      after := message;
      var i := 0;
      while i < |adapters|
        invariant 0 <= i <= |adapters|
        invariant i == 0 ==> after == message
        invariant i > 0 ==>
          after == message.(recipientId := Some(DefaultRecipient(config, adapters[i - 1].platformName)),
                            platform := Some(adapters[i - 1].platformName))
        invariant success <==> exists j :: 0 <= j < i && MessageReply(j, message, native) == Returned(true)
      {
        after := after.(recipientId := Some(DefaultRecipient(config, adapters[i].platformName)));
        assert after == HandedOn(i, message);
        var reply := MessageReply(i, message, native);
        after := SendMessage(adapters[i], after, c => native(i, c)).message;
        if reply == Returned(true) {
          success := true;
        }
        i := i + 1;
      }
    }

    /** `_send_to_platform_text`: only the first adapter with that name is
        used, and its exception is not caught; no such adapter gives False. */
    method SendToPlatformText(content: string, level: MessageLevel, platform: string, native: (nat, Call) -> Reply)
      returns (r: Reply)
      ensures FirstNamed(adapters, platform).None? ==> r == Returned(false)
      ensures FirstNamed(adapters, platform).Some? ==>
        var i := FirstNamed(adapters, platform).value;
        r == SendMessage(adapters[i], SendText(content, DefaultRecipient(config, platform), level, None), c => native(i, c)).reply
    {
      var i := 0;
      while i < |adapters|
        invariant 0 <= i <= |adapters|
        invariant forall j :: 0 <= j < i ==> adapters[j].platformName != platform
      {
        if adapters[i].platformName == platform {
          var recipient := DefaultRecipient(config, platform);
          var message := SendText(content, recipient, level, None);
          var sent := SendMessage(adapters[i], message, c => native(i, c));
          return sent.reply;
        }
        i := i + 1;
      }
      return Returned(false);
    }

    /** `_send_to_platform_message`: the same choice of adapter; the message
        gets that platform's default recipient. */
    method SendToPlatformMessage(message: Message, platform: string, native: (nat, Call) -> Reply)
      returns (r: Reply, after: Message)
      ensures FirstNamed(adapters, platform).None? ==> r == Returned(false) && after == message
      ensures FirstNamed(adapters, platform).Some? ==>
        var i := FirstNamed(adapters, platform).value;
        var m := message.(recipientId := Some(DefaultRecipient(config, platform)));
        r == SendMessage(adapters[i], m, c => native(i, c)).reply && after == m.(platform := Some(platform))
    {
      var i := 0;
      while i < |adapters|
        invariant 0 <= i <= |adapters|
        invariant forall j :: 0 <= j < i ==> adapters[j].platformName != platform
      {
        if adapters[i].platformName == platform {
          var m := message.(recipientId := Some(DefaultRecipient(config, platform)));
          var sent := SendMessage(adapters[i], m, c => native(i, c));
          return sent.reply, sent.message;
        }
        i := i + 1;
      }
      return Returned(false), message;
    }

    /** `send`: a named platform goes to that platform only, otherwise to all. */
    method Send(content: string, level: MessageLevel, platform: Option<string>, native: (nat, Call) -> Reply)
      returns (r: Reply)
      ensures Given(platform) && FirstNamed(adapters, platform.value).None? ==> r == Returned(false)
      ensures Given(platform) && FirstNamed(adapters, platform.value).Some? ==>
        var i := FirstNamed(adapters, platform.value).value;
        r == TextReply(i, content, level, native)
      ensures !Given(platform) ==>
        r.Returned? && (r.ok <==> exists i :: 0 <= i < |adapters| && TextReply(i, content, level, native) == Returned(true))
    {
      if Given(platform) {
        r := SendToPlatformText(content, level, platform.value, native);
      } else {
        var ok := SendToAllText(content, level, native);
        r := Returned(ok);
      }
    }

    /** `send_message`: a named platform gets the message alone, otherwise
        every adapter does, and the result is whether any adapter succeeded. */
    method SendMessageTo(message: Message, platform: Option<string>, native: (nat, Call) -> Reply)
      returns (r: Reply, after: Message)
      ensures Given(platform) && FirstNamed(adapters, platform.value).None? ==> r == Returned(false) && after == message
      ensures Given(platform) && FirstNamed(adapters, platform.value).Some? ==>
        var i := FirstNamed(adapters, platform.value).value;
        var m := message.(recipientId := Some(DefaultRecipient(config, platform.value)));
        r == SendMessage(adapters[i], m, c => native(i, c)).reply && after == m.(platform := platform)
      ensures !Given(platform) && |adapters| == 0 ==> r == Returned(false) && after == message
      ensures !Given(platform) && |adapters| > 0 ==>
        var last := adapters[|adapters| - 1].platformName;
        r.Returned? && after == message.(recipientId := Some(DefaultRecipient(config, last)), platform := Some(last))
      ensures !Given(platform) ==>
        r.Returned? && (r.ok <==> exists i :: 0 <= i < |adapters| && MessageReply(i, message, native) == Returned(true))
    {
      if Given(platform) {
        r, after := SendToPlatformMessage(message, platform.value, native);
      } else {
        var ok;
        ok, after := SendToAllMessage(message, native);
        r := Returned(ok);
      }
    }

    /** `start_receiving`: disabled receiving touches no adapter; otherwise
        True iff some adapter started, where only adapters with their own
        `start_receiving` can. */
    method StartReceiving(start: nat -> Reply) returns (success: bool)
      ensures !config.enableReceiving ==> !success
      ensures config.enableReceiving ==>
        (success <==> exists i :: 0 <= i < |adapters| && adapters[i].ownReceiving && start(i) == Returned(true))
    {
      if !config.enableReceiving {
        return false;
      }
      success := false;
      var i := 0;
      while i < |adapters|
        invariant 0 <= i <= |adapters|
        invariant success <==> exists j :: 0 <= j < i && adapters[j].ownReceiving && start(j) == Returned(true)
      {
        var r := if adapters[i].ownReceiving then start(i) else Returned(DefaultUnsupported());
        if r == Returned(true) {
          success := true;
        }
        i := i + 1;
      }
    }
  }

  /** `create_messenger_service`: WeChat only with corp id, secret and
      recipient all given and a successful `initialize`; Telegram only with
      token and chat id given and a successful `initialize`. */
  method CreateMessengerService(cfg: MessengerConfig, wechat: AdapterSpec, wechatInit: bool,
                                telegram: AdapterSpec, telegramInit: bool) returns (s: MessengerService)
    requires wechat.platformName == "wechat" && telegram.platformName == "telegram"
    ensures fresh(s) && s.config == cfg
    ensures var useWechat := Given(cfg.wechatCorpid) && Given(cfg.wechatSecret) && Given(cfg.wechatRecipient) && wechatInit;
            var useTelegram := Given(cfg.telegramToken) && Given(cfg.telegramChatId) && telegramInit;
            s.adapters == AdapterList(if useWechat then Some(wechat) else None, if useTelegram then Some(telegram) else None)
  {
    var made: seq<AdapterSpec> := [];
    if Given(cfg.wechatCorpid) && Given(cfg.wechatSecret) && Given(cfg.wechatRecipient) {
      if wechatInit {
        made := made + [wechat];
      }
    }
    if Given(cfg.telegramToken) && Given(cfg.telegramChatId) {
      if telegramInit {
        made := made + [telegram];
      }
    }
    var w := FirstNamed(made, "wechat");
    var t := FirstNamed(made, "telegram");
    s := new MessengerService(if w.Some? then Some(made[w.value]) else None,
                              if t.Some? then Some(made[t.value]) else None, cfg);
  }
}
