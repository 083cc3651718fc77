/** The message value the messenger passes to its adapters
    (src/messenger/models/message.py): outgoing messages are built by four
    factories, one per kind, and shown by `__repr__`. */
module Messages {
  import opened Common

  datatype MessageDirection = Outgoing | Incoming

  datatype MessageType = Text | Image | File | Markdown | TextCard

  datatype MessageLevel = Info | Warning | Danger

  /** The fields the factories and the adapters use; `extra` maps a key to
      a string or to Python's None. */
  datatype Message = Message(
    direction: MessageDirection,
    mtype: MessageType,
    content: string,
    level: Option<MessageLevel>,
    platform: Option<string>,
    recipientId: Option<string>,
    sent: bool,
    processed: bool,
    filePath: Option<string>,
    extra: map<string, Option<string>>)

  /** The `value` of a `MessageType`. */
  function TypeValue(t: MessageType): string
  {
    match t
    case Text => "text"
    case Image => "image"
    case File => "file"
    case Markdown => "markdown"
    case TextCard => "text_card"
  }

  /** Python truthiness of an optional string. */
  predicate Given(s: Option<string>)
  {
    s.Some? && s.value != ""
  }

  /** `f"{x}"` of an optional string. */
  function OptText(s: Option<string>): string
  {
    if s.Some? then s.value else "None"
  }

  /** What every factory produces: an outgoing message, neither sent nor
      processed, with a level and a recipient. */
  predicate Outbound(m: Message)
  {
    m.direction == Outgoing && !m.sent && !m.processed && m.level.Some? && m.recipientId.Some?
  }

  /** The message every factory starts from. */
  function Draft(t: MessageType, content: string, recipientId: string, level: MessageLevel, platform: Option<string>): (m: Message)
    ensures Outbound(m) && m.mtype == t && m.content == content
    ensures m.recipientId == Some(recipientId) && m.level == Some(level) && m.platform == platform
    ensures m.filePath.None? && m.extra == map[]
  {
    Message(Outgoing, t, content, Some(level), platform, Some(recipientId), false, false, None, map[])
  }

  /** `Message.send_text`. */
  function SendText(content: string, recipientId: string, level: MessageLevel, platform: Option<string>): (m: Message)
    ensures Outbound(m) && m.mtype == Text && m.content == content && m.recipientId == Some(recipientId)
    ensures m.filePath.None? && m.extra == map[]
  {
    Draft(Text, content, recipientId, level, platform)
  }

  /** `Message.send_markdown`. */
  function SendMarkdown(content: string, recipientId: string, level: MessageLevel, platform: Option<string>): (m: Message)
    ensures Outbound(m) && m.mtype == Markdown && m.content == content && m.recipientId == Some(recipientId)
    ensures m.filePath.None? && m.extra == map[]
  {
    Draft(Markdown, content, recipientId, level, platform)
  }

  /** `Message.send_image`: the content names the picture, and the path is
      kept for the adapter. */
  function SendImage(imagePath: string, recipientId: string, level: MessageLevel, platform: Option<string>): (m: Message)
    ensures Outbound(m) && m.mtype == Image && m.filePath == Some(imagePath) && m.recipientId == Some(recipientId)
    ensures m.content == "[图片] " + imagePath && m.extra == map[]
  {
    Draft(Image, "[图片] " + imagePath, recipientId, level, platform).(filePath := Some(imagePath))
  }

  /** `Message.send_card` as written: when only one of title and url is
      given, the other is stored as None. */
  function SendCardAsWritten(content: string, recipientId: string, title: Option<string>, url: Option<string>,
                             level: MessageLevel, platform: Option<string>): (m: Message)
    ensures Outbound(m) && m.mtype == TextCard && m.content == content
    ensures (Given(title) || Given(url)) <==> m.extra != map[]
    ensures m.extra != map[] ==> m.extra == map["title" := title, "url" := url]
  {
    var extra: map<string, Option<string>> := if Given(title) || Given(url) then map["title" := title, "url" := url] else map[];
    assert "title" in extra <==> (Given(title) || Given(url));
    Draft(TextCard, content, recipientId, level, platform).(extra := extra)
  }

  /** `Message.send_card` as evidently intended: a missing title or url is
      stored as the empty string, never as None. */
  function SendCard(content: string, recipientId: string, title: Option<string>, url: Option<string>,
                    level: MessageLevel, platform: Option<string>): (m: Message)
    ensures Outbound(m) && m.mtype == TextCard && m.content == content
    ensures (Given(title) || Given(url)) <==> m.extra != map[]
    ensures forall k :: k in m.extra ==> m.extra[k].Some?
    ensures m.extra != map[] ==>
      "title" in m.extra && "url" in m.extra &&
      m.extra["title"].value == (if title.Some? then title.value else "") &&
      m.extra["url"].value == (if url.Some? then url.value else "")
  {
    var extra: map<string, Option<string>> :=
      if Given(title) || Given(url)
      then map["title" := Some(if title.Some? then title.value else ""), "url" := Some(if url.Some? then url.value else "")]
      else map[];
    assert "title" in extra <==> (Given(title) || Given(url));
    Draft(TextCard, content, recipientId, level, platform).(extra := extra)
  }

  /** The first `n` characters, or all of a shorter string (`s[:n]`). */
  function Prefix(s: string, n: nat): (p: string)
    ensures |p| <= n && |p| <= |s| && p == s[..|p|]
    ensures |s| <= n ==> p == s
  {
    if |s| <= n then s else s[..n]
  }

  /** `__repr__`: an arrow for the direction, then platform and type, then
      at most thirty characters of the content. */
  function Repr(m: Message): (r: string)
    ensures |r| > 8 && r[..8] == "Message(" && r[8] == (if m.direction == Outgoing then '→' else '←')
    ensures var shown := Prefix(m.content, 30);
      |r| >= |shown| + 4 && r[|r| - |shown| - 4..] == shown + "...)"
  {
    var arrow := if m.direction == Outgoing then "→" else "←";
    "Message(" + arrow + " " + OptText(m.platform) + " " + TypeValue(m.mtype) + ": " + Prefix(m.content, 30) + "...)"
  }
}
