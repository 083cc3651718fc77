/** The adapter base class (src/messenger/adapters/base_adapter.py):
    `send_message` stamps the platform on the message and hands it to one of
    the adapter's own sends by message type; the optional sends fall back to
    defaults. A concrete adapter is described by its platform name and by
    which optional sends it implements itself; what its own sends do is a
    parameter. */
module Adapters {
  import opened Common
  import opened Messages

  /** A send implemented by the concrete adapter. */
  datatype Call =
    | TextCall(content: string, recipient: Option<string>)
    | MarkdownCall(content: string, recipient: Option<string>)
    | ImageCall(path: Option<string>, recipient: Option<string>)
    | CardCall(title: Option<string>, description: string, url: Option<string>, recipient: Option<string>)

  /** What a send does: it returns a flag or raises. */
  datatype Reply = Returned(ok: bool) | Raised

  /** A concrete adapter: its `platform_name` and which optional sends it
      overrides. */
  datatype AdapterSpec = AdapterSpec(
    platformName: string,
    ownMarkdown: bool,
    ownImage: bool,
    ownCard: bool,
    ownReceiving: bool)

  /** `message.extra.get(key, "")`: a stored None comes back as None. */
  function ExtraGet(extra: map<string, Option<string>>, key: string): (v: Option<string>)
    ensures key !in extra ==> v == Some("")
    ensures key in extra ==> v == extra[key]
  {
    if key in extra then extra[key] else Some("")
  }

  /** The send `send_message` asks for, by message type; None for a type it
      has no branch for (FILE), which returns False. */
  function Dispatch(m: Message): (c: Option<Call>)
    ensures c.None? <==> m.mtype == File
    ensures m.mtype == Text ==> c == Some(TextCall(m.content, m.recipientId))
    ensures m.mtype == Image ==> c == Some(ImageCall(m.filePath, m.recipientId))
    ensures m.mtype == Markdown ==> c == Some(MarkdownCall(m.content, m.recipientId))
    ensures m.mtype == TextCard ==>
      c == Some(CardCall(ExtraGet(m.extra, "title"), m.content, ExtraGet(m.extra, "url"), m.recipientId))
  {
    match m.mtype
    case Text => Some(TextCall(m.content, m.recipientId))
    case Image => Some(ImageCall(m.filePath, m.recipientId))
    case Markdown => Some(MarkdownCall(m.content, m.recipientId))
    case TextCard => Some(CardCall(ExtraGet(m.extra, "title"), m.content, ExtraGet(m.extra, "url"), m.recipientId))
    case File => None
  }

  /** The default `send_card`'s text: title, description and url on three
      lines, each formatted with `str()`. */
  function CardText(title: Option<string>, description: string, url: Option<string>): string
  {
    OptText(title) + "\n" + description + "\n" + OptText(url)
  }

  /** The base-class defaults: markdown is sent as text, a card as its text,
      and an image by an adapter without its own `send_image` is refused
      (None, returning False). A text send is always the adapter's own. */
  function Resolve(a: AdapterSpec, c: Call): (r: Option<Call>)
    ensures r.Some? ==> r.value.TextCall? || (r.value.MarkdownCall? && a.ownMarkdown) ||
                        (r.value.ImageCall? && a.ownImage) || (r.value.CardCall? && a.ownCard)
    ensures r.None? <==> c.ImageCall? && !a.ownImage
    ensures c.TextCall? ==> r == Some(c)
    ensures c.MarkdownCall? && !a.ownMarkdown ==> r == Some(TextCall(c.content, c.recipient))
    ensures c.CardCall? && !a.ownCard ==> r == Some(TextCall(CardText(c.title, c.description, c.url), c.recipient))
  {
    match c
    case TextCall(_, _) => Some(c)
    case MarkdownCall(content, recipient) => if a.ownMarkdown then Some(c) else Some(TextCall(content, recipient))
    case ImageCall(_, _) => if a.ownImage then Some(c) else None
    case CardCall(title, description, url, recipient) =>
      if a.ownCard then Some(c) else Some(TextCall(CardText(title, description, url), recipient))
  }

  datatype Sent = Sent(message: Message, reply: Reply)

  /** `send_message`: the message comes back with the adapter's platform set,
      and the reply is that of the send the type selects, or False when
      nothing is sent. */
  function SendMessage(a: AdapterSpec, m: Message, native: Call -> Reply): (s: Sent)
    ensures s.message == m.(platform := Some(a.platformName))
    ensures (m.mtype == File || (m.mtype == Image && !a.ownImage)) ==> s.reply == Returned(false)
    ensures m.mtype == Text ==> s.reply == native(TextCall(m.content, m.recipientId))
  {
    var m' := m.(platform := Some(a.platformName));
    match Dispatch(m')
    case None => Sent(m', Returned(false))
    case Some(c) =>
      match Resolve(a, c)
      case None => Sent(m', Returned(false))
      case Some(call) => Sent(m', native(call))
  }

  /** The default `send_file` and `start_receiving`: unsupported. */
  function DefaultUnsupported(): (ok: bool)
    ensures !ok
  {
    false
  }

  /** A message from each factory reaches the matching send with the
      content or path and the recipient it was built with. */
  lemma FactoriesRoute(a: AdapterSpec, content: string, recipient: string, level: MessageLevel, platform: Option<string>, native: Call -> Reply)
    ensures SendMessage(a, SendText(content, recipient, level, platform), native).reply ==
      native(TextCall(content, Some(recipient)))
    ensures SendMessage(a, SendMarkdown(content, recipient, level, platform), native).reply ==
      native(if a.ownMarkdown then MarkdownCall(content, Some(recipient)) else TextCall(content, Some(recipient)))
    ensures SendMessage(a, SendImage(content, recipient, level, platform), native).reply ==
      (if a.ownImage then native(ImageCall(Some(content), Some(recipient))) else Returned(false))
  {
  }

  /** As written, a card with a url and no title reaches `send_card` with
      the title None, which the default text shows as "None". */
  lemma CardWithoutTitleAsWritten(a: AdapterSpec, content: string, recipient: string, url: string,
                                  level: MessageLevel, platform: Option<string>)
    requires url != ""
    ensures Dispatch(SendCardAsWritten(content, recipient, None, Some(url), level, platform)) ==
      Some(CardCall(None, content, Some(url), Some(recipient)))
    ensures CardText(None, content, Some(url)) == "None\n" + content + "\n" + url
  {
    var m := SendCardAsWritten(content, recipient, None, Some(url), level, platform);
    assert m.extra == map["title" := None, "url" := Some(url)];
  }

  /** With the corrected factory every card reaches `send_card` with both
      title and url as strings, a missing one as the empty string. */
  lemma CardRoutes(a: AdapterSpec, content: string, recipient: string, title: Option<string>, url: Option<string>,
                   level: MessageLevel, platform: Option<string>)
    ensures var t := if title.Some? then title.value else "";
            var u := if url.Some? then url.value else "";
            Dispatch(SendCard(content, recipient, title, url, level, platform)) ==
              Some(CardCall(Some(t), content, Some(u), Some(recipient)))
  {
    var m := SendCard(content, recipient, title, url, level, platform);
    if !(Given(title) || Given(url)) {
      assert m.extra == map[];
    }
  }
}
