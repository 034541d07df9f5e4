/** The chat platform as the cog sees it: identities, channels, messages,
    the values a `say` payload can hold, and the calls the bot makes.
    Users and channels are compared by id, as the platform library's own
    equality does. */
module Discord {

  type UserId = nat
  type ChannelId = nat

  datatype Option<T> = None | Some(value: T)

  /** A private conversation with one user, or a text channel of a guild. */
  datatype Channel = DMChannel(id: ChannelId) | TextChannel(id: ChannelId)

  /** A guild, reduced to the one fact the owner check reads. */
  datatype Guild = Guild(ownerId: UserId)

  /** A file attached to a message; downloading it is not modelled. */
  datatype Attachment = Attachment(url: string)

  /** The invocation context of a command. */
  datatype Context = Context(
    author: UserId,
    channel: Channel,
    guild: Option<Guild>,
    attachments: seq<Attachment>)

  /** A message author: `tag` is its string form (name and discriminator). */
  datatype Author = Author(id: UserId, tag: string, colour: nat, avatarUrl: string)

  /** An incoming message; `createdAt` is its creation time, unformatted. */
  datatype Message = Message(
    author: Author,
    channel: Channel,
    content: string,
    attachments: seq<Attachment>,
    createdAt: int)

  /** The rich summary the relay builds of a channel message. */
  datatype Embed = Embed(
    authorName: string,
    iconUrl: string,
    footerTime: int,
    description: string,
    colour: nat,
    image: Option<string>)

  /** A decoded JSON value, as `json.loads` returns it (numbers as integers). */
  datatype Json =
    | JNull
    | JBool(b: bool)
    | JNumber(n: int)
    | JString(s: string)
    | JArray(items: seq<Json>)
    | JObject(members: map<string, Json>)

  /** A value of the keyword arguments handed to `channel.send(**payload)`:
      the decoded JSON, or the embed object built from the "embed" member. */
  datatype Value = Raw(json: Json) | BuiltEmbed(fields: map<string, Json>)

  /** The fixed texts the bot sends; only `ErrorText` carries free text. */
  datatype Notice =
    | NeedChannel
    | AlreadyRunning
    | Instructions(target: Channel)
    | RequestTimedOut
    | SessionClosed
    | CannotSend(target: Channel)
    | CannotUpload(target: Channel)
    | BadJson
    | ErrorText(text: string)

  datatype Body =
    | Text(content: string, files: seq<Attachment>)
    | Structured(kwargs: map<string, Value>)
    | Rich(embed: Embed)
    | NoticeBody(notice: Notice)

  /** One call the bot makes to the platform. */
  datatype Action =
    | SendHelp
    | Reply(body: Body, deleteAfter: Option<nat>)
    | DirectMessage(to: UserId, body: Body, deleteAfter: Option<nat>)
    | ChannelSend(dest: ChannelId, body: Body)
    | AddReaction(emoji: string)
    | LogError(text: string)

  /** The Python exceptions the modelled code can let escape. */
  datatype PyError = ValueError | TypeError | AttributeError | UnboundLocalError | HttpError

  const CloseEmoji := "❌"

  function DigitChar(d: nat): (c: char)
    requires d < 10
    ensures '0' <= c <= '9' && c as int - '0' as int == d
  {
    (d + '0' as int) as char
  }

  function DigitValue(c: char): nat
    requires '0' <= c <= '9'
  {
    c as int - '0' as int
  }

  predicate AllDigits(s: string) {
    forall k :: 0 <= k < |s| ==> '0' <= s[k] <= '9'
  }

  /** `str(n)` for a non-negative integer: decimal, no leading zero. */
  function DecimalString(n: nat): (r: string)
    ensures |r| >= 1 && AllDigits(r)
    ensures r[0] == '0' ==> n == 0
    decreases n
  {
    if n < 10 then [DigitChar(n)] else DecimalString(n / 10) + [DigitChar(n % 10)]
  }

  /** Reads a string of decimal digits back as a number. */
  function ParseDecimal(s: string): nat
    requires AllDigits(s)
  {
    if s == [] then 0 else ParseDecimal(s[..|s| - 1]) * 10 + DigitValue(s[|s| - 1])
  }

  /** Decimal ids round-trip: the id a summary shows identifies the author. */
  lemma {:induction false} ParseDecimalString(n: nat)
    ensures ParseDecimal(DecimalString(n)) == n
  {
    if n >= 10 {
      var r := DecimalString(n);
      assert r[..|r| - 1] == DecimalString(n / 10);
      ParseDecimalString(n / 10);
    }
  }

  /** `channel.mention`: the channel id in decimal between "<#" and ">",
      so the id can be read back from it. */
  function Mention(c: Channel): (r: string)
    ensures |r| >= 4 && r[..2] == "<#" && r[|r| - 1] == '>'
    ensures AllDigits(r[2..|r| - 1]) && ParseDecimal(r[2..|r| - 1]) == c.id
  {
    var digits := DecimalString(c.id);
    ParseDecimalString(c.id);
    var r := "<#" + digits + ">";
    assert r[2..|r| - 1] == digits;
    r
  }

  /** The instructions after the channel's mention. */
  const InstructionsTail := ".\n"
    + "Just send me any message and I will send it in that channel.\n"
    + "React with ❌ on this message to end the session.\n"
    + "If no message was send or received in the last 5 minutes, "
    + "the request will time out and stop."

  function EndingWith(head: string, tail: string): (r: string)
    ensures |r| == |head| + |tail| && r[|r| - |tail|..] == tail
  {
    head + tail
  }

  /** The English text of each notice. A permission notice ends with the
      channel's mention, the instructions name the channel after their
      opening words, and an HTTP error text is echoed unchanged. */
  function NoticeText(n: Notice): (r: string)
    ensures (n.CannotSend? || n.CannotUpload?) ==>
      |Mention(n.target)| <= |r| && r[|r| - |Mention(n.target)|..] == Mention(n.target)
    ensures n.Instructions? ==>
      39 + |Mention(n.target)| <= |r| && r[39..39 + |Mention(n.target)|] == Mention(n.target)
    ensures n.ErrorText? ==> r == n.text
  {
    match n
    case NeedChannel =>
      "You need to give a channel to enable this in DM. You can give the channel ID too."
    case AlreadyRunning => "A session is already running."
    case Instructions(c) =>
      var head := "I will start sending you messages from ";
      var r := head + Mention(c) + InstructionsTail;
      assert |head| == 39 && r[39..39 + |Mention(c)|] == Mention(c);
      r
    case RequestTimedOut => "Request timed out. Session closed"
    case SessionClosed => "Session closed"
    case CannotSend(c) => EndingWith("I am not allowed to send messages in ", Mention(c))
    case CannotUpload(c) => EndingWith("I am not allowed to upload files in ", Mention(c))
    case BadJson => "Something is wrong in your JSON input."
    case ErrorText(t) => t
  }
}
