/** The decision logic of the `say` helper: which payloads count as empty,
    and what happens when the platform refuses to deliver. */
module Delivery {
  import opened Discord

  /** Python truthiness of a decoded JSON value: false exactly for `None`,
      `False`, zero and the empty string, list and dictionary. */
  predicate Truthy(j: Json): (b: bool)
    ensures !b <==> (|| j == JNull || j == JBool(false) || j == JNumber(0)
                     || j == JString("") || j == JArray([]) || j == JObject(map[]))
  {
    match j
    case JNull => false
    case JBool(b) => b
    case JNumber(n) => n != 0
    case JString(s) => s != ""
    case JArray(items) => items != []
    case JObject(members) => members != map[]
  }

  /** What `say` is asked to send: free text, or a decoded JSON object. */
  datatype Payload = TextPayload(text: string) | DictPayload(fields: map<string, Json>)

  /** `not payload` in `say`: text and a decoded object are truthy as the
      corresponding JSON values would be. */
  predicate PayloadTruthy(p: Payload): (b: bool)
    ensures p.TextPayload? ==> (b <==> Truthy(JString(p.text)))
    ensures p.DictPayload? ==> (b <==> Truthy(JObject(p.fields)))
  {
    match p
    case TextPayload(t) => t != ""
    case DictPayload(m) => m != map[]
  }

  /** `dict.get(key)` followed by a truth test: a missing key reads as
      `None`. */
  predicate HasTruthy(m: map<string, Json>, key: string): (b: bool)
    ensures b <==> Truthy(if key in m then m[key] else JNull)
  {
    key in m && Truthy(m[key])
  }

  /** The keyword arguments `say` hands to the platform for a JSON object,
      or the exception raised while preparing them. */
  datatype Prepared = Ready(kwargs: map<string, Value>) | Fails(error: PyError)

  /** The preparation of a JSON object payload. A truthy "content" is
      filtered for non-owners (the filter raises on a value that is not a
      string); a truthy "embed" must be an object (`.get` raises otherwise),
      loses a truthy "timestamp" and becomes an embed object; every other
      member passes unchanged. The source updates the dictionary in place. */
  function PrepareDict(fields: map<string, Json>, owner: bool, filter: string -> string): (r: Prepared)
    ensures r.Fails? <==>
      (!owner && HasTruthy(fields, "content") && !fields["content"].JString?)
      || (HasTruthy(fields, "embed") && !fields["embed"].JObject?)
    ensures r.Fails? && !owner && HasTruthy(fields, "content") && !fields["content"].JString? ==>
      r.error == TypeError
    ensures r.Fails? && !(!owner && HasTruthy(fields, "content") && !fields["content"].JString?) ==>
      r.error == AttributeError
    ensures r.Ready? ==> r.kwargs.Keys == fields.Keys
    ensures r.Ready? ==> forall k :: k in fields && k != "content" && k != "embed" ==> r.kwargs[k] == Raw(fields[k])
    ensures r.Ready? && "content" in fields && (owner || !Truthy(fields["content"])) ==>
      r.kwargs["content"] == Raw(fields["content"])
    ensures r.Ready? && !owner && HasTruthy(fields, "content") ==>
      r.kwargs["content"] == Raw(JString(filter(fields["content"].s)))
    ensures r.Ready? && "embed" in fields && !Truthy(fields["embed"]) ==>
      r.kwargs["embed"] == Raw(fields["embed"])
    ensures r.Ready? && HasTruthy(fields, "embed") ==>
      var e := fields["embed"].members;
      && r.kwargs["embed"].BuiltEmbed?
      && r.kwargs["embed"].fields.Keys == e.Keys
      && (HasTruthy(e, "timestamp") ==> r.kwargs["embed"].fields["timestamp"] == JNull)
      && (forall k :: k in e && !(k == "timestamp" && HasTruthy(e, k)) ==> r.kwargs["embed"].fields[k] == e[k])
  {
    var raw: map<string, Value> := map k | k in fields :: Raw(fields[k]);
    if !owner && HasTruthy(fields, "content") && !fields["content"].JString? then
      Fails(TypeError)
    else
      var withContent :=
        if !owner && HasTruthy(fields, "content")
        then raw["content" := Raw(JString(filter(fields["content"].s)))]
        else raw;
      if !HasTruthy(fields, "embed") then Ready(withContent)
      else if !fields["embed"].JObject? then Fails(AttributeError)
      else
        var e := fields["embed"].members;
        var cleared := if HasTruthy(e, "timestamp") then e["timestamp" := JNull] else e;
        Ready(withContent["embed" := BuiltEmbed(cleared)])
  }

  /** What `say` hands to the platform, or the exception raised first. */
  datatype Outgoing = Sending(body: Body) | Refused(error: PyError)

  /** The message `say` sends for a payload: free text goes with the files,
      filtered unless the sender is the owner; a JSON object goes prepared,
      without the files. */
  function OutgoingFor(payload: Payload, files: seq<Attachment>, owner: bool, filter: string -> string): (r: Outgoing)
    ensures payload.TextPayload? ==>
      r == Sending(Text(if owner then payload.text else filter(payload.text), files))
    ensures payload.DictPayload? ==>
      var prepared := PrepareDict(payload.fields, owner, filter);
      && (r.Refused? <==> prepared.Fails?)
      && (r.Refused? ==> r.error == prepared.error)
      && (r.Sending? ==> r.body == Structured(prepared.kwargs))
    ensures r.Sending? ==> (r.body.Structured? <==> payload.DictPayload?)
  {
    match payload
    case TextPayload(text) => Sending(Text(if owner then text else filter(text), files))
    case DictPayload(fields) =>
      var prepared := PrepareDict(fields, owner, filter);
      if prepared.Fails? then Refused(prepared.error) else Sending(Structured(prepared.kwargs))
  }

  /** How the platform answers a send: delivered, refused because the
      keyword arguments do not fit (`TypeError`), or an HTTP error. */
  datatype SendResult = Delivered | BadArguments | HttpFailure(code: int, text: string)

  /** How the platform answers a notice in the invoking channel. */
  datatype NoticeResult = NoticeDelivered | NoticeForbidden | NoticeFailed

  /** The bot's permissions in the destination channel. */
  datatype Perms = Perms(sendMessages: bool, attachFiles: bool)

  /** The calls made, and the exception that escaped, if any. */
  datatype Response = Response(acts: seq<Action>, raised: Option<PyError>)

  const InvalidFormBody := 50035

  /** The context logged with an unknown failure: the file count and the
      urls of the invoking message's attachments. */
  function Diagnostic(files: seq<Attachment>, attachments: seq<Attachment>): (r: string)
    ensures files == [] <==> r == "Has files: no"
  {
    if files != [] then
      "Has files: yes\nNumber of files: " + DecimalString(|files|) + "\nFiles URL: " + JoinUrls(attachments)
    else
      "Has files: no"
  }

  /** `", ".join(x.url for x in attachments)`: empty without attachments,
      the first url first and, between it and the rest, a separator. */
  function JoinUrls(attachments: seq<Attachment>): (r: string)
    ensures attachments == [] ==> r == ""
    ensures |attachments| == 1 ==> r == attachments[0].url
    ensures |attachments| >= 2 ==> attachments[0].url + ", " <= r
    ensures |r| >= |attachments| * 2 - 2
    decreases |attachments|
  {
    if attachments == [] then ""
    else if |attachments| == 1 then attachments[0].url
    else attachments[0].url + ", " + JoinUrls(attachments[1..])
  }

  /** A permission notice: first in the invoking channel, removed after two
      seconds; only if that is forbidden, privately to `fallback` with a
      fifteen-second expiry. Without a fallback name in scope Python raises
      `UnboundLocalError` instead. Any other failure escapes. */
  function Notify(n: Notice, reply: NoticeResult, fallback: Option<UserId>): (r: Response)
    ensures |r.acts| >= 1 && r.acts[0] == Reply(NoticeBody(n), Some(2))
    ensures forall k :: 1 <= k < |r.acts| ==> !r.acts[k].Reply?
    ensures |r.acts| == 2 <==> reply == NoticeForbidden && fallback.Some?
    ensures |r.acts| == 2 ==> r.acts[1] == DirectMessage(fallback.value, NoticeBody(n), Some(15))
    ensures |r.acts| <= 2
    ensures r.raised.None? <==> reply == NoticeDelivered || (reply == NoticeForbidden && fallback.Some?)
    ensures reply == NoticeForbidden && fallback.None? ==> r.raised == Some(UnboundLocalError)
  {
    var first := [Reply(NoticeBody(n), Some(2))];
    match reply
    case NoticeDelivered => Response(first, None)
    case NoticeForbidden =>
      if fallback.Some? then
        Response(first + [DirectMessage(fallback.value, NoticeBody(n), Some(15))], None)
      else
        Response(first, Some(UnboundLocalError))
    case NoticeFailed => Response(first, Some(HttpError))
  }

  /** The `except HTTPException` branch of `say`. The checks run in a fixed
      order: send permission, attach permission, error code 50035, and
      otherwise the failure is logged. The author is bound only in the first
      branch, so only that notice can fall back to a private message. */
  function FailureResponse(ctx: Context, target: Channel, perms: Perms, reply: NoticeResult,
                           code: int, text: string, diagnostic: string): (r: Response)
    ensures ctx.guild.None? ==> r == Response([], Some(AttributeError))
    ensures ctx.guild.Some? && !perms.sendMessages ==>
      r == Notify(CannotSend(target), reply, Some(ctx.author))
    ensures ctx.guild.Some? && perms.sendMessages && !perms.attachFiles ==>
      r == Notify(CannotUpload(target), reply, None)
    ensures ctx.guild.Some? && perms.sendMessages && perms.attachFiles && code == InvalidFormBody ==>
      r == Response([Reply(NoticeBody(ErrorText(text)), None)], None)
    ensures ctx.guild.Some? && perms.sendMessages && perms.attachFiles && code != InvalidFormBody ==>
      r == Response([LogError("Unknown permissions error when sending a message.\n" + diagnostic)], None)
  {
    if ctx.guild.None? then
      // `ctx.guild.me` on a private channel
      Response([], Some(AttributeError))
    else if !perms.sendMessages then
      Notify(CannotSend(target), reply, Some(ctx.author))
    else if !perms.attachFiles then
      Notify(CannotUpload(target), reply, None)
    else if code == InvalidFormBody then
      Response([Reply(NoticeBody(ErrorText(text)), None)], None)
    else
      Response([LogError("Unknown permissions error when sending a message.\n" + diagnostic)], None)
  }

  /** The failure branch never reaches the destination channel, and the
      invoker is told of a missing permission exactly once in the invoking
      channel, privately again only when that was forbidden. */
  lemma FailureNeverResends(ctx: Context, target: Channel, perms: Perms, reply: NoticeResult,
                            code: int, text: string, diagnostic: string)
    ensures var r := FailureResponse(ctx, target, perms, reply, code, text, diagnostic);
      && (forall a :: a in r.acts ==> !a.ChannelSend? && !a.SendHelp?)
      && (ctx.guild.Some? && !(perms.sendMessages && perms.attachFiles) ==>
            |r.acts| >= 1 && r.acts[0].Reply? && r.acts[0].deleteAfter == Some(2)
            && (forall k :: 1 <= k < |r.acts| ==> !r.acts[k].Reply?))
      && (forall a :: a in r.acts && a.DirectMessage? ==>
            a.to == ctx.author && !perms.sendMessages && reply == NoticeForbidden)
  {
    var r := FailureResponse(ctx, target, perms, reply, code, text, diagnostic);
    if ctx.guild.Some? && !perms.sendMessages {
      assert r == Notify(CannotSend(target), reply, Some(ctx.author));
    }
  }
}
