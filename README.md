# Say cog: session table, relay loop and `say` decisions

This project models the `Say` cog of the Laggrons-Dumb-Cogs bot, together
with its helper module.

- **Cleanup and owner check.** `cleanup_code` strips a Markdown code fence
  from JSON input, and `_check_owner` decides who counts as the guild owner.
- **The `say` helper.** It sends free text or a decoded JSON object to a
  channel. The mass-mention filter applies to everyone but the owner. When
  the platform refuses the send, the failure is classified in a fixed order.
- **The `interact` bridge session.** The cog keeps a list of users with a
  running session (`self.interaction`). A started session loops:
  - a private message from the user is forwarded to the target channel;
  - a message from someone else in the target channel is sent back to the
    user as a summary embed;
  - the session ends on a timeout, on a reaction by the user in a private
    channel, or when the cog is unloaded.

Modules:

- `Discord` (`discord.dfy`): the platform values the cog sees (ids,
  channels, messages, embeds, decoded JSON), the calls it makes, as
  `Action` values, and the Python exceptions that can escape.
- `Lists` (`lists.dfy`): `list.remove` and duplicate-freedom of the session
  list.
- `Utils` (`utils.dfy`): `_check_owner`, `START_CODE_BLOCK_RE` and
  `cleanup_code`, with Python's slicing and `strip` written out.
- `Delivery` (`delivery.dfy`): the pure decisions inside `say`, as follows.
  - Truthiness.
  - Preparing a JSON object: filtering its content, clearing its embed
    timestamp, building the embed.
  - The failure branch: send permission, then attach permission, then
    error code 50035, then a log line.
- `Relay` (`relay.dfy`): the bridge loop written as pure functions, as
  follows.
  - `Classify` and `Summary` treat one message.
  - `Run` and `Wait` cover a whole trace of events: reactions, scheduled
    stops, other users' `interact` commands starting, other sessions timing
    out, received messages and the timeout.
  - Lemmas state what every run keeps.
- `Cog` (`cog.dfy`): class `SayCog`, whose one field `interaction` is the
  session list. Its methods mirror the cog's commands and listeners. The
  loop method `Bridge` is proved to end in exactly the state and calls
  that `Relay.Run` gives.

The platform is never called. The answers the modelled branches depend on
are parameters:
- the result of the send in `say`;
- the bot's permissions;
- whether a notice in the invoking channel is forbidden;
- the sequence of events that reach a running session.

Every other call is assumed to succeed; "## Left out" lists them.

The exceptions of the modelled branches are returned as values:
- `list.remove` on an absent user gives `raised`/`Raised(ValueError)`;
- the unbound `author` in the attach-files fallback gives
  `UnboundLocalError`;
- `ctx.guild.me` outside a guild gives `AttributeError`.

Where the code's behaviour may surprise a reader:
- Ending a session is not idempotent. `stop_interaction` raises
  `ValueError` for a user who is no longer listed (`Cog.SayCog.StopInteraction`).
- A stop does not interrupt the wait. A reaction followed by the timeout,
  when no message (not even the closing notice's own echo) reaches the
  wait before the timeout, sends both the closing notice and the timeout
  notice, and then the removal raises (`Relay.ReactionThenTimeout`). The
  wait accepts any message, so the bot's own "Session closed" message,
  when it comes back first, is ignored and ends the wait; the loop then
  closes with that single notice (`Relay.StopEchoCloses`).
- The session table is shared. Other `interact` commands append to it and
  other sessions' timeouts remove from it while a session waits, so it can
  grow during a session (`Relay.JoinDuringWait`).
- A private message that ends the wait after a stop is still forwarded
  (`Relay.ForwardAfterStop`).
- Any reaction by a listed user in a private channel ends the session. The
  emoji and the message reacted to are not checked.
- The 300-second timeout applies to each wait for any message, including
  ignored ones. It is not an inactivity clock over qualifying events.

## Model

| member | source | states |
|---|---|---|
| Utils.CheckOwner | say/utils.py:8-13 | outside a guild everyone passes; in a guild, exactly the author whose id is the guild owner's |
| Utils.SubStartCodeBlock | say/utils.py:5 | the anchored substitution removes a suffix-preserving prefix: seven characters when "```json" is followed by a whitespace character, else three when the input opens with a fence, else nothing |
| Utils.SliceTo | say/utils.py:20 | Python's `s[:stop]`: a prefix whose length is `stop`, or `len + stop` for a negative stop, clipped to the bounds |
| Utils.TrimStart | say/utils.py:23 | `lstrip`: a suffix of the input, every removed character in the set, and the result does not start with one |
| Utils.TrimEnd | say/utils.py:23 | `rstrip`: a prefix of the input, every removed character in the set, and the result does not end with one |
| Utils.CleanupCode | say/utils.py:16-23 | in every branch the result is a contiguous slice of the input, so never longer than it |
| Utils.Strip | say/utils.py:23 | `strip` returns a slice no longer than the input whose first and last characters are outside the set |
| Utils.StripSlice | say/utils.py:23 | `strip` keeps the maximal middle slice: everything cut is in the set and the kept ends are not |
| Utils.CleanupJsonFence | say/utils.py:19-20 | a fenced input opening with "```json" plus whitespace becomes the input without its first 7 and last 3 characters |
| Utils.CleanupPlainFence | say/utils.py:19-20 | any other fenced input loses its first 3 and last 3 characters, and is empty when shorter than 6 |
| Utils.CleanupJsonWithoutSpace | say/utils.py:19-20 | "```json```" cleans up to "json" |
| Utils.CleanupJsonBlock | say/utils.py:19-20 | a json fence around "{}" with newlines keeps the newlines and the braces |
| Utils.CleanupUnfenced | say/utils.py:22-23 | unfenced input becomes the maximal middle slice that neither starts nor ends with a backtick, space or newline |
| Utils.StripIdempotent | say/utils.py:23 | stripping the output of a strip changes nothing |
| Utils.CleanupUnfencedIdempotent | say/utils.py:22-23 | cleaning up the cleanup of unfenced input changes nothing |
| Discord.DecimalString | say/say.py:261 | the id text is non-empty, all digits, and has no leading zero |
| Discord.ParseDecimalString | say/say.py:261 | the id text reads back as the id |
| Discord.Mention | say/say.py:115 | `channel.mention` is "<#", the channel id in decimal, then ">", and the id reads back from it |
| Discord.NoticeText | say/say.py:115-131 | each permission notice ends with the channel's mention, the instructions name the channel after their opening words, and an HTTP error text is echoed unchanged |
| Lists.IndexOf | say/say.py:314 | the position found holds the element and no earlier position does |
| Lists.RemoveFirst | say/say.py:314 | `list.remove` cuts out the first occurrence and keeps the other elements in order, and leaves a list without the element unchanged |
| Lists.RemoveFirstMultiset | say/say.py:314 | the removal takes exactly one occurrence of the element out of the list's multiset |
| Lists.RemoveFirstNoDups | say/say.py:314 | on a duplicate-free list the removal shortens the list by one, leaves the element absent and keeps it duplicate-free |
| Lists.RemoveAppended | say/say.py:234 | removing the user just appended to a list without them gives the list back |
| Lists.NoDupsAppend | say/say.py:220-234 | appending a user who is not listed keeps the list duplicate-free |
| Relay.Summary | say/say.py:259-269 | the embed's author line is "<name> \| <id>", its description the content, its colour the author's colour, its icon the avatar; it has an image exactly when there are attachments, and then the first one's url |
| Relay.SummaryShowsAuthorId | say/say.py:261 | the author line ends with the author's id, which reads back as that id |
| Relay.Classify | say/say.py:248-258 | a private message from the user is forwarded with its content and files; a message in the target channel from neither the bot nor the user is summarised; all else is ignored (both directions) |
| Relay.RouteActions | say/say.py:248-271 | at most one call per message, none exactly when it is ignored: a forward to the target channel with the message's content and files, or a summary embed to the session user |
| Relay.StopStep | say/say.py:313-315 | a stop sends "Session closed" exactly when the user is listed and then removes that user's first occurrence, one shorter; otherwise it changes nothing (the `ValueError` ends it) |
| Relay.ReactionStep | say/say.py:295-298 | a reaction sends a closing notice exactly when its user is listed and it is in a private channel, and then it is that user's stop; otherwise it changes nothing |
| Relay.JoinStep | say/say.py:204-234 | another `interact` command: without a channel from a private channel, or for a listed user, one reply and the table unchanged; otherwise the user, not yet listed, is appended after the instructions and the reaction |
| Relay.TimeoutStep | say/say.py:243-246 | another session's timeout sends its notice, then removes its user (the first occurrence), and changes nothing when that user is gone |
| Relay.Listener | say/say.py:204-320 | whatever runs against the table during a wait never forwards to a channel and never sends a summary |
| Relay.StopTasks | say/say.py:317-320 | the scheduled stops make at most one call each, every call a "Session closed" message, and never grow the table |
| Relay.Run | say/say.py:236-271 | the table grows by at most one user per event, through other sessions' starts; when the loop closes at its top the user is gone; the only exception is the `ValueError` of the timeout's removal, with the user gone |
| Relay.Wait | say/say.py:241-271 | the same facts from the wait on, with listeners, scheduled stops, other starts and other timeouts interleaved |
| Relay.StopStepFacts | say/say.py:313-315 | a stop keeps the list duplicate-free, leaves the user absent and adds nobody |
| Relay.RunFacts | say/say.py:204-271 | over any trace, with other sessions starting and ending concurrently, the loop keeps the list duplicate-free, ends with the user gone unless still waiting, ends a timeout with the timeout notice to the user, forwards only to the target channel and sends summaries only to the user |
| Relay.WaitFacts | say/say.py:241-271 | the same facts hold from the wait on |
| Relay.ListenerStepFacts | say/say.py:204-320 | a reaction, a scheduled stop, another start or another timeout keeps the list duplicate-free, since a start appends only a user who is not listed |
| Relay.ListenerFacts | say/say.py:241-320 | the same facts hold when any of these runs during the wait |
| Relay.ReceivedFacts | say/say.py:242-271 | the same facts hold when the wait returns a message |
| Relay.StopAllEmpties | say/say.py:317-320 | on a duplicate-free list, the stops unload schedules empty the list, none of them raises, and user k gets the k-th closing notice |
| Relay.ReactionThenTimeout | say/say.py:238-246 | a closing reaction and then the timeout, with no message in between, send two notices and end in `ValueError` |
| Relay.ForwardAfterStop | say/say.py:238-250 | a private message received after a stop is still forwarded before the loop closes |
| Relay.StopEchoCloses | say/say.py:238-315 | when the bot's own closing notice reaches the wait after a stop, it is ignored and the loop closes with that one notice, with no timeout notice and no exception |
| Relay.JoinDuringWait | say/say.py:231-246 | another user who starts while the session waits is still listed after the session times out |
| Delivery.Truthy | say/say.py:95 | a JSON value is falsy exactly when it is null, false, zero, or an empty string, list or object |
| Delivery.PayloadTruthy | say/say.py:78 | text and a decoded object are truthy as the same JSON values are |
| Delivery.HasTruthy | say/say.py:97-98 | `dict.get(key)` is truthy exactly when the key's value is, a missing key reading as null |
| Delivery.PrepareDict | say/say.py:94-100 | a truthy content is filtered exactly for non-owners (a non-string raises `TypeError`); a truthy embed must be an object (otherwise `AttributeError`), loses a truthy timestamp and keeps its other members; all other members and keys pass unchanged |
| Delivery.OutgoingFor | say/say.py:94-109 | free text is sent with the files, filtered exactly when the sender is not the owner; a JSON object is sent as `PrepareDict` prepares it, without the files, or refused with its exception |
| Delivery.JoinUrls | say/say.py:87 | the url list is empty without attachments, the single url for one, and starts with the first url and a separator for more |
| Delivery.Diagnostic | say/say.py:83-90 | the logged context says "Has files: no" exactly when there are no files |
| Delivery.Notify | say/say.py:113-133 | a notice goes first to the invoking channel with a 2-second expiry; a private fallback with a 15-second expiry happens exactly when that is forbidden and the author is bound; forbidden without a binding raises `UnboundLocalError`, another failure escapes |
| Delivery.FailureResponse | say/say.py:110-140 | outside a guild the branch raises `AttributeError`; otherwise, in order: missing send permission, missing attach permission, code 50035 echoing the error text, else the log line with the diagnostic |
| Delivery.FailureNeverResends | say/say.py:110-140 | the failure branch never calls the destination channel, gives a missing-permission notice in the invoking channel once, and contacts the author privately only when sending was denied and the notice forbidden |
| Cog.SayCog.constructor | say/say.py:35-37 | a new cog has no sessions |
| Cog.SayCog.Say | say/say.py:69-140 | with nothing to send only help is shown; all sends go to the given channel or the invoking one; otherwise the message `OutgoingFor` gives is sent once, or its exception escapes with no call; a delivered send is the only call and raises nothing; a refused JSON send gets the JSON notice, refused text raises `TypeError`; an HTTP failure continues as `FailureResponse` |
| Cog.SayCog.Send | say/say.py:93-140 | one send to the target; only the JSON path catches `TypeError`; an HTTP failure continues as `FailureResponse` and never sends again |
| Cog.SayCog.Start | say/say.py:204-234 | the target is a text channel when given; no channel from a private channel: an error and no start; a listed user: "already running" and the list unchanged; otherwise the instructions, then the reaction, and the user appended once; the new table and the calls are those of `Relay.JoinStep` |
| Cog.SayCog.StopInteraction | say/say.py:313-315 | raises exactly when the user is absent, and then sends nothing; otherwise removes the user and sends "Session closed" |
| Cog.SayCog.OnReactionAdd | say/say.py:291-298 | a reaction by a listed user in a private channel stops that user; any other reaction changes nothing |
| Cog.SayCog.OnTimeout | say/say.py:243-246 | the timeout notice is sent first, then the user is removed, raising when already absent |
| Cog.SayCog.RunListener | say/say.py:204-320 | a reaction, a scheduled stop, another `interact` start or another session's timeout changes the table and makes the calls that `Relay.Listener` gives |
| Cog.SayCog.CogUnload | say/say.py:317-320 | one stop is scheduled per listed user, in list order, and running them empties the table with one closing notice per user |
| Cog.SayCog.AwaitMessage | say/say.py:241-242 | listeners, scheduled stops, other starts and other timeouts run until a message or the timeout arrives, as `Relay.Wait` says |
| Cog.SayCog.OnWaitEnded | say/say.py:243-271 | after the wait, the timeout ends the session as `Relay.Wait` says, and a message is routed with the table unchanged before the loop returns to its top |
| Cog.SayCog.Bridge | say/say.py:236-271 | the `while True` loop ends with exactly the list, calls and end that `Relay.Run` gives |
| Cog.SayCog.Interact | say/say.py:203-271 | the session starts exactly when a channel is known and the author is not listed; otherwise the two refusals answer with their notices and change nothing; a start appends the user, sends the instructions and reaction, and then runs the loop from the enlarged list |

## Left out

- All platform I/O is not modelled: sends, private messages, reactions, permission queries. Each call is an `Action` value, and each of the platform's answers is a parameter.
- `filter_mass_mentions` is foreign library code. It is an opaque `filter` parameter.
- `discord.Embed.from_dict` is foreign library code. The built embed is kept as its member map (`BuiltEmbed`).
- `Tunnel.files_from_attatch` is not modelled: a forwarded message's files are its attachments, and `say` receives its files as a parameter.
- `_str_to_json` and the `say`, `sayembed` and `sayd` command wrappers are thin glue around `json.loads` and argument parsing. `say` takes an already decoded payload.
- `bot.wait_for` timing, `asyncio` and `bot.loop.create_task` are scheduling. The timeout is a `TimedOut` event, and the stops that unload schedules are `StopTask` events in the trace.
- The race between the membership check and the append in `interact` spans an await. It is not modelled: another command's start is one `Joined` event, from its check to its append.
- Other sessions' forwards and summaries are not events of a session's trace: they do not touch the table.
- Relay.Wait: the trace does not force the bot's own sends (the closing notice, the timeout notice, summaries) to come back as `Received` events. A trace may leave out such an echo, as `Relay.ReactionThenTimeout` does, or include it, as `Relay.StopEchoCloses` does.
- Listeners run only while the loop waits. A reaction landing while a forward or summary is being sent is not modelled.
- A send that fails inside the loop would end the command. Sends in the loop always succeed here.
- The footer's `strftime` formatting is library code. The footer holds the raw timestamp.
- JSON numbers are integers. Floats are not modelled.
- Logging setup, `on_command_error`, `sayinfo` and translation add no logic. The log call is a `LogError` action.
- The context type in `warnsystem/abc.py` is a type-hint-only mixin with no logic.
- Delivery.Notify: the fallback private message and the 50035 echo always succeed; whether they fail is not modelled.
- Cog.SayCog.Start: the "need a channel" and "already running" replies, the instructions message and its ❌ reaction always succeed. In the source a user whose private messages are closed gets `Forbidden` there and is never listed; the model always lists them.
- Cog.SayCog.Say: the help reply and the invalid-JSON notice always succeed, and `discord.Embed.from_dict` never raises; a `TypeError` it raises on a malformed embed (a non-integer colour, say) is not modelled.
- Cog.SayCog.StopInteraction: the "Session closed" message always succeeds; a failure there would escape after the removal.
- Delivery.OutgoingFor: the file list is taken as given; its download from the invoking message is not modelled.
- Delivery.PrepareDict: the payload dictionary is updated in place in the source; the model returns the new keyword map.
