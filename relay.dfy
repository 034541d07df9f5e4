/** The bridge session of the `interact` command, as pure functions: how one
    message is classified, the summary built of a channel message, and what
    the loop does over a trace of events. The cog's methods are proved to
    follow these functions. */
module Relay {
  import opened Discord
  import Lists

  /** A reaction added by `user` on a message in `channel`. The listener
      never looks at the emoji or at which message was reacted to. */
  datatype Reaction = Reaction(user: UserId, channel: Channel)

  /** What happens while a session is waiting for its next message.
      - `Reacted`: the reaction listener runs.
      - `StopTask`: a stop that the cog's unload scheduled now runs.
      - `Joined`: another `interact` command runs up to its append.
      - `OtherTimedOut`: the wait of another session for `user` times out,
        and that session sends its notice and removes its user.
      - `Received`: the 300-second wait returns a message, seen anywhere.
      - `TimedOut`: the wait times out. */
  datatype Event =
    | Reacted(reaction: Reaction)
    | StopTask(user: UserId)
    | Joined(ctx: Context, channel: Option<Channel>)
    | OtherTimedOut(user: UserId)
    | Received(message: Message)
    | TimedOut

  /** The events that run other code against the shared table while the
      wait is pending. */
  predicate IsListener(e: Event) {
    e.Reacted? || e.StopTask? || e.Joined? || e.OtherTimedOut?
  }

  /** The command's argument converter only yields text channels. */
  predicate TextTargets(trace: seq<Event>) {
    forall k :: 0 <= k < |trace| && trace[k].Joined? && trace[k].channel.Some? ==>
      trace[k].channel.value.TextChannel?
  }

  /** How the loop ended.
      - `Closed`: the top-of-loop check found the user gone.
      - `TimedOutEnd`: the timeout ended the session.
      - `Raised`: an exception escaped the loop.
      - `StillWaiting`: the trace ended while the session still waits. */
  datatype End = Closed | TimedOutEnd | Raised(error: PyError) | StillWaiting

  /** The session table, the calls made and the end, after a trace. */
  datatype Outcome = Outcome(users: seq<UserId>, acts: seq<Action>, end: End)

  /** The session table and the calls made by one listener or task. */
  datatype Step = Step(users: seq<UserId>, acts: seq<Action>)

  /** What the loop does with one message. */
  datatype Route =
    | Forward(content: string, files: seq<Attachment>)
    | Summarise(embed: Embed)
    | Ignore

  function Prepend(acts: seq<Action>, o: Outcome): Outcome {
    Outcome(o.users, acts + o.acts, o.end)
  }

  lemma PrependTwice(a: seq<Action>, b: seq<Action>, o: Outcome)
    ensures Prepend(a, Prepend(b, o)) == Prepend(a + b, o)
  {
    assert a + (b + o.acts) == (a + b) + o.acts;
  }

  /** The summary of a channel message sent to the session user. */
  function Summary(m: Message): (e: Embed)
    ensures e.authorName == m.author.tag + " | " + DecimalString(m.author.id)
    ensures e.description == m.content && e.colour == m.author.colour
    ensures e.iconUrl == m.author.avatarUrl && e.footerTime == m.createdAt
    ensures e.image.Some? <==> m.attachments != []
    ensures m.attachments != [] ==> e.image.value == m.attachments[0].url
  {
    Embed(
      authorName := m.author.tag + " | " + DecimalString(m.author.id),
      iconUrl := m.author.avatarUrl,
      footerTime := m.createdAt,
      description := m.content,
      colour := m.author.colour,
      image := if m.attachments != [] then Some(m.attachments[0].url) else None)
  }

  /** The id shown at the end of a summary's author line reads back as the
      author's id. */
  lemma SummaryShowsAuthorId(m: Message)
    ensures var name := Summary(m).authorName;
      var digits := DecimalString(m.author.id);
      && |digits| <= |name|
      && name[|name| - |digits|..] == digits
      && ParseDecimal(name[|name| - |digits|..]) == m.author.id
  {
    var name := Summary(m).authorName;
    var digits := DecimalString(m.author.id);
    assert name[|name| - |digits|..] == digits;
    ParseDecimalString(m.author.id);
  }

  /** The classification of one message for the session of user `u` bridged
      to `target`, where `bot` is the bot's own id. */
  function Classify(m: Message, u: UserId, target: Channel, bot: UserId): (r: Route)
    ensures r.Forward? <==> m.author.id == u && m.channel.DMChannel?
    ensures r.Forward? ==> r.content == m.content && r.files == m.attachments
    ensures r.Summarise? <==> m.channel == target && m.author.id != bot && m.author.id != u
    ensures r.Summarise? ==> r.embed == Summary(m)
  {
    if m.author.id == u && m.channel.DMChannel? then
      Forward(m.content, m.attachments)
    else if m.channel != target || m.author.id == bot || m.author.id == u then
      Ignore
    else
      Summarise(Summary(m))
  }

  /** The calls made for a route: the forward goes to the target channel,
      the summary to the session user. */
  function RouteActions(r: Route, u: UserId, target: Channel): (acts: seq<Action>)
    ensures |acts| <= 1 && (acts == [] <==> r.Ignore?)
    ensures acts != [] ==> (acts[0].ChannelSend? <==> r.Forward?) && (acts[0].DirectMessage? <==> r.Summarise?)
    ensures acts != [] && r.Forward? ==> acts[0].dest == target.id && acts[0].body == Text(r.content, r.files)
    ensures acts != [] && r.Summarise? ==> acts[0].to == u && acts[0].body == Rich(r.embed)
  {
    match r
    case Forward(content, files) => [ChannelSend(target.id, Text(content, files))]
    case Summarise(e) => [DirectMessage(u, Rich(e), None)]
    case Ignore => []
  }

  /** `stop_interaction(v)` from a task: `list.remove` raises when `v` is
      gone, and the exception ends the task before the notice is sent. The
      table is one shorter exactly when the notice goes out. */
  function StopStep(users: seq<UserId>, v: UserId): (s: Step)
    ensures s.acts != [] <==> v in users
    ensures s.acts != [] ==> s.acts == [DirectMessage(v, NoticeBody(SessionClosed), None)]
    ensures v !in users ==> s.users == users
    ensures v in users ==> s.users == Lists.RemoveFirst(users, v) && |s.users| == |users| - 1
  {
    if v in users then
      Step(Lists.RemoveFirst(users, v), [DirectMessage(v, NoticeBody(SessionClosed), None)])
    else
      Step(users, [])
  }

  /** `on_reaction_add`: a session user's reaction in a private channel
      stops that user's session. */
  function ReactionStep(users: seq<UserId>, r: Reaction): (s: Step)
    ensures s.acts != [] <==> r.user in users && r.channel.DMChannel?
    ensures s.acts == [] ==> s.users == users
    ensures s.acts != [] ==> s == StopStep(users, r.user) && |s.users| == |users| - 1
  {
    if r.user in users && r.channel.DMChannel? then StopStep(users, r.user) else Step(users, [])
  }

  /** The start of another `interact` command, up to its append: without a
      channel from a private channel, or for a listed user, only a reply;
      otherwise the instructions, the reaction, and the user appended. */
  function JoinStep(users: seq<UserId>, ctx: Context, channel: Option<Channel>): (s: Step)
    ensures s.users == users || (ctx.author !in users && s.users == users + [ctx.author])
    ensures s.users != users <==> !(channel.None? && ctx.channel.DMChannel?) && ctx.author !in users
    ensures |s.acts| >= 1 && (s.users == users <==> |s.acts| == 1 && s.acts[0].Reply?)
  {
    if channel.None? && ctx.channel.DMChannel? then
      Step(users, [Reply(NoticeBody(NeedChannel), None)])
    else if ctx.author in users then
      Step(users, [Reply(NoticeBody(Notice.AlreadyRunning), None)])
    else
      var target := if channel.Some? then channel.value else ctx.channel;
      assert users + [ctx.author] != users by {
        assert |users + [ctx.author]| != |users|;
      }
      Step(users + [ctx.author],
           [DirectMessage(ctx.author, NoticeBody(Instructions(target)), None), AddReaction(CloseEmoji)])
  }

  /** The timeout branch of a loop for `v`: the notice goes out first, then
      the removal, which raises in that loop when `v` is already gone. */
  function TimeoutStep(users: seq<UserId>, v: UserId): (s: Step)
    ensures s.acts == [DirectMessage(v, NoticeBody(RequestTimedOut), None)]
    ensures v !in users ==> s.users == users
    ensures v in users ==> s.users == Lists.RemoveFirst(users, v) && |s.users| == |users| - 1
  {
    Step(Lists.RemoveFirst(users, v), [DirectMessage(v, NoticeBody(RequestTimedOut), None)])
  }

  /** What a listener, task or other session does to the table. */
  function Listener(users: seq<UserId>, e: Event): (s: Step)
    requires IsListener(e)
    ensures forall a :: a in s.acts ==> !a.ChannelSend? && !(a.DirectMessage? && a.body.Rich?)
  {
    match e
    case Reacted(r) => ReactionStep(users, r)
    case StopTask(v) => StopStep(users, v)
    case Joined(ctx, channel) => JoinStep(users, ctx, channel)
    case OtherTimedOut(v) => TimeoutStep(users, v)
  }

  /** The loop at its top: it returns once `u` has left the table, and
      otherwise waits. */
  function Run(users: seq<UserId>, u: UserId, target: Channel, bot: UserId, trace: seq<Event>): (o: Outcome)
    ensures |o.users| <= |users| + |trace|
    ensures o.end == Closed ==> u !in o.users
    ensures o.end.Raised? ==> o.end == Raised(ValueError) && u !in o.users
    decreases |trace|, 1
  {
    if u !in users then Outcome(users, [], Closed) else Wait(users, u, target, bot, trace)
  }

  /** The loop waiting for a message or the timeout, while listeners and
      tasks run. The timeout notice is sent before the removal, which
      raises if `u` has already left the table. */
  function Wait(users: seq<UserId>, u: UserId, target: Channel, bot: UserId, trace: seq<Event>): (o: Outcome)
    ensures |o.users| <= |users| + |trace|
    ensures o.end == Closed ==> u !in o.users
    ensures o.end.Raised? ==> o.end == Raised(ValueError) && u !in o.users
    decreases |trace|, 0
  {
    if trace == [] then Outcome(users, [], StillWaiting)
    else
      if IsListener(trace[0]) then
        var s := Listener(users, trace[0]);
        Prepend(s.acts, Wait(s.users, u, target, bot, trace[1..]))
      else match trace[0]
      case TimedOut =>
        var s := TimeoutStep(users, u);
        Outcome(s.users, s.acts, if u in users then TimedOutEnd else Raised(ValueError))
      case Received(m) =>
        Prepend(RouteActions(Classify(m, u, target, bot), u, target), Run(users, u, target, bot, trace[1..]))
  }

  /** One unfolding of the wait at a listener, task or other session. */
  lemma WaitOnListener(users: seq<UserId>, u: UserId, target: Channel, bot: UserId, trace: seq<Event>)
    requires trace != [] && IsListener(trace[0])
    ensures var s := Listener(users, trace[0]);
      Wait(users, u, target, bot, trace) == Prepend(s.acts, Wait(s.users, u, target, bot, trace[1..]))
  {
  }

  /** One unfolding of the loop at a message: the route's calls, then the
      loop back at its top. */
  lemma WaitOnMessage(users: seq<UserId>, u: UserId, target: Channel, bot: UserId, trace: seq<Event>)
    requires trace != [] && trace[0].Received?
    ensures Wait(users, u, target, bot, trace)
      == Prepend(RouteActions(Classify(trace[0].message, u, target, bot), u, target),
                 Run(users, u, target, bot, trace[1..]))
  {
  }

  /** One unfolding of the loop at the timeout. */
  lemma WaitOnTimeout(users: seq<UserId>, u: UserId, target: Channel, bot: UserId, trace: seq<Event>)
    requires trace != [] && trace[0].TimedOut?
    ensures Wait(users, u, target, bot, trace)
      == Outcome(Lists.RemoveFirst(users, u), [DirectMessage(u, NoticeBody(RequestTimedOut), None)],
                 if u in users then TimedOutEnd else Raised(ValueError))
  {
  }

  /** The tasks that unload schedules, run one after another. */
  function StopTasks(users: seq<UserId>, tasks: seq<UserId>): (s: Step)
    ensures |s.acts| <= |tasks| && |s.users| <= |users|
    ensures forall a :: a in s.acts ==> a.DirectMessage? && a.body == NoticeBody(SessionClosed)
    decreases |tasks|
  {
    if tasks == [] then Step(users, [])
    else
      var s := StopStep(users, tasks[0]);
      var rest := StopTasks(s.users, tasks[1..]);
      Step(rest.users, s.acts + rest.acts)
  }

  /** A stop keeps the table free of duplicates, removes its user and adds
      nobody. */
  lemma StopStepFacts(users: seq<UserId>, v: UserId)
    requires Lists.NoDups(users)
    ensures var s := StopStep(users, v);
      && Lists.NoDups(s.users) && v !in s.users
      && (forall x :: x in s.users ==> x in users)
  {
    Lists.RemoveFirstNoDups(users, v);
    var r := Lists.RemoveFirst(users, v);
    Lists.RemoveFirstMultiset(users, v);
    forall x | x in r ensures x in users {
      assert x in multiset(r);
    }
  }

  /** Every listener, task or other session keeps the table free of
      duplicates: a start appends only a user who is not listed. */
  lemma ListenerStepFacts(users: seq<UserId>, e: Event)
    requires Lists.NoDups(users) && IsListener(e)
    ensures Lists.NoDups(Listener(users, e).users)
  {
    match e {
      case Reacted(r) =>
        if r.user in users && r.channel.DMChannel? {
          StopStepFacts(users, r.user);
        }
      case StopTask(v) =>
        StopStepFacts(users, v);
      case Joined(ctx, channel) =>
        if ctx.author !in users {
          Lists.NoDupsAppend(users, ctx.author);
        }
      case OtherTimedOut(v) =>
        Lists.RemoveFirstNoDups(users, v);
    }
  }

  /** What holds of every run of the loop on a duplicate-free table, with
      other sessions starting and ending during its waits:
      - the table stays free of duplicates;
      - the loop ends, except while still waiting, with `u` gone;
      - the only exception is the `ValueError` of a failed removal, and a
        timeout or a failed removal ends with the timeout notice to `u`;
      - forwards go only to the target channel, summaries only to `u`. */
  lemma {:induction false} RunFacts(users: seq<UserId>, u: UserId, target: Channel, bot: UserId, trace: seq<Event>)
    requires Lists.NoDups(users)
    ensures SessionFacts(u, target, Run(users, u, target, bot, trace))
    decreases |trace|, 2
  {
    if u in users {
      WaitFacts(users, u, target, bot, trace);
    }
  }

  lemma {:induction false} WaitFacts(users: seq<UserId>, u: UserId, target: Channel, bot: UserId, trace: seq<Event>)
    requires Lists.NoDups(users)
    ensures SessionFacts(u, target, Wait(users, u, target, bot, trace))
    decreases |trace|, 1
  {
    if trace == [] {
    } else if trace[0].Received? {
      ReceivedFacts(users, u, target, bot, trace);
    } else if trace[0].TimedOut? {
      StopStepFacts(users, u);
    } else {
      ListenerFacts(users, u, target, bot, trace);
    }
  }

  /** A listener, task or other session that runs during the wait, then the
      rest of it. */
  lemma {:induction false} ListenerFacts(users: seq<UserId>, u: UserId, target: Channel, bot: UserId, trace: seq<Event>)
    requires Lists.NoDups(users)
    requires trace != [] && IsListener(trace[0])
    ensures SessionFacts(u, target, Wait(users, u, target, bot, trace))
    decreases |trace|, 0
  {
    var s := Listener(users, trace[0]);
    ListenerStepFacts(users, trace[0]);
    WaitFacts(s.users, u, target, bot, trace[1..]);
    PrependFacts(s.acts, u, target, Wait(s.users, u, target, bot, trace[1..]));
  }

  /** A message that ends the wait, then the loop back at its top. */
  lemma {:induction false} ReceivedFacts(users: seq<UserId>, u: UserId, target: Channel, bot: UserId, trace: seq<Event>)
    requires Lists.NoDups(users)
    requires trace != [] && trace[0].Received?
    ensures SessionFacts(u, target, Wait(users, u, target, bot, trace))
    decreases |trace|, 0
  {
    var acts := RouteActions(Classify(trace[0].message, u, target, bot), u, target);
    RunFacts(users, u, target, bot, trace[1..]);
    PrependFacts(acts, u, target, Run(users, u, target, bot, trace[1..]));
  }

  /** Calls made before the rest of a run keep its facts, as long as they
      respect the routing rules. */
  lemma PrependFacts(acts: seq<Action>, u: UserId, target: Channel, o: Outcome)
    requires SessionFacts(u, target, o)
    requires forall a :: a in acts && a.ChannelSend? ==> a.dest == target.id
    requires forall a :: a in acts && a.DirectMessage? && a.body.Rich? ==> a.to == u
    ensures SessionFacts(u, target, Prepend(acts, o))
  {
    var p := Prepend(acts, o);
    if o.acts != [] {
      assert p.acts[|p.acts| - 1] == o.acts[|o.acts| - 1];
    }
  }

  /** The facts `RunFacts` states about one outcome. */
  ghost predicate SessionFacts(u: UserId, target: Channel, o: Outcome) {
    && Lists.NoDups(o.users)
    && (o.end != StillWaiting ==> u !in o.users)
    && (o.end.Raised? ==> o.end == Raised(ValueError))
    && (o.end == TimedOutEnd || o.end.Raised? ==>
          o.acts != [] && o.acts[|o.acts| - 1] == DirectMessage(u, NoticeBody(RequestTimedOut), None))
    && (forall a :: a in o.acts && a.ChannelSend? ==> a.dest == target.id)
    && (forall a :: a in o.acts && a.DirectMessage? && a.body.Rich? ==> a.to == u)
  }

  /** Unload stops everyone: on a duplicate-free table, running a stop for
      each listed user, in order, empties the table, closes each session
      with one notice, and none of the stops raises. */
  lemma {:induction false} StopAllEmpties(users: seq<UserId>)
    requires Lists.NoDups(users)
    ensures StopTasks(users, users).users == []
    ensures |StopTasks(users, users).acts| == |users|
    ensures forall k :: 0 <= k < |users| ==>
      StopTasks(users, users).acts[k] == DirectMessage(users[k], NoticeBody(SessionClosed), None)
  {
    if users != [] {
      assert Lists.RemoveFirst(users, users[0]) == users[1..];
      StopAllEmpties(users[1..]);
    }
  }

  /** A stop during the wait does not end it: a closing reaction followed
      by the timeout sends both notices, and the removal after the timeout
      raises because the user is already gone. */
  lemma ReactionThenTimeout(u: UserId, dm: ChannelId, target: Channel, bot: UserId)
    ensures Run([u], u, target, bot, [Reacted(Reaction(u, DMChannel(dm))), TimedOut])
      == Outcome([], [DirectMessage(u, NoticeBody(SessionClosed), None),
                      DirectMessage(u, NoticeBody(RequestTimedOut), None)], Raised(ValueError))
  {
    var trace := [Reacted(Reaction(u, DMChannel(dm))), TimedOut];
    assert Lists.RemoveFirst([u], u) == [];
    assert trace[1..] == [TimedOut];
    WaitOnTimeout([], u, target, bot, trace[1..]);
  }

  /** A private message that ends the wait after the session was closed is
      still forwarded; the loop only notices the stop at its top. */
  lemma ForwardAfterStop(u: UserId, dm: ChannelId, target: Channel, bot: UserId, m: Message)
    requires m.author.id == u && m.channel.DMChannel?
    ensures Run([u], u, target, bot, [Reacted(Reaction(u, DMChannel(dm))), Received(m)])
      == Outcome([], [DirectMessage(u, NoticeBody(SessionClosed), None),
                      ChannelSend(target.id, Text(m.content, m.attachments))], Closed)
  {
    var trace := [Reacted(Reaction(u, DMChannel(dm))), Received(m)];
    assert Lists.RemoveFirst([u], u) == [];
    assert trace[1..] == [Received(m)];
    assert trace[1..][1..] == [];
    WaitOnMessage([], u, target, bot, trace[1..]);
  }

  /** The wait also returns the bot's own closing notice, seen in the
      private channel: it is ignored, and the loop closes at its top with
      that single notice sent. */
  lemma StopEchoCloses(u: UserId, dm: ChannelId, target: Channel, bot: UserId, echo: Message)
    requires bot != u && echo.author.id == bot && echo.channel == DMChannel(dm)
    ensures Run([u], u, target, bot, [Reacted(Reaction(u, DMChannel(dm))), Received(echo), TimedOut])
      == Outcome([], [DirectMessage(u, NoticeBody(SessionClosed), None)], Closed)
  {
    var trace := [Reacted(Reaction(u, DMChannel(dm))), Received(echo), TimedOut];
    assert Lists.RemoveFirst([u], u) == [];
    assert trace[1..] == [Received(echo), TimedOut];
    WaitOnMessage([], u, target, bot, trace[1..]);
  }

  /** Another user who starts a session while `u` waits stays listed when
      `u`'s wait times out. */
  lemma JoinDuringWait(u: UserId, ctx: Context, target: Channel, bot: UserId)
    requires ctx.author != u && ctx.channel.TextChannel?
    ensures Run([u], u, target, bot, [Joined(ctx, None), TimedOut])
      == Outcome([ctx.author],
                 [DirectMessage(ctx.author, NoticeBody(Instructions(ctx.channel)), None), AddReaction(CloseEmoji),
                  DirectMessage(u, NoticeBody(RequestTimedOut), None)], TimedOutEnd)
  {
    var trace := [Joined(ctx, None), TimedOut];
    assert ctx.author !in [u];
    assert [u] + [ctx.author] == [u, ctx.author];
    assert Listener([u], trace[0]).users == [u, ctx.author];
    assert Lists.RemoveFirst([u, ctx.author], u) == [ctx.author];
    assert trace[1..] == [TimedOut];
    WaitOnTimeout([u, ctx.author], u, target, bot, trace[1..]);
  }
}
