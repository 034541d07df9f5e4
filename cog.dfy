/** The `Say` cog: its one piece of state, the list of users with a running
    bridge session, and the commands and listeners that read and change it. */
module Cog {
  import opened Discord
  import Lists
  import Utils
  import Delivery
  import Relay

  /** How the start of `interact` went. */
  datatype StartResult = NeedsChannel | SessionRunning | Started(target: Channel)

  class SayCog {
    /** `self.interaction`: users with a running session, in start order. */
    var interaction: seq<UserId>

    /** Starting refuses a user already listed, so nobody is listed twice. */
    ghost predicate Valid()
      reads this
    {
      Lists.NoDups(interaction)
    }

    constructor ()
      ensures Valid() && interaction == []
    {
      interaction := [];
    }

    /** `say`: send free text or a decoded JSON object to `channel`, the
        invoking channel when none is given. The owner check decides whether
        the mass-mention `filter` applies; `platform`, `perms` and `reply`
        stand for the platform's answers to the send, to the permission
        query and to a notice in the invoking channel. */
    method Say(ctx: Context, channel: Option<Channel>, payload: Delivery.Payload, files: seq<Attachment>,
               filter: string -> string, platform: Delivery.SendResult, perms: Delivery.Perms,
               reply: Delivery.NoticeResult)
      returns (acts: seq<Action>, raised: Option<PyError>)
      ensures var target := if channel.Some? then channel.value else ctx.channel;
        forall a :: a in acts && a.ChannelSend? ==> a.dest == target.id
      // nothing to send: only the help, and no send at all
      ensures !Delivery.PayloadTruthy(payload) && files == [] ==> acts == [SendHelp] && raised.None?
      ensures SendHelp in acts ==> !Delivery.PayloadTruthy(payload) && files == []
      // something to send: the message `OutgoingFor` gives (text filtered
      // unless the sender is the owner, a JSON object prepared), one send
      // of it, and then the `except` branches
      ensures Delivery.PayloadTruthy(payload) || files != [] ==>
        var target := if channel.Some? then channel.value else ctx.channel;
        var out := Delivery.OutgoingFor(payload, files, Utils.CheckOwner(ctx), filter);
        && (out.Refused? ==> acts == [] && raised == Some(out.error))
        && (out.Sending? ==> |acts| >= 1 && acts[0] == ChannelSend(target.id, out.body))
        && (out.Sending? && platform.Delivered? ==> |acts| == 1 && raised.None?)
        && (out.Sending? && platform.BadArguments? && payload.DictPayload? ==>
              acts == [acts[0], Reply(NoticeBody(BadJson), None)] && raised.None?)
        && (out.Sending? && platform.BadArguments? && payload.TextPayload? ==>
              |acts| == 1 && raised == Some(TypeError))
        && (out.Sending? && platform.HttpFailure? ==>
              var r := Delivery.FailureResponse(ctx, target, perms, reply, platform.code, platform.text,
                                                Delivery.Diagnostic(files, ctx.attachments));
              acts == [acts[0]] + r.acts && raised == r.raised)
    {
      var target := ctx.channel;
      if channel.Some? {
        target := channel.value;
      }
      if !Delivery.PayloadTruthy(payload) && files == [] {
        return [SendHelp], None;
      }
      var diagnostic := Delivery.Diagnostic(files, ctx.attachments);
      var outgoing := Delivery.OutgoingFor(payload, files, Utils.CheckOwner(ctx), filter);
      if outgoing.Refused? {
        return [], Some(outgoing.error);
      }
      acts, raised := Send(ctx, target, outgoing.body, platform, perms, reply, diagnostic);
    }

    /** The `try` around the send in `say` and its `except` branches. Only
        the JSON path catches `TypeError`; an HTTP error goes to the failure
        branch. */
    method Send(ctx: Context, target: Channel, body: Body, platform: Delivery.SendResult,
                perms: Delivery.Perms, reply: Delivery.NoticeResult, diagnostic: string)
      returns (acts: seq<Action>, raised: Option<PyError>)
      ensures |acts| >= 1 && acts[0] == ChannelSend(target.id, body)
      ensures forall k :: 1 <= k < |acts| ==> !acts[k].ChannelSend? && !acts[k].SendHelp?
      ensures SendHelp !in acts && forall a :: a in acts && a.ChannelSend? ==> a.dest == target.id
      ensures platform.Delivered? ==> acts == [acts[0]] && raised.None?
      ensures platform.BadArguments? && body.Structured? ==>
        acts == [acts[0], Reply(NoticeBody(BadJson), None)] && raised.None?
      ensures platform.BadArguments? && !body.Structured? ==> acts == [acts[0]] && raised == Some(TypeError)
      ensures platform.HttpFailure? ==>
        var r := Delivery.FailureResponse(ctx, target, perms, reply, platform.code, platform.text, diagnostic);
        acts == [acts[0]] + r.acts && raised == r.raised
    {
      acts := [ChannelSend(target.id, body)];
      raised := None;
      match platform {
        case Delivered =>
        case BadArguments =>
          if body.Structured? {
            acts := acts + [Reply(NoticeBody(BadJson), None)];
          } else {
            raised := Some(TypeError);
          }
        case HttpFailure(code, text) =>
          var r := Delivery.FailureResponse(ctx, target, perms, reply, code, text, diagnostic);
          Delivery.FailureNeverResends(ctx, target, perms, reply, code, text, diagnostic);
          acts, raised := acts + r.acts, r.raised;
      }
    }

    /** The start of `interact`, up to the append. */
    method Start(ctx: Context, channel: Option<Channel>) returns (r: StartResult, acts: seq<Action>)
      requires Valid() && (channel.Some? ==> channel.value.TextChannel?)
      modifies this
      ensures Valid()
      ensures channel.None? && ctx.channel.DMChannel? ==>
        r == NeedsChannel && acts == [Reply(NoticeBody(NeedChannel), None)]
      ensures !(channel.None? && ctx.channel.DMChannel?) && ctx.author in old(interaction) ==>
        r == SessionRunning && acts == [Reply(NoticeBody(Notice.AlreadyRunning), None)]
      ensures !r.Started? ==> interaction == old(interaction)
      ensures r.Started? <==> !(channel.None? && ctx.channel.DMChannel?) && ctx.author !in old(interaction)
      ensures r.Started? ==>
        && r.target == (if channel.Some? then channel.value else ctx.channel)
        && interaction == old(interaction) + [ctx.author]
        && multiset(interaction)[ctx.author] == 1
        && acts == [DirectMessage(ctx.author, NoticeBody(Instructions(r.target)), None), AddReaction(CloseEmoji)]
      ensures Relay.Step(interaction, acts) == Relay.JoinStep(old(interaction), ctx, channel)
    {
      var u := ctx.author;
      var target;
      if channel.None? {
        if ctx.channel.DMChannel? {
          return NeedsChannel, [Reply(NoticeBody(NeedChannel), None)];
        }
        target := ctx.channel;
      } else {
        target := channel.value;
      }
      if u in interaction {
        return SessionRunning, [Reply(NoticeBody(Notice.AlreadyRunning), None)];
      }
      acts := [DirectMessage(u, NoticeBody(Instructions(target)), None), AddReaction(CloseEmoji)];
      Lists.NoDupsAppend(interaction, u);
      interaction := interaction + [u];
      r := Started(target);
    }

    /** `stop_interaction`: `list.remove` raises `ValueError` when the user
        is not listed, and then the notice is not sent. */
    method StopInteraction(user: UserId) returns (raised: bool, acts: seq<Action>)
      requires Valid()
      modifies this
      ensures Valid()
      ensures raised <==> user !in old(interaction)
      ensures Relay.Step(interaction, acts) == Relay.StopStep(old(interaction), user)
      ensures user !in interaction
    {
      if user !in interaction {
        return true, [];
      }
      Lists.RemoveFirstNoDups(interaction, user);
      interaction := Lists.RemoveFirst(interaction, user);
      acts := [DirectMessage(user, NoticeBody(SessionClosed), None)];
      raised := false;
    }

    /** `on_reaction_add`: any reaction by a listed user in a private
        channel stops that user's session. */
    method OnReactionAdd(reaction: Relay.Reaction) returns (acts: seq<Action>)
      requires Valid()
      modifies this
      ensures Valid()
      ensures Relay.Step(interaction, acts) == Relay.ReactionStep(old(interaction), reaction)
    {
      acts := [];
      if reaction.user in interaction {
        if reaction.channel.DMChannel? {
          var _, stopped := StopInteraction(reaction.user);
          acts := stopped;
        }
      }
    }

    /** The timeout branch of the loop: the notice goes out first, then the
        removal, which raises if the user is already gone. */
    method OnTimeout(u: UserId) returns (raised: bool, acts: seq<Action>)
      requires Valid()
      modifies this
      ensures Valid()
      ensures acts == [DirectMessage(u, NoticeBody(RequestTimedOut), None)]
      ensures raised <==> u !in old(interaction)
      ensures interaction == Lists.RemoveFirst(old(interaction), u) && u !in interaction
    {
      acts := [DirectMessage(u, NoticeBody(RequestTimedOut), None)];
      if u !in interaction {
        return true, acts;
      }
      Lists.RemoveFirstNoDups(interaction, u);
      interaction := Lists.RemoveFirst(interaction, u);
      raised := false;
    }

    /** `cog_unload`: one stop is scheduled per listed user, in list order.
        The stops run later, as `StopTask` events. */
    method CogUnload() returns (scheduled: seq<UserId>)
      requires Valid()
      ensures scheduled == interaction
      ensures Relay.StopTasks(interaction, scheduled).users == []
      ensures |Relay.StopTasks(interaction, scheduled).acts| == |interaction|
    {
      scheduled := [];
      for k := 0 to |interaction|
        invariant scheduled == interaction[..k]
      {
        scheduled := scheduled + [interaction[k]];
      }
      Relay.StopAllEmpties(interaction);
    }

    /** The wait at the top of the loop (`bot.wait_for("message", timeout=300)`)
        from event `i` on: reactions, scheduled stops, other `interact`
        commands and the timeouts of other sessions run until a message or
        the timeout comes, at `j`, or the trace ends. */
    method AwaitMessage(u: UserId, target: Channel, bot: UserId, trace: seq<Relay.Event>, i: nat)
      returns (j: nat, acts: seq<Action>)
      requires Valid() && i <= |trace| && Relay.TextTargets(trace)
      modifies this
      ensures Valid() && i <= j <= |trace|
      ensures j < |trace| ==> trace[j].Received? || trace[j].TimedOut?
      ensures Relay.Wait(old(interaction), u, target, bot, trace[i..])
        == Relay.Prepend(acts, Relay.Wait(interaction, u, target, bot, trace[j..]))
    {
      acts := [];
      j := i;
      while j < |trace| && Relay.IsListener(trace[j])
        invariant i <= j <= |trace| && Valid()
        invariant Relay.Wait(old(interaction), u, target, bot, trace[i..])
          == Relay.Prepend(acts, Relay.Wait(interaction, u, target, bot, trace[j..]))
        decreases |trace| - j
      {
        assert trace[j..][1..] == trace[j + 1..];
        Relay.WaitOnListener(interaction, u, target, bot, trace[j..]);
        var more := RunListener(trace[j]);
        Relay.PrependTwice(acts, more, Relay.Wait(interaction, u, target, bot, trace[j + 1..]));
        acts := acts + more;
        j := j + 1;
      }
    }

    /** One event that runs against the table during a wait: the reaction
        listener, a scheduled stop, another `interact` command up to its
        append, or another session's timeout branch. */
    method RunListener(e: Relay.Event) returns (acts: seq<Action>)
      requires Valid() && Relay.IsListener(e)
      requires e.Joined? && e.channel.Some? ==> e.channel.value.TextChannel?
      modifies this
      ensures Valid()
      ensures Relay.Step(interaction, acts) == Relay.Listener(old(interaction), e)
    {
      match e {
        case Reacted(reaction) =>
          acts := OnReactionAdd(reaction);
        case StopTask(v) =>
          var _, stopped := StopInteraction(v);
          acts := stopped;
        case Joined(ctx, channel) =>
          var _, started := Start(ctx, channel);
          acts := started;
        case OtherTimedOut(v) =>
          var _, noticed := OnTimeout(v);
          acts := noticed;
      }
    }

    /** The `while True` loop of `interact` for user `u` bridged to `target`,
        over the events of `trace`; it follows `Relay.Run`. */
    method Bridge(u: UserId, target: Channel, bot: UserId, trace: seq<Relay.Event>)
      returns (end: Relay.End, acts: seq<Action>)
      requires Valid() && Relay.TextTargets(trace)
      modifies this
      ensures Valid()
      ensures Relay.Run(old(interaction), u, target, bot, trace) == Relay.Outcome(interaction, acts, end)
    {
      acts := [];
      var i := 0;
      while true
        invariant 0 <= i <= |trace| && Valid()
        invariant Relay.Run(old(interaction), u, target, bot, trace)
          == Relay.Prepend(acts, Relay.Run(interaction, u, target, bot, trace[i..]))
        decreases |trace| - i
      {
        if u !in interaction {
          return Relay.Closed, acts;
        }
        assert Relay.Run(interaction, u, target, bot, trace[i..]) == Relay.Wait(interaction, u, target, bot, trace[i..]);
        var j, waited := AwaitMessage(u, target, bot, trace, i);
        Relay.PrependTwice(acts, waited, Relay.Wait(interaction, u, target, bot, trace[j..]));
        acts := acts + waited;
        i := j;
        if i == |trace| {
          return Relay.StillWaiting, acts;
        }
        var finished, e, more := OnWaitEnded(u, target, bot, trace, i);
        if finished {
          acts := acts + more;
          return e, acts;
        }
        Relay.PrependTwice(acts, more, Relay.Run(interaction, u, target, bot, trace[i + 1..]));
        acts := acts + more;
        i := i + 1;
      }
    }

    /** The loop once the wait returned at event `i`: the timeout ends the
        session; a message is routed and the loop goes back to its top. */
    method OnWaitEnded(u: UserId, target: Channel, bot: UserId, trace: seq<Relay.Event>, i: nat)
      returns (finished: bool, end: Relay.End, acts: seq<Action>)
      requires Valid() && i < |trace| && (trace[i].Received? || trace[i].TimedOut?)
      modifies this
      ensures Valid()
      ensures finished <==> trace[i].TimedOut?
      ensures finished ==>
        Relay.Wait(old(interaction), u, target, bot, trace[i..]) == Relay.Outcome(interaction, acts, end)
      ensures !finished ==>
        && interaction == old(interaction)
        && Relay.Wait(old(interaction), u, target, bot, trace[i..])
           == Relay.Prepend(acts, Relay.Run(interaction, u, target, bot, trace[i + 1..]))
    {
      assert trace[i..][1..] == trace[i + 1..];
      if trace[i].TimedOut? {
        Relay.WaitOnTimeout(interaction, u, target, bot, trace[i..]);
        var raised;
        raised, acts := OnTimeout(u);
        end := if raised then Relay.Raised(ValueError) else Relay.TimedOutEnd;
        return true, end, acts;
      }
      Relay.WaitOnMessage(interaction, u, target, bot, trace[i..]);
      acts := Relay.RouteActions(Relay.Classify(trace[i].message, u, target, bot), u, target);
      finished, end := false, Relay.StillWaiting;
    }

    /** The `interact` command: the start, then, once started, the loop. */
    method Interact(ctx: Context, channel: Option<Channel>, bot: UserId, trace: seq<Relay.Event>)
      returns (r: StartResult, end: Option<Relay.End>, acts: seq<Action>)
      requires Valid() && (channel.Some? ==> channel.value.TextChannel?) && Relay.TextTargets(trace)
      modifies this
      ensures Valid()
      ensures channel.None? && ctx.channel.DMChannel? ==>
        r == NeedsChannel && acts == [Reply(NoticeBody(NeedChannel), None)]
      ensures !(channel.None? && ctx.channel.DMChannel?) && ctx.author in old(interaction) ==>
        r == SessionRunning && acts == [Reply(NoticeBody(Notice.AlreadyRunning), None)]
      ensures r.Started? <==> !(channel.None? && ctx.channel.DMChannel?) && ctx.author !in old(interaction)
      ensures r.Started? ==> r.target == (if channel.Some? then channel.value else ctx.channel)
      ensures !r.Started? ==> interaction == old(interaction) && end.None?
      ensures r.Started? ==>
        && ctx.author !in old(interaction)
        && end.Some?
        && var o := Relay.Run(old(interaction) + [ctx.author], ctx.author, r.target, bot, trace);
          && acts == [DirectMessage(ctx.author, NoticeBody(Instructions(r.target)), None), AddReaction(CloseEmoji)] + o.acts
          && interaction == o.users && end.value == o.end
    {
      var startActs;
      r, startActs := Start(ctx, channel);
      if !r.Started? {
        return r, None, startActs;
      }
      var e, loopActs := Bridge(ctx.author, r.target, bot, trace);
      end := Some(e);
      acts := startActs + loopActs;
    }
  }
}
