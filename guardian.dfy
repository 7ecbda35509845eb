/** The running bot: the configuration it holds and changes at run time
    (`bot.link_blocking_enabled` and the global allow-list sets), the message
    handler and the admin commands (bot.py:47-50, 80-107, 116-160, 181-237). */
module Guardian {
  import opened Wrappers
  import opened Config
  import opened Links
  import opened AllowList
  import opened Pipeline

  class ModBot {
    var linkBlockingEnabled: bool
    var allowedChannels: set<nat>
    var allowedRoles: set<nat>
    const logChannelId: Option<nat>
    const autoDmOnBlock: bool
    const autoTimeoutMinutes: int
    const guildId: Option<nat>

    /** The configuration as it stands now. */
    function Current(): Settings
      reads this
    {
      Settings(linkBlockingEnabled, allowedChannels, allowedRoles, logChannelId,
               autoDmOnBlock, autoTimeoutMinutes, guildId)
    }

    /** The bot starts from the settings loaded at start-up. */
    constructor (s: Settings)
      ensures Current() == s
    {
      linkBlockingEnabled := s.linkBlockingEnabled;
      allowedChannels := s.allowedChannels;
      allowedRoles := s.allowedRoles;
      logChannelId := s.logChannelId;
      autoDmOnBlock := s.autoDmOnBlock;
      autoTimeoutMinutes := s.autoTimeoutMinutes;
      guildId := s.guildId;
    }

    /** `log` (bot.py:80-87): one send when a non-zero log channel is
        configured and found, nothing otherwise; it never fails. */
    method Log(line: LogLine, w: World) returns (effects: seq<Effect>)
      ensures effects == LogEffects(logChannelId, w, line)
      ensures effects == [] || effects == [Logged(line)]
      ensures effects != [] <==> logChannelId.Some? && logChannelId.value != 0 && w.logChannelFound
    {
      effects := [];
      if logChannelId.Some? && logChannelId.value != 0 {
        if w.logChannelFound {
          effects := [Logged(line)];
        }
      }
    }

    /** `dm_bilingual` (bot.py:89-107): one attempt when `AUTO_DM_ON_BLOCK` is
        set, whatever its outcome, and nothing otherwise. */
    method DmBilingual(user: nat, w: World) returns (effects: seq<Effect>)
      ensures effects == (if autoDmOnBlock then [DmAttempt(user, w.dm)] else [])
    {
      effects := [];
      if !autoDmOnBlock {
        return;
      }
      effects := [DmAttempt(user, w.dm)];
    }

    /** `on_message` (bot.py:116-160), step by step. The outcomes of the
        awaited calls come from `w`; an outcome other than `Ok` is the
        exception the call raises. */
    method OnMessage(m: Message, w: World) returns (effects: seq<Effect>)
      ensures effects == Reaction(Current(), m, w)
    {
      if m.authorIsBot {
        return [];
      }
      if linkBlockingEnabled && Search(m.content).Some? {
        if !IsAllowed(m.channel, m.author, allowedChannels, allowedRoles) {
          effects := Moderate(m, w);
          return;
        }
      }
      effects := [Dispatched];
    }

    /** The `try` block of `on_message` and its `except` clauses
        (bot.py:124-160) for a message the gate blocks. */
    method Moderate(m: Message, w: World) returns (effects: seq<Effect>)
      ensures effects == Moderation(Current(), m, w)
    {
      var raised: Outcome := Ok;
      effects := [DeleteAttempt(w.delete)];
      if w.delete != Ok {
        raised := w.delete;
      } else {
        effects := effects + [WarnAttempt(m.authorId, WarningLifetime, w.warn)];
        if w.warn != Ok {
          raised := w.warn;
        } else {
          var dm := DmBilingual(m.authorId, w);
          effects := effects + dm;
          var timedOut := AutoTimeout(m, w);
          effects := effects + timedOut;
          var logged := Log(Summary(Current(), m), w);
          effects := effects + logged;
          assert effects == [DeleteAttempt(Ok), WarnAttempt(m.authorId, WarningLifetime, Ok)] + dm + timedOut + logged;
          return;
        }
      }
      // except discord.Forbidden / except Exception:
      var logged;
      if raised == Forbidden {
        logged := Log(DeleteForbidden, w);
      } else {
        logged := Log(DeleteFailed, w);
      }
      effects := effects + logged + [Dispatched];
    }

    /** Step 4 of the pipeline (bot.py:138-145): the timeout when
        `AUTO_TIMEOUT_MINUTES` is positive; a failure is logged, not raised. */
    method AutoTimeout(m: Message, w: World) returns (effects: seq<Effect>)
      ensures effects == TimeoutEffects(Current(), m, w)
    {
      effects := [];
      if autoTimeoutMinutes > 0 {
        effects := [TimeoutAttempt(m.authorId, autoTimeoutMinutes, w.timeout)];
        if w.timeout == Forbidden {
          var logged := Log(TimeoutForbidden(m.authorId), w);
          effects := effects + logged;
        } else if w.timeout == OtherError {
          var logged := Log(TimeoutFailed(m.authorId), w);
          effects := effects + logged;
        }
      }
    }

    /** `/mod toggle_blocking` (bot.py:181-189): without Manage Server, a
        denial and no change; with it, the flag becomes exactly `on`, then the
        confirmation and the log line. */
    method ToggleBlocking(invoker: nat, canManageGuild: bool, on: bool, w: World) returns (effects: seq<Effect>)
      modifies this`linkBlockingEnabled
      ensures !canManageGuild ==>
        linkBlockingEnabled == old(linkBlockingEnabled) && effects == [Replied(NeedManageServer)]
      ensures canManageGuild ==>
        linkBlockingEnabled == on &&
        effects == [Replied(BlockingSet(on))] + LogEffects(logChannelId, w, BlockingChanged(on, invoker))
      ensures allowedChannels == old(allowedChannels) && allowedRoles == old(allowedRoles)
    {
      if !canManageGuild {
        effects := [Replied(NeedManageServer)];
        return;
      }
      linkBlockingEnabled := on;
      effects := [Replied(BlockingSet(on))];
      var logged := Log(BlockingChanged(on, invoker), w);
      effects := effects + logged;
    }

    /** `/mod allow` (bot.py:191-218): without Manage Server, a denial and no
        change; an unknown `type`, a hint and no change; otherwise only the
        chosen set is edited (addition first, then removal), the log line is
        sent, then the set is shown. */
    method Allow(invoker: nat, canManageGuild: bool, kind: string, add: Option<string>, remove: Option<string>, w: World)
      returns (effects: seq<Effect>)
      modifies this`allowedChannels, this`allowedRoles
      ensures linkBlockingEnabled == old(linkBlockingEnabled)
      ensures !canManageGuild ==>
        allowedChannels == old(allowedChannels) && allowedRoles == old(allowedRoles) &&
        effects == [Replied(NeedManageServer)]
      ensures canManageGuild ==>
        match ParseKind(kind)
        case None =>
          allowedChannels == old(allowedChannels) && allowedRoles == old(allowedRoles) &&
          effects == [Replied(KindHint)]
        case Some(Channels) =>
          allowedChannels == EditSet(old(allowedChannels), ToId(add), ToId(remove)) &&
          allowedRoles == old(allowedRoles) &&
          effects == LogEffects(logChannelId, w, AllowListUpdated(invoker, Channels, allowedChannels)) +
                     [Replied(AllowListNow(Channels, allowedChannels))]
        case Some(Roles) =>
          allowedRoles == EditSet(old(allowedRoles), ToId(add), ToId(remove)) &&
          allowedChannels == old(allowedChannels) &&
          effects == LogEffects(logChannelId, w, AllowListUpdated(invoker, Roles, allowedRoles)) +
                     [Replied(AllowListNow(Roles, allowedRoles))]
    {
      if !canManageGuild {
        effects := [Replied(NeedManageServer)];
        return;
      }
      var parsed := ParseKind(kind);      // type.lower().strip()
      if parsed.None? {
        effects := [Replied(KindHint)];
        return;
      }
      effects := Update(invoker, parsed.value, ToId(add), ToId(remove), w);
    }

    /** The IDs of one kind. */
    function Ids(k: AllowKind): set<nat>
      reads this
    {
      if k == Channels then allowedChannels else allowedRoles
    }

    /** One branch of `allow` (bot.py:203-218): the chosen set is edited, the
        other is not, then the log line and the reply show the new set. */
    method Update(invoker: nat, k: AllowKind, addId: Option<nat>, remId: Option<nat>, w: World)
      returns (effects: seq<Effect>)
      modifies this`allowedChannels, this`allowedRoles
      ensures k == Channels ==>
        allowedChannels == EditSet(old(allowedChannels), addId, remId) && allowedRoles == old(allowedRoles)
      ensures k == Roles ==>
        allowedRoles == EditSet(old(allowedRoles), addId, remId) && allowedChannels == old(allowedChannels)
      ensures effects == LogEffects(logChannelId, w, AllowListUpdated(invoker, k, Ids(k))) +
                         [Replied(AllowListNow(k, Ids(k)))]
    {
      if k == Channels {
        EditChannels(addId, remId);
      } else {
        EditRoles(addId, remId);
      }
      effects := Log(AllowListUpdated(invoker, k, Ids(k)), w);
      effects := effects + [Replied(AllowListNow(k, Ids(k)))];
    }

    /** `ALLOWED_CHANNEL_IDS.add` / `.remove` as `allow` uses them (bot.py:205-206). */
    method EditChannels(addId: Option<nat>, remId: Option<nat>)
      modifies this`allowedChannels
      ensures allowedChannels == EditSet(old(allowedChannels), addId, remId)
    {
      if addId.Some? && addId.value != 0 {
        allowedChannels := allowedChannels + {addId.value};
      }
      if remId.Some? && remId.value != 0 && remId.value in allowedChannels {
        allowedChannels := allowedChannels - {remId.value};
      }
    }

    /** `ALLOWED_ROLE_IDS.add` / `.remove` as `allow` uses them (bot.py:210-211). */
    method EditRoles(addId: Option<nat>, remId: Option<nat>)
      modifies this`allowedRoles
      ensures allowedRoles == EditSet(old(allowedRoles), addId, remId)
    {
      if addId.Some? && addId.value != 0 {
        allowedRoles := allowedRoles + {addId.value};
      }
      if remId.Some? && remId.value != 0 && remId.value in allowedRoles {
        allowedRoles := allowedRoles - {remId.value};
      }
    }

    /** `/mod mute` (bot.py:220-237): without Moderate Members, a denial and no
        timeout; otherwise one timeout attempt for `minutes`, then on success
        the confirmation and the log line, on `Forbidden` a specific denial,
        on another error the error reply, and never a log line on failure. */
    method Mute(invoker: nat, canModerateMembers: bool, user: nat, minutes: int, w: World)
      returns (effects: seq<Effect>)
      ensures !canModerateMembers ==> effects == [Replied(NeedModerateMembers)]
      ensures canModerateMembers ==> |effects| >= 2 && effects[0] == TimeoutAttempt(user, minutes, w.timeout)
      ensures canModerateMembers && w.timeout == Ok ==>
        effects == [TimeoutAttempt(user, minutes, Ok), Replied(Muted(user, minutes))] +
                   LogEffects(logChannelId, w, MuteApplied(user, minutes, invoker))
      ensures canModerateMembers && w.timeout == Forbidden ==>
        effects == [TimeoutAttempt(user, minutes, Forbidden), Replied(CannotTimeOut)]
      ensures canModerateMembers && w.timeout == OtherError ==>
        effects == [TimeoutAttempt(user, minutes, OtherError), Replied(MuteError)]
    {
      if !canModerateMembers {
        effects := [Replied(NeedModerateMembers)];
        return;
      }
      effects := [TimeoutAttempt(user, minutes, w.timeout)];
      match w.timeout {
        case Ok =>
          effects := effects + [Replied(Muted(user, minutes))];
          var logged := Log(MuteApplied(user, minutes, invoker), w);
          effects := effects + logged;
        case Forbidden =>
          effects := effects + [Replied(CannotTimeOut)];
        case OtherError =>
          effects := effects + [Replied(MuteError)];
      }
    }
  }
}
