/** What the handlers of bot.py do, as values: the platform calls they make
    (each answered by an abstract outcome), the lines they send to the log
    channel, the replies to commands, and whether a message reaches command
    dispatch. `Reaction` states the whole effect of `on_message`
    (bot.py:116-160); the lemmas below state its promises. */
module Pipeline {
  import opened Wrappers
  import opened Config
  import opened Links
  import opened AllowList

  /** How an awaited platform call ended: it returned, it raised
      `discord.Forbidden`, or it raised another exception. */
  datatype Outcome = Ok | Forbidden | OtherError

  /** The platform's answers to the calls a handler may make. */
  datatype World = World(
    delete: Outcome,          // message.delete()
    warn: Outcome,            // message.channel.send(..., delete_after=5)
    dm: Outcome,              // member.send(...) in dm_bilingual
    timeout: Outcome,         // member.timeout(...)
    logChannelFound: bool)    // bot.get_channel(LOG_CHANNEL_ID) is not None

  /** An inbound message: its author (ID, bot flag, guild membership), its
      channel and its text. */
  datatype Message = Message(
    authorId: nat,
    authorIsBot: bool,
    author: Membership,
    channel: nat,
    content: string)

  /** The lines `log` is asked to send; wording and mentions are left out,
      the facts they carry are kept. */
  datatype LogLine =
    | DeleteForbidden                       // missing permission to delete
    | DeleteFailed                          // another error while deleting or warning
    | TimeoutForbidden(user: nat)           // missing permission to time out
    | TimeoutFailed(user: nat)              // another error while timing out
    | LinkRemoved(user: nat, channel: nat, minutes: int, excerpt: string)
    | BlockingChanged(on: bool, admin: nat)
    | AllowListUpdated(admin: nat, kind: AllowKind, ids: set<nat>)
    | MuteApplied(user: nat, minutes: int, admin: nat)

  /** The private replies to slash commands. */
  datatype Reply =
    | NeedManageServer
    | BlockingSet(on: bool)
    | AllowListNow(kind: AllowKind, ids: set<nat>)
    | KindHint
    | NeedModerateMembers
    | Muted(user: nat, minutes: int)
    | CannotTimeOut
    | MuteError

  /** One observable step of a handler, in the order it happens. */
  datatype Effect =
    | DeleteAttempt(outcome: Outcome)
    | WarnAttempt(mention: nat, deleteAfter: nat, outcome: Outcome)
    | DmAttempt(user: nat, outcome: Outcome)
    | TimeoutAttempt(user: nat, minutes: int, outcome: Outcome)
    | Logged(line: LogLine)
    | Replied(reply: Reply)
    | Dispatched                            // bot.process_commands(message)

  /** Seconds before the channel warning deletes itself (`delete_after=5`). */
  const WarningLifetime: nat := 5

  /** Characters of the content quoted in the summary log line. */
  const ExcerptLength: nat := 350

  /** `content[:350]` */
  function Excerpt(content: string): (r: string)
    ensures |r| == if |content| < ExcerptLength then |content| else ExcerptLength
    ensures r == content[..|r|]
  {
    if |content| <= ExcerptLength then content else content[..ExcerptLength]
  }

  /** `log` reaches a channel only when `LOG_CHANNEL_ID` is set and not 0 and
      the channel is found (bot.py:81-83). */
  predicate LogSinkOpen(logChannelId: Option<nat>, w: World) {
    logChannelId.Some? && logChannelId.value != 0 && w.logChannelFound
  }

  /** The effect of `await log(line)`: a send when the sink is open, nothing
      otherwise; a failing send is swallowed (bot.py:84-87). */
  function LogEffects(logChannelId: Option<nat>, w: World, line: LogLine): seq<Effect> {
    if LogSinkOpen(logChannelId, w) then [Logged(line)] else []
  }

  /** The gate of bot.py:122-123: blocking on, a link in the content, and no
      exemption. */
  function Blocks(cfg: Settings, m: Message): (b: bool)
    ensures b <==> (cfg.linkBlockingEnabled && HasLink(m.content) && m.channel !in cfg.allowedChannels &&
      !(m.author.Member? && exists i :: 0 <= i < |m.author.roles| && m.author.roles[i] in cfg.allowedRoles))
  {
    cfg.linkBlockingEnabled && Search(m.content).Some? &&
    !IsAllowed(m.channel, m.author, cfg.allowedChannels, cfg.allowedRoles)
  }

  /** The log line of the outer `except` clauses (bot.py:154-157). */
  function FailureLine(o: Outcome): LogLine {
    if o == Forbidden then DeleteForbidden else DeleteFailed
  }

  /** `dm_bilingual` (bot.py:89-107): nothing when the flag is off, else one
      attempt whose failure is swallowed. */
  function DmEffects(cfg: Settings, m: Message, w: World): seq<Effect> {
    if cfg.autoDmOnBlock then [DmAttempt(m.authorId, w.dm)] else []
  }

  /** Step 4 (bot.py:138-145): the timeout when the configured minutes are
      positive, and a log line when it raises. */
  function TimeoutEffects(cfg: Settings, m: Message, w: World): seq<Effect> {
    if cfg.autoTimeoutMinutes > 0 then
      [TimeoutAttempt(m.authorId, cfg.autoTimeoutMinutes, w.timeout)] +
      match w.timeout
        case Ok => []
        case Forbidden => LogEffects(cfg.logChannelId, w, TimeoutForbidden(m.authorId))
        case OtherError => LogEffects(cfg.logChannelId, w, TimeoutFailed(m.authorId))
    else []
  }

  /** The summary line of step 5 (bot.py:148-151). */
  function Summary(cfg: Settings, m: Message): LogLine {
    LinkRemoved(m.authorId, m.channel, cfg.autoTimeoutMinutes, Excerpt(m.content))
  }

  /** Everything `on_message` does with message `m` under configuration `cfg`
      when the platform answers as `w`. */
  function Reaction(cfg: Settings, m: Message, w: World): (r: seq<Effect>)
    ensures r == [] <==> m.authorIsBot
    ensures r != [] ==> r[0] == Dispatched || r[0] == DeleteAttempt(w.delete)
  {
    if m.authorIsBot then []
    else if !Blocks(cfg, m) then [Dispatched]
    else Moderation(cfg, m, w)
  }

  /** The `try` block of bot.py:124-153 and its `except` clauses
      (bot.py:154-157), then dispatch unless the pipeline ran to its end. */
  function Moderation(cfg: Settings, m: Message, w: World): (r: seq<Effect>)
    ensures |r| >= 2 && r[0] == DeleteAttempt(w.delete)
    ensures r[|r| - 1] == Dispatched <==> w.delete != Ok || w.warn != Ok
  {
    if w.delete != Ok then
      [DeleteAttempt(w.delete)] + LogEffects(cfg.logChannelId, w, FailureLine(w.delete)) + [Dispatched]
    else if w.warn != Ok then
      [DeleteAttempt(Ok), WarnAttempt(m.authorId, WarningLifetime, w.warn)] +
      LogEffects(cfg.logChannelId, w, FailureLine(w.warn)) + [Dispatched]
    else
      [DeleteAttempt(Ok), WarnAttempt(m.authorId, WarningLifetime, Ok)] +
      DmEffects(cfg, m, w) + TimeoutEffects(cfg, m, w) +
      LogEffects(cfg.logChannelId, w, Summary(cfg, m))
  }

  // ---------------------------------------------------------------------------
  // Observations on a sequence of effects

  /** The lines sent to the log channel, in order. */
  function Logs(effects: seq<Effect>): (lines: seq<LogLine>)
    ensures |lines| <= |effects|
  {
    if effects == [] then []
    else (if effects[0].Logged? then [effects[0].line] else []) + Logs(effects[1..])
  }

  lemma {:induction false} LogsAppend(a: seq<Effect>, b: seq<Effect>)
    ensures Logs(a + b) == Logs(a) + Logs(b)
  {
    if a != [] {
      assert (a + b)[1..] == a[1..] + b;
      LogsAppend(a[1..], b);
    } else {
      assert a + b == b;
    }
  }

  /** The rank of each kind of step of the blocking pipeline. */
  function Stage(e: Effect): nat {
    match e
      case DeleteAttempt(_) => 0
      case WarnAttempt(_, _, _) => 1
      case DmAttempt(_, _) => 2
      case TimeoutAttempt(_, _, _) => 3
      case Logged(line) => if line.LinkRemoved? then 5 else 4
      case Replied(_) => 6
      case Dispatched => 6
  }

  /** Every step comes after every step of a lower rank, and no rank repeats. */
  predicate InStageOrder(effects: seq<Effect>) {
    forall i, j :: 0 <= i < j < |effects| ==> Stage(effects[i]) < Stage(effects[j])
  }

  /** The pipeline of bot.py:124-153 runs to its end. */
  predicate Completes(cfg: Settings, m: Message, w: World) {
    !m.authorIsBot && Blocks(cfg, m) && w.delete == Ok && w.warn == Ok
  }

  // ---------------------------------------------------------------------------
  // Properties of `on_message`

  /** A message from a bot causes nothing, not even command dispatch. */
  lemma IgnoresBots(cfg: Settings, m: Message, w: World)
    requires m.authorIsBot
    ensures Reaction(cfg, m, w) == []
  {
  }

  /** Blocking off, no link, or an exemption: nothing is deleted and the
      message goes to command dispatch untouched. */
  lemma PassesThrough(cfg: Settings, m: Message, w: World)
    requires !m.authorIsBot
    requires !cfg.linkBlockingEnabled || !HasLink(m.content) ||
             IsAllowed(m.channel, m.author, cfg.allowedChannels, cfg.allowedRoles)
    ensures Reaction(cfg, m, w) == [Dispatched]
  {
  }

  /** A message in an allowed channel is never blocked, whatever its author. */
  lemma AllowedChannelNeverBlocked(cfg: Settings, m: Message, w: World)
    requires !m.authorIsBot && m.channel in cfg.allowedChannels
    ensures Reaction(cfg, m, w) == [Dispatched]
  {
  }

  /** A member holding an allowed role is never blocked, in any channel. */
  lemma AllowedRoleNeverBlocked(cfg: Settings, m: Message, w: World, i: nat)
    requires !m.authorIsBot && m.author.Member?
    requires i < |m.author.roles| && m.author.roles[i] in cfg.allowedRoles
    ensures Reaction(cfg, m, w) == [Dispatched]
  {
  }

  /** The message reaches command dispatch exactly when its author is human and
      it is not blocked, or deleting it or posting the warning raised. Dispatch
      is then the last step. */
  lemma DispatchedIff(cfg: Settings, m: Message, w: World)
    ensures var r := Reaction(cfg, m, w);
      (Dispatched in r <==> !m.authorIsBot && (!Blocks(cfg, m) || w.delete != Ok || w.warn != Ok))
      && (Dispatched in r ==> r[|r| - 1] == Dispatched && Dispatched !in r[..|r| - 1])
  {
    if Completes(cfg, m, w) {
      CompletedRunShape(cfg, m, w);
      assert Dispatched !in [DeleteAttempt(Ok), WarnAttempt(m.authorId, WarningLifetime, Ok)] +
        DmEffects(cfg, m, w) + TimeoutEffects(cfg, m, w) + LogEffects(cfg.logChannelId, w, Summary(cfg, m));
    }
  }

  lemma CompletedRunShape(cfg: Settings, m: Message, w: World)
    requires Completes(cfg, m, w)
    ensures Reaction(cfg, m, w) ==
      [DeleteAttempt(Ok), WarnAttempt(m.authorId, WarningLifetime, Ok)] +
      DmEffects(cfg, m, w) + TimeoutEffects(cfg, m, w) +
      LogEffects(cfg.logChannelId, w, Summary(cfg, m))
  {
  }

  /** When the pipeline completes: the delete, then the warning that deletes
      itself after 5 seconds, then the DM, then the timeout, then its failure
      line, then the summary, each at most once and in this order. */
  lemma CompletedRunOrder(cfg: Settings, m: Message, w: World)
    requires Completes(cfg, m, w)
    ensures var r := Reaction(cfg, m, w);
      && |r| >= 2
      && r[0] == DeleteAttempt(Ok)
      && r[1] == WarnAttempt(m.authorId, WarningLifetime, Ok)
      && InStageOrder(r)
  {
    var dm := DmEffects(cfg, m, w);
    var to := TimeoutEffects(cfg, m, w);
    var sum := LogEffects(cfg.logChannelId, w, Summary(cfg, m));
    CompletedRunShape(cfg, m, w);
    assert |to| == 2 ==> Stage(to[0]) == 3 && Stage(to[1]) == 4;
    SegmentsInStageOrder(m.authorId, dm, to, sum);
  }

  /** The four segments of a completed run, each in its own band of stages,
      make one run in stage order. */
  lemma SegmentsInStageOrder(user: nat, dm: seq<Effect>, to: seq<Effect>, sum: seq<Effect>)
    requires |dm| <= 1 && (forall k :: 0 <= k < |dm| ==> Stage(dm[k]) == 2)
    requires |to| <= 2 && (|to| >= 1 ==> Stage(to[0]) == 3) && (|to| == 2 ==> Stage(to[1]) == 4)
    requires |sum| <= 1 && (forall k :: 0 <= k < |sum| ==> Stage(sum[k]) == 5)
    ensures InStageOrder([DeleteAttempt(Ok), WarnAttempt(user, WarningLifetime, Ok)] + dm + to + sum)
  {
    var head := [DeleteAttempt(Ok), WarnAttempt(user, WarningLifetime, Ok)];
    StageOrderAppend(head, dm, 1);
    StageOrderAppend(head + dm, to, 2);
    StageOrderAppend(head + dm + to, sum, 4);
  }

  /** When the pipeline completes, the DM is attempted exactly when
      `AUTO_DM_ON_BLOCK` is set, and the timeout, for the configured minutes,
      exactly when they are positive. */
  lemma CompletedRunSteps(cfg: Settings, m: Message, w: World)
    requires Completes(cfg, m, w)
    ensures var r := Reaction(cfg, m, w);
      && (DmAttempt(m.authorId, w.dm) in r <==> cfg.autoDmOnBlock)
      && (TimeoutAttempt(m.authorId, cfg.autoTimeoutMinutes, w.timeout) in r <==> cfg.autoTimeoutMinutes > 0)
  {
    var head := [DeleteAttempt(Ok), WarnAttempt(m.authorId, WarningLifetime, Ok)];
    var dm := DmEffects(cfg, m, w);
    var to := TimeoutEffects(cfg, m, w);
    var sum := LogEffects(cfg.logChannelId, w, Summary(cfg, m));
    CompletedRunShape(cfg, m, w);
    assert DmAttempt(m.authorId, w.dm) !in head + to + sum;
    assert TimeoutAttempt(m.authorId, cfg.autoTimeoutMinutes, w.timeout) !in head + dm + sum;
  }

  /** Two runs in stage order, the first ending at or below `bound` and the
      second starting above it, concatenate to a run in stage order. */
  lemma StageOrderAppend(a: seq<Effect>, b: seq<Effect>, bound: nat)
    requires InStageOrder(a) && InStageOrder(b)
    requires forall k :: 0 <= k < |a| ==> Stage(a[k]) <= bound
    requires forall k :: 0 <= k < |b| ==> Stage(b[k]) > bound
    ensures InStageOrder(a + b)
  {
    var ab := a + b;
    forall i, j | 0 <= i < j < |ab| ensures Stage(ab[i]) < Stage(ab[j]) {
      if j < |a| {
        assert ab[i] == a[i] && ab[j] == a[j];
      } else if i >= |a| {
        assert ab[i] == b[i - |a|] && ab[j] == b[j - |a|];
      } else {
        assert ab[i] == a[i] && ab[j] == b[j - |a|];
      }
    }
  }

  /** When the pipeline completes, the log channel receives the summary last,
      preceded only by the timeout's failure line, Forbidden told apart from
      other errors; nothing at all when the sink is closed. */
  lemma CompletedRunLogs(cfg: Settings, m: Message, w: World)
    requires Completes(cfg, m, w)
    ensures var open := LogSinkOpen(cfg.logChannelId, w);
      var timeoutLine :=
        if cfg.autoTimeoutMinutes <= 0 || w.timeout == Ok then []
        else if w.timeout == Forbidden then [TimeoutForbidden(m.authorId)]
        else [TimeoutFailed(m.authorId)];
      Logs(Reaction(cfg, m, w)) == if open then timeoutLine + [Summary(cfg, m)] else []
  {
    assert Reaction(cfg, m, w) == Moderation(cfg, m, w);
    ModerationLogs(cfg, m, w);
    TimeoutLogs(cfg, m, w);
  }

  /** The log lines of a pipeline whose delete and warning succeed. */
  lemma ModerationLogs(cfg: Settings, m: Message, w: World)
    requires w.delete == Ok && w.warn == Ok
    ensures Logs(Moderation(cfg, m, w)) ==
      Logs(TimeoutEffects(cfg, m, w)) + Logs(LogEffects(cfg.logChannelId, w, Summary(cfg, m)))
  {
    var head := [DeleteAttempt(Ok), WarnAttempt(m.authorId, WarningLifetime, Ok)];
    var dm := DmEffects(cfg, m, w);
    var to := TimeoutEffects(cfg, m, w);
    var sum := LogEffects(cfg.logChannelId, w, Summary(cfg, m));
    assert Moderation(cfg, m, w) == head + dm + to + sum;
    LogsAppend(head + dm + to, sum);
    LogsAppend(head + dm, to);
    LogsAppend(head, dm);
    assert Logs(head) == [] by {
      assert head[1..][1..] == [];
    }
    assert Logs(dm) == [] by {
      if dm != [] {
        assert dm[1..] == [];
      }
    }
  }

  /** The log lines of step 4: the timeout's failure line, if any. */
  lemma TimeoutLogs(cfg: Settings, m: Message, w: World)
    ensures Logs(TimeoutEffects(cfg, m, w)) ==
      if !LogSinkOpen(cfg.logChannelId, w) || cfg.autoTimeoutMinutes <= 0 || w.timeout == Ok then []
      else if w.timeout == Forbidden then [TimeoutForbidden(m.authorId)]
      else [TimeoutFailed(m.authorId)]
  {
    var to := TimeoutEffects(cfg, m, w);
    if cfg.autoTimeoutMinutes > 0 {
      var attempt := [TimeoutAttempt(m.authorId, cfg.autoTimeoutMinutes, w.timeout)];
      LogsAppend(attempt, to[1..]);
      assert attempt + to[1..] == to;
    }
  }

  /** The summary quotes the first 350 characters of the content, or all of a
      shorter content. */
  lemma SummaryQuotesContent(cfg: Settings, m: Message)
    ensures var e := Summary(cfg, m).excerpt;
      && e == m.content[..|e|]
      && (|m.content| <= ExcerptLength ==> e == m.content)
      && (|m.content| > ExcerptLength ==> |e| == ExcerptLength)
  {
  }

  /** When deleting raises, or the warning right after it raises: no DM, no
      timeout, no summary; exactly one log line (if the sink is open) that
      tells Forbidden apart from other errors; then command dispatch. */
  lemma FailedDeleteOrWarn(cfg: Settings, m: Message, w: World)
    requires !m.authorIsBot && Blocks(cfg, m)
    requires w.delete != Ok || w.warn != Ok
    ensures var r := Reaction(cfg, m, w);
      var failed := if w.delete != Ok then w.delete else w.warn;
      && (forall e :: e in r ==> !e.DmAttempt? && !e.TimeoutAttempt?)
      && (WarnAttempt(m.authorId, WarningLifetime, w.warn) in r <==> w.delete == Ok)
      && ((exists e :: e in r && e.WarnAttempt?) <==> w.delete == Ok)
      && Logs(r) == (if LogSinkOpen(cfg.logChannelId, w) then [FailureLine(failed)] else [])
      && (FailureLine(failed) == DeleteForbidden <==> failed == Forbidden)
      && r[|r| - 1] == Dispatched
  {
    var r := Reaction(cfg, m, w);
    var failed := if w.delete != Ok then w.delete else w.warn;
    var head := if w.delete != Ok then [DeleteAttempt(w.delete)]
                else [DeleteAttempt(Ok), WarnAttempt(m.authorId, WarningLifetime, w.warn)];
    var line := LogEffects(cfg.logChannelId, w, FailureLine(failed));
    assert r == head + line + [Dispatched];
    LogsAppend(head + line, [Dispatched]);
    LogsAppend(head, line);
    assert Logs(head) == [] by {
      if |head| == 2 {
        assert head[1..][1..] == [];
      }
    }
  }

  /** A DM that fails changes nothing else: the run differs only in the
      outcome recorded for the DM. */
  lemma DmFailureSwallowed(cfg: Settings, m: Message, w: World, o: Outcome)
    requires Completes(cfg, m, w) && cfg.autoDmOnBlock
    ensures var r := Reaction(cfg, m, w);
      |r| > 2 && Reaction(cfg, m, w.(dm := o)) == r[2 := DmAttempt(m.authorId, o)]
  {
    assert Reaction(cfg, m, w) == Moderation(cfg, m, w);
    assert Reaction(cfg, m, w.(dm := o)) == Moderation(cfg, m, w.(dm := o));
    ModerationDm(cfg, m, w, o);
  }

  lemma ModerationDm(cfg: Settings, m: Message, w: World, o: Outcome)
    requires w.delete == Ok && w.warn == Ok && cfg.autoDmOnBlock
    ensures var r := Moderation(cfg, m, w);
      |r| > 2 && Moderation(cfg, m, w.(dm := o)) == r[2 := DmAttempt(m.authorId, o)]
  {
    var w' := w.(dm := o);
    var head := [DeleteAttempt(Ok), WarnAttempt(m.authorId, WarningLifetime, Ok)];
    var rest := TimeoutEffects(cfg, m, w) + LogEffects(cfg.logChannelId, w, Summary(cfg, m));
    assert TimeoutEffects(cfg, m, w') == TimeoutEffects(cfg, m, w);
    assert Moderation(cfg, m, w) == head + [DmAttempt(m.authorId, w.dm)] + rest;
    assert Moderation(cfg, m, w') == head + [DmAttempt(m.authorId, o)] + rest;
    ReplaceThird(head, DmAttempt(m.authorId, w.dm), DmAttempt(m.authorId, o), rest);
  }

  lemma ReplaceThird<T>(head: seq<T>, x: T, y: T, rest: seq<T>)
    requires |head| == 2
    ensures (head + [x] + rest)[2 := y] == head + [y] + rest
  {
  }

  /** Nothing is logged while the log channel is unset, 0 or not found. */
  lemma ClosedSinkLogsNothing(cfg: Settings, m: Message, w: World)
    requires !LogSinkOpen(cfg.logChannelId, w)
    ensures Logs(Reaction(cfg, m, w)) == []
  {
    if Completes(cfg, m, w) {
      CompletedRunLogs(cfg, m, w);
    } else if !m.authorIsBot && Blocks(cfg, m) {
      FailedDeleteOrWarn(cfg, m, w);
    } else if !m.authorIsBot {
      assert Reaction(cfg, m, w) == [Dispatched];
    }
  }
}
