# RNL Guardian link moderation, modelled in Dafny

This project models the core of the RNL Guardian Discord bot (`bot.py`). The bot
deletes messages that contain a link, unless the channel or one of the author's roles
is on an allow-list. It then warns the author in the channel, sends a bilingual DM,
times the author out and writes a summary line to a log channel. Administrators can
switch blocking on and off, edit the allow-lists and mute a member.

The model has six modules:

- `Wrappers` (`wrappers.dfy`): `Option` and `Result`.
- `Text` (`text.dfy`): the Python string operations the bot relies on.
  - Whitespace as `str.isspace` and `\s` define it (the full Unicode list), and the narrower set `int()` skips around a number, which leaves out U+001C-U+001F (`SpaceClass`).
  - `lower`, `strip`, `replace`, `split`.
  - `isdigit`, with `int`/`str` on digit strings.
- `Config` (`config.dfy`): the settings read from the environment at import time.
  - `_to_set`, the `"true"` flag parse, the digit-only optional ID parse and `int()` of the timeout.
  - `Load` reads them all, in the order the module does.
- `Links` (`links.dfy`): `URL_REGEX.search`, i.e. the pattern `(https?://|www\.)\S+` matched case-insensitively anywhere in the content.
- `AllowList` (`allowlist.dfy`): `is_allowed`, the `type` argument of `allow`, `to_id`, and the add-then-remove edit of an ID set.
- `Pipeline` (`pipeline.dfy`): the effects of `on_message` as a value.
  - `Reaction` is the sequence of platform calls made, log lines sent and whether the message reaches command dispatch.
  - The lemmas state its ordering and failure behaviour.
- `Guardian` (`guardian.dfy`): class `ModBot` holds the run-time state.
  - The state is the blocking flag and the two allow-list sets, which the commands reassign.
  - Its methods `OnMessage`, `ToggleBlocking`, `Allow` and `Mute`, with `Log` and `DmBilingual`, are written step by step.
  - Each method is proved against the `Pipeline` and `AllowList` functions.

Every awaited platform call is abstract. Its `Outcome` is `Ok`, `Forbidden` (it raised
`discord.Forbidden`) or `OtherError` (it raised something else). The outcomes for one
run come from a `World` value.

The `return` at the end of the moderation block (bot.py:153) shows that a blocked
message is not meant to reach command dispatch. The channel warning, however, is sent
inside the same `try` as the delete (bot.py:124-132), so its failure is caught by the
delete's `except` clauses (bot.py:154-157). The model keeps what the code does:

- If the warning fails after the message was deleted, the delete-failure line is
  logged ("Missing permissions to delete" on `Forbidden`, "Error deleting message"
  otherwise; `FailureLine` is applied to the warning's outcome).
- The message then falls through to `bot.process_commands` (bot.py:160) and reaches
  dispatch. `FailedDeleteOrWarn` and `DispatchedIff` state this.

## Model

| member | source | states |
|---|---|---|
| Text.Lower | bot.py:19 | `lower()` keeps the length and lower-cases each character in place |
| Text.Strip | bot.py:198 | `strip()` (or the whitespace `int()` skips, by class): the input is whitespace, then the result, then whitespace, and the result neither starts nor ends with whitespace |
| Text.StripPadded | bot.py:198 | stripping whitespace-padded text gives back exactly the text |
| Text.RemoveChar | bot.py:23 | `replace(" ", "")`: the result has the input's characters with the same counts, except that the removed one occurs zero times |
| Text.RemoveCharAppend | bot.py:23 | removal works piece by piece, so the kept characters stay in input order |
| Text.Split | bot.py:24 | `split(",")`: at least one part, no part holds the separator, and joining the parts with it gives the input back |
| Text.SplitJoin | bot.py:24 | splitting a join of separator-free parts gives the parts back |
| Text.ShowNat | bot.py:173 | `str(n)` is a non-empty digit string without a leading zero |
| Text.ParseShowNat | bot.py:24 | `int(str(n)) == n` for the digit parse `_to_set` uses |
| Config.Tokens | bot.py:23-24 | the tokens of a list variable hold no comma and no space, and joined with commas they are the value with its spaces removed |
| Config.ToSet | bot.py:22-24 | every ID in `_to_set` comes from a token made only of digits |
| Config.ToSetOfJoined | bot.py:22-24 | for comma-joined tokens, `_to_set` is exactly the set of values of the all-digit tokens |
| Config.ToSetEmpty | bot.py:22-24 | an unset list variable gives the empty set |
| Config.ToSetDropsNonDigitTokens | bot.py:24 | "12,-5,12a,,7" gives {12, 7}: "-5", "12a" and the empty token are dropped |
| Config.ToSetOfRendered | bot.py:22-24 | IDs written out comma-separated parse back to their set |
| Config.ParseFlag | bot.py:19 | a flag is on exactly when the value is the four letters of "true", each in either case |
| Config.FlagExamples | bot.py:19 | "true", "TRUE" and "True" turn a flag on; "1", "yes", " true" and "" leave it off |
| Config.ParseOptionalId | bot.py:30 | the optional ID is present exactly when the value is a non-empty digit string (no limit on its length, see "Left out") |
| Config.OptionalIdRoundTrip | bot.py:30 | a decimal ID reads back as itself |
| Config.ParseInt | bot.py:34 | `int()` succeeds exactly when the value, with the whitespace `int()` skips removed from both ends, is an optional sign followed by digits (no limit on the number of digits, see "Left out") |
| Config.ParseIntRoundTrip | bot.py:34 | `int()` reads back any `str(i)`, also with whitespace that `int()` skips around it |
| Config.ParseIntKeepsSeparators | bot.py:34 | "\x1c30" strips to "30" but is not an integer for `int()` |
| Config.Load | bot.py:15-35 | start-up fails on a timeout that is not an integer, then on a missing token (checked when run as a program, bot.py:273-274), and in no other case (up to the digit limits under "Left out") |
| Config.LoadDefaults | bot.py:16-35 | with only the token set, every setting takes its default: blocking on, no exemptions, no log channel, DM on, 30 minutes, no guild |
| Links.PrefixAt | bot.py:45 | a case-insensitive match of a pattern piece lies inside the content and its first character folds to the piece's first |
| Links.LinkAt | bot.py:45 | a match at an index leaves room for at least five characters and starts with `h` or `w` in either case |
| Links.HasLink | bot.py:45 | content with a link is at least five characters long |
| Links.Search | bot.py:122 | a match exists exactly when the content holds a link, and the match returned is the leftmost one |
| Links.SearchFrom | bot.py:122 | the scan from an index returns the first index at or after it where the pattern matches |
| Links.SchemeThenNonSpaceIsLink | bot.py:45 | `http://`, `https://` or `www.` followed by a non-whitespace character is a link anywhere in the content |
| Links.LinkInContext | bot.py:122 | text around a link never hides it |
| Links.LinkShape | bot.py:45 | a match starts with `w` and has `.` at offset 3, or starts with `h` and has `:` at offset 4 or 5, and a non-whitespace character follows the scheme |
| Links.NoLinkWithoutColonOrDot | bot.py:45 | content without `:` and `.` holds no link |
| Links.BareSchemeIsNotALink | bot.py:45 | a bare `https://` or `http://`, or one followed by a space, is not a link |
| Links.LinkIgnoresCase | bot.py:45 | the content and its lower-case form match at the same indices |
| AllowList.IsAllowed | bot.py:68-78 | exempt exactly when the channel is allowed, or the author is a member holding an allowed role; a non-member is never exempted by role |
| AllowList.RoleIds | bot.py:75 | the role-ID set holds exactly the author's roles |
| AllowList.AllowedMonotone | bot.py:68-78 | growing the allow-lists never removes an exemption |
| AllowList.ToId | bot.py:200-201 | `to_id` gives an ID exactly when the argument is given and is a digit string (no limit on its length, see "Left out") |
| AllowList.ToIdRoundTrip | bot.py:200-201 | a decimal ID reads back as itself |
| AllowList.EditSet | bot.py:204-211 | after the edit, an ID is in the set exactly when it was there or added (non-zero), and it was not removed (non-zero) |
| AllowList.AddThenRemove | bot.py:204-206 | adding then removing an ID leaves it absent, and restores a set that did not hold it |
| AllowList.AddAndRemoveSameId | bot.py:204-206 | the same ID given to `add` and `remove` ends up absent, because the addition comes first |
| AllowList.ParseKind | bot.py:198-215 | the kind is channels exactly when the lower-cased, stripped argument is "channel", roles exactly when it is "role", otherwise unknown |
| AllowList.ParseKindPadded | bot.py:198-208 | the kind is read ignoring letter case and surrounding whitespace |
| Pipeline.Excerpt | bot.py:150 | `content[:350]` is a prefix of the content, of length 350 or the whole content |
| Pipeline.Blocks | bot.py:122-123 | a message is blocked exactly when blocking is on, the content holds a link, the channel is not allowed, and the author is not a member with an allowed role |
| Pipeline.Reaction | bot.py:116-160 | a message causes nothing exactly when its author is a bot; otherwise the first step is dispatch or the delete attempt |
| Pipeline.Moderation | bot.py:124-157 | a blocked message is first deleted, and the run ends in dispatch exactly when the delete or the warning failed |
| Pipeline.IgnoresBots | bot.py:118-119 | a bot's message causes nothing, not even dispatch |
| Pipeline.PassesThrough | bot.py:122-123 | with blocking off, no link or an exemption, the only effect is dispatch |
| Pipeline.AllowedChannelNeverBlocked | bot.py:71-72 | a message in an allowed channel is only dispatched |
| Pipeline.AllowedRoleNeverBlocked | bot.py:74-77 | a message by a member with an allowed role is only dispatched |
| Pipeline.DispatchedIff | bot.py:122-160 | dispatch happens exactly when the author is human and the message is not blocked or its delete or warning raised, and it is then the last step |
| Pipeline.CompletedRunShape | bot.py:124-153 | a completed run is delete, warning, DM steps, timeout steps, then the summary |
| Pipeline.CompletedRunOrder | bot.py:126-151 | a completed run starts with the delete and the 5-second warning, and every kind of step comes at most once, in pipeline order |
| Pipeline.CompletedRunSteps | bot.py:135-141 | in a completed run the DM is attempted exactly when DMs are on, and the timeout exactly when the minutes are positive |
| Pipeline.CompletedRunLogs | bot.py:138-151 | a completed run logs the timeout's failure line (`Forbidden` told apart), then the summary, or nothing when the sink is closed |
| Pipeline.TimeoutLogs | bot.py:138-145 | step 4 logs nothing when the timeout succeeds, is skipped or the sink is closed, else one failure line with `Forbidden` told apart |
| Pipeline.SummaryQuotesContent | bot.py:148-151 | the summary quotes the first 350 characters of the content, or all of a shorter one |
| Pipeline.FailedDeleteOrWarn | bot.py:124-160 | after a failed delete or warning there is no DM and no timeout, one failure line (`Forbidden` told apart), and dispatch last; a warning is attempted exactly when the delete succeeded |
| Pipeline.DmFailureSwallowed | bot.py:105-107 | a failing DM changes nothing else in the run |
| Pipeline.ClosedSinkLogsNothing | bot.py:80-83 | nothing is logged while the log channel is unset, 0 or not found |
| Guardian.ModBot.constructor | bot.py:47-50 | the bot starts from the loaded settings |
| Guardian.ModBot.Log | bot.py:80-87 | one send exactly when a non-zero log channel is set and found, otherwise nothing; it never fails |
| Guardian.ModBot.DmBilingual | bot.py:89-107 | one DM attempt when DMs are on, whatever its outcome, and nothing otherwise |
| Guardian.ModBot.OnMessage | bot.py:116-160 | the handler's effects are exactly `Reaction` of the current settings, the message and the outcomes |
| Guardian.ModBot.Moderate | bot.py:124-160 | the try block and its except clauses produce exactly `Moderation` |
| Guardian.ModBot.AutoTimeout | bot.py:138-145 | step 4 produces exactly `TimeoutEffects`: the attempt when minutes are positive, then its failure line |
| Guardian.ModBot.ToggleBlocking | bot.py:183-189 | without Manage Server, a denial and no change; with it, the flag becomes `on`, then the reply and the log line; the allow-lists are untouched |
| Guardian.ModBot.Allow | bot.py:193-218 | without Manage Server, or with an unknown kind, a single reply and no change; otherwise only the chosen set is edited by `EditSet`, then the log line and the reply show the new set |
| Guardian.ModBot.Update | bot.py:203-218 | one branch of `allow`: only the chosen set is edited, then the log line and the reply |
| Guardian.ModBot.EditChannels | bot.py:204-206 | the channel set becomes `EditSet` of its old value |
| Guardian.ModBot.EditRoles | bot.py:209-211 | the role set becomes `EditSet` of its old value |
| Guardian.ModBot.Mute | bot.py:222-237 | without Moderate Members, a denial and no timeout; otherwise one timeout attempt, then the confirmation and the log line on success, a specific denial on `Forbidden`, the error reply on other errors, and no log line on failure |

## Left out

- The Discord client and its plumbing are not modelled: intents, `setup_hook` and command sync, `on_ready`, the `ping`, `status`, `help` and `sync` commands, and command-tree registration (bot.py:40-65, 110-113, 165-179, 239-267). None of them makes a decision about messages or the allow-lists.
- Network effects are not modelled as behaviour. The delete, the channel warning, the DM and the timeout each have an abstract `Outcome` in `World`. `bot.get_channel` is the boolean `logChannelFound`. The log send has no outcome: its failure is swallowed and not recorded.
- `async`/`await` interleaving is left out. Each handler runs as one sequential method.
- Wall-clock time and the `timedelta` arithmetic are left out; only the minutes value is kept. If the library has no `discord.timedelta`, every timeout raises, which is the `OtherError` outcome.
- Message wording, mentions and the DM text are left out; log lines and replies keep only the facts they carry. The channel name that `dm_bilingual` reads before sending is therefore not modelled either.
- Environment loading (`load_dotenv`, `os.getenv`) is a map from variable names to values.
- Digits are ASCII only. Python's `isdigit` and `int` also accept other Unicode decimal digits, and `isdigit` also accepts characters such as '²' that `int` rejects.
- Config.Load: the "in no other case" of its failures holds only under ASCII digits and values of at most 4300 digits. A value such as "²" in ALLOWED_CHANNEL_IDS, ALLOWED_ROLE_IDS, LOG_CHANNEL_ID or GUILD_ID passes `isdigit` and then makes `int` raise, so the import fails (bot.py:24, 30, 35); the model reads such a token as not a digit string and drops it. Likewise a digit string of more than 4300 digits in any of these variables or in AUTO_TIMEOUT_MINUTES makes `int` raise under CPython's default integer-string limit (`sys.set_int_max_str_digits`, since 3.11 and the 3.7.14-3.10.7 security releases), so the import fails (bot.py:24, 30, 34, 35), while `Load` succeeds.
- AllowList.ToId: for an argument such as "²", or a digit string of more than 4300 digits, `to_id` passes `isdigit` and `int` raises (bot.py:201), so `allow` ends with neither a set edit, a log line nor a reply; the model gives no ID for "²" and the parsed ID for the long string, and goes on with the edit.
- Config.ParseInt: the underscore separators that `int()` accepts ("1_000") are rejected, as are non-ASCII digits. The whitespace it skips is modelled exactly (`IntSpace`). CPython's limit of 4300 digits on `int()` of a string is not modelled: the model parses any number of digits, where `int()` raises.
- Config.ToSet: a token of more than 4300 digits passes `isdigit` and makes `int` raise at import (bot.py:24); the model parses it into the set.
- Config.ParseOptionalId: a value of more than 4300 digits passes `isdigit` and makes `int` raise at import (bot.py:30, 35); the model gives the ID.
- Text.LowerChar: only A-Z are lower-cased. No other character's lower-case form equals a letter of "true", "channel" or "role", so the comparisons the bot makes are unaffected. The one case-insensitive regex equivalence outside ASCII, U+017F matching `s`, is modelled in `Links.FoldsTo`.
- Guardian.ModBot.Log: a log send that raises is swallowed, so its outcome is not recorded in the effects.
- Replies to slash commands are assumed to be delivered; their failure is not modelled.
- `is_allowed` is modelled for messages only. Its fallback to an interaction's `user` is never used by the core.
