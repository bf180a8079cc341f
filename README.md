# Game-coordination session of the Discord game bot

The bot keeps one in-memory record, `game_state` (bot.py:11-21), and six
slash-command handlers of the `Game` cog change it: `start_game`, `opt_in`,
`opt_out`, `finish_optin`, `set_game_id` and `cancel_game`. A session is
either idle or active (`active`); up to `MAX_PLAYERS = 5` users may opt in;
the user who started the session (`initiator_id`) is the only one who may run
the three privileged commands. Finalizing with `set_game_id` names a private
channel `gm<last two characters of the game id>-<continent>-<codename>`
(continent and codename lowercased), lets exactly the opted-in users see it,
and ends the session.

This project models that record and its handlers in Dafny:

- `wrappers.dfy` — module `Wrappers`: the `Option` type used for the record's
  fields that may be `None`.
- `naming.dfy` — module `Naming`: the pure parts of finalizing: `Last2` (the
  slice `s[-2:]`), `Lower` (ASCII case folding), `ChannelName` (the slug), and
  `Overwrites` / `GrantedAccess` (the permission overwrites of the new channel
  and the users they let in).
- `session.dfy` — module `Session`: the record as a value (`State`), one
  function per handler (`OnStartGame`, `OnOptIn`, ...) returning a result code
  (`Ok`, `AlreadyActive`, `NotActive`, `AlreadyOptedIn`, `Full`,
  `NotAuthorized`), the new record and the channel to create; `Step`, `Final`
  and `Codes` run commands one after another, each to completion; and the
  lemmas about runs of commands.
- `bot.dfy` — module `Bot`: class `GameState`, whose fields are the record's
  fields and whose methods are the six handlers, written as guard cascades
  followed by in-place field updates (`modifies this`). Each method's contract
  says that its result code and the new record are those of the handler
  function in `Session`, and that the capacity invariant `Valid()` is kept.

`start_game` rejects a start while a session is active (bot.py:34-36), so an
active session is never reset. `finish_optin`, `set_game_id` and
`cancel_game` check only the caller against `initiator_id` and never look at
`active` (bot.py:90, 99, 129): a former initiator may still finalize or cancel
after the session has ended, and `OnSetGameId` models exactly that. Before the
first start `initiator_id` is `None`, and no user equals it, so every
privileged command is refused until someone starts a session.

The inputs of every handler — the caller's id, the channel id, the three
strings of `set_game_id` — are parameters. What the handlers send back to the
chat (reply texts, the channel creation, the summary post) is replaced by the
result code and by a `ChannelPlan`: the name, the permission overwrites and the
set of users the summary mentions.

## Model

| member | source | states |
|---|---|---|
| `Session.Initial` | bot.py:11-21 | the record at load: inactive, no initiator, no channel, empty opted-in and opted-out sets, every string field None |
| `Session.OnStartGame` | bot.py:33-48 | refused with AlreadyActive and no change while a session is active; otherwise Ok, active, the caller as initiator, the origin channel recorded, both sets empty, confirmed time, game id, continent and codename reset to None |
| `Session.OnOptIn` | bot.py:58-72 | the code is NotActive iff inactive, else AlreadyOptedIn iff the caller is in, else Full iff five are in, else Ok; every refusal leaves the record unchanged; success adds exactly the caller, changes nothing else and keeps the count at most five |
| `Session.OnOptOut` | bot.py:76-85 | NotActive and no change when inactive; otherwise Ok, the caller is out of opted-in and in opted-out, all other members of both sets and all other fields are unchanged, and opted-in is untouched when the caller was absent |
| `Session.OnFinishOptIn` | bot.py:89-94 | never changes the record; Ok exactly when the caller is the initiator, NotAuthorized otherwise |
| `Session.OnSetGameId` | bot.py:98-125 | a non-initiator is refused with no change and no channel; the initiator gets Ok, the three strings stored exactly, the session inactive, every other field unchanged, and a channel named by `ChannelName` whose overwrites admit exactly the opted-in users and whose summary mentions them |
| `Session.OnCancelGame` | bot.py:128-133 | a non-initiator is refused with no change; the initiator gets Ok and only `active` changes, to false |
| `Session.Step` | bot.py:32-134 | every command keeps the opted-in set within capacity; while a session stays active its initiator and channel do not change; a channel is planned exactly by a successful finalization; a privileged command that changes the record was run by the initiator |
| `Session.CapacityAlwaysHolds` | bot.py:68-72 | any sequence of commands from a record within capacity ends within capacity |
| `Session.ReachableWithinCapacity` | bot.py:11-23 | every record reachable from the initial one has at most `MAX_PLAYERS` opted in |
| `Session.InactiveUntilStart` | bot.py:58-79 | from an inactive record, any commands other than a start keep it inactive, leave both sets unchanged and refuse every opt-in and opt-out with NotActive |
| `Session.CancelThenRefused` | bot.py:128-133 | after the initiator's cancel, every opt-in and opt-out is refused with NotActive until the next start |
| `Session.FinalizeThenRefused` | bot.py:125 | after the initiator's finalization, every opt-in and opt-out is refused with NotActive until the next start |
| `Session.DistinctOptInsCodes` | bot.py:64-72 | distinct newcomers opting in to an active session are accepted until five are in, and every later one is refused with Full |
| `Session.DistinctOptInsFinal` | bot.py:64-72 | the same run adds exactly the accepted newcomers, the first ones up to capacity, grows the count by their number, and changes no other field |
| `Session.SixthDistinctOptInIsFull` | bot.py:68-70 | after a start, six distinct opt-ins give Ok five times then Full, with five users in |
| `Session.FinalizeScenario` | bot.py:103-114 | start by u1, opt-ins by u2 and u3, then finalizing "2053", "Europe", "Eagle" gives channel "gm53-europe-eagle" visible to exactly {u2, u3} and ends the session |
| `Session.CancelScenario` | bot.py:129-133 | after a start by u1, a cancel by another user is refused with no change and u1's cancel ends the session |
| `Session.PrivilegedRefusedBeforeFirstStart` | bot.py:88-133 | before any start, finish, finalize and cancel are refused with NotAuthorized and leave the initial record as it was |
| `Naming.LowerChar` | bot.py:112 | upper-case ASCII letters are folded to lower case, every other character is kept, and the result is never upper case |
| `Naming.Lower` | bot.py:112 | the lowercased string has the same length, contains no upper-case ASCII letter, keeps every other character in place and folds each upper-case letter to its lower-case one |
| `Naming.LowerIdempotent` | bot.py:112 | lowering twice equals lowering once |
| `Naming.Last2` | bot.py:112 | `s[-2:]` is a suffix of `s` of length two, or all of `s` when it is shorter |
| `Naming.ChannelName` | bot.py:112 | the name is "gm", then the last two characters of the game id, "-", the lowercased continent, "-", the lowercased codename, each at its position, and nothing more |
| `Naming.ChannelNameIgnoresCase` | bot.py:112 | only the lowercased continent and codename matter to the name |
| `Naming.ChannelNameDeterminedByLast2` | bot.py:112 | with the other parts fixed, two game ids give the same name exactly when their last two characters agree |
| `Naming.ChannelNameExample` | bot.py:97 | the parameter examples "2053", "Europe", "Eagle" give "gm53-europe-eagle" |
| `Naming.Overwrites` | bot.py:108-111 | the overwrites have keys the default role and one member per opted-in user; the default role may not read; each opted-in user may read and send; the users granted access are exactly the opted-in set |
| `Bot.GameState.constructor` | bot.py:11-21 | a fresh object holds the initial record and is within capacity |
| `Bot.GameState.StartGame` | bot.py:33-48 | code and new fields are those of `OnStartGame` on the old fields; capacity kept |
| `Bot.GameState.OptIn` | bot.py:58-73 | code and new fields are those of `OnOptIn` on the old fields; capacity kept |
| `Bot.GameState.OptOut` | bot.py:76-86 | code and new fields are those of `OnOptOut` on the old fields; capacity kept |
| `Bot.GameState.FinishOptIn` | bot.py:89-94 | changes no field; Ok exactly when the caller is the initiator |
| `Bot.GameState.SetGameId` | bot.py:98-125 | code, new fields and planned channel are those of `OnSetGameId` on the old fields; capacity kept |
| `Bot.GameState.CancelGame` | bot.py:128-134 | code and new fields are those of `OnCancelGame` on the old fields; capacity kept |
| `Bot.FinalizeWalkthrough` | bot.py:103-125 | a client calling the handler methods in the finalize scenario sees Ok four times, the channel "gm53-europe-eagle" for exactly {u2, u3}, and NotActive for a later opt-in |

## Left out

- The chat-platform calls (`send_message`, `create_text_channel`, `get_member`, the category lookup, `get_channel`, `send` to the coordination channel) and the bot start-up (`setup`, `on_ready`, `tree.sync`, `bot.run`): foreign code with no visible behaviour; the model returns a result code and a `ChannelPlan` instead.
- The wording of the replies, user mentions and `allowed_mentions`: presentation only; result codes stand for them.
- Asynchronous execution and interleaving of handlers: every command is modelled as running to completion before the next one starts.
- A failure during finalization, after the game id, continent and codename are already stored and while `active` is still true: `interaction.guild` being None when the command runs outside a server (bot.py:107-109), an exception from `create_text_channel` (bot.py:114), or `guild.get_channel(TEST_CHANNEL_ID)` returning None before the summary post (bot.py:118-120). Each depends on the chat library, which is not part of this model.
- `Naming.Lower`: covers ASCII case folding only, not the full Unicode case mapping of Python's `str.lower()`.
- `Naming.Overwrites`: keys each opted-in user as a member by id; `guild.get_member` returning None for a user it cannot resolve is not modelled.
- The constants `TEST_CHANNEL_ID`, the category id and the time-slot labels `CET_TIME` and `EST_TIME`: configuration with no logic.
- `confirmed_time` is kept as a field and reset by a start, but no handler ever sets it.
