# Tutor-Bot bookkeeping in Dafny

Tutor-Bot is a Discord bot that gives every member of a tutoring server a
private channel and puts them in touch with a tutor when they react to the
help message posted there. The repository holds two versions of the bot.
This project models the state each version keeps in memory. Discord itself is
not modelled.

- `subjects.dfy` (module `Subjects`): the catalog of seven subjects. Each
  subject is one bit (`math` 0x1 … `comp sci` 0x40). A subscription mask
  stands for the set of subjects whose bits are set. Looking up a name that is
  not in the catalog raises `KeyError`. The proofs show that setting a bit
  adds exactly one subject, clearing a bit removes exactly one, and a mask is
  fully determined by its set of subjects.
- `tutor_bot.dfy` (module `TutorBot`): the later bot in `tutor_bot.py`.
  - `TutorUser` holds a mask, a help message id and a private channel id.
  - `TutorBot` holds `userList`, the ordered `tutorList` and
    `userTimeoutList`.
  - Each handler is first a function on a `BotState` value, and its
    properties are proved there. The classes update their fields in place and
    are proved to match those functions.
  - The asyncio tasks behind `userTimeoutList` are kept as a sequence of tasks
    (running, cancelled or finished). Each dictionary entry holds the index of
    a task in that sequence. This keeps two behaviours exactly as written:
    - a re-schedule overwrites the entry but leaves the old task running;
    - coming online cancels the task but leaves its entry in place.
  - A timeout firing is one step, taken once `now >= deadline`.
- `tutoring_bot.dfy` (module `TutoringBot`): the earlier bot in
  `tutoring-bot.py`. Its `userList` is keyed by `hash(member)`. That attribute
  only exists once `on_ready` has assigned it, so before then every handler
  that uses it raises `AttributeError`.
- `host.dfy`, `wrappers.dfy`: ids, presence states, the host effects
  (`ChannelCreated`, `ChannelDeleted`), the Python exceptions a handler can end
  with (`PyError`), and `Option`/`Result`/`Outcome`.

Inputs that come from the outside world are parameters. These are the clock
(integer ticks), the ids of newly created channels and messages, whether the
author of `!regtutor` is an admin, and whether Discord managed to delete a
channel.

Behaviours kept as the code has them:
- a reaction always names the first registered tutor;
- `set_user_timeout` replaces an existing entry without checking it;
- cancelling a timeout does not remove its entry.

## Model

| member | source | states |
|---|---|---|
| `Subjects.Lookup` | tutor_bot.py:24 | A name's flag is found exactly when the name is in the catalog. That flag is a single bit inside the seven catalog bits. Any other name raises KeyError. |
| `Subjects.CatalogFlagsDisjoint` | tutor_bot.py:12 | Every catalog value is a single bit below 0x80, and two different names never share a bit. |
| `Subjects.AddSubject` | tutor_bot.py:22-26 | Setting a subject's bit adds exactly that subject to the mask's set. Every other subject keeps its status. |
| `Subjects.RemoveSubject` | tutor_bot.py:28-32 | Clearing a subject's bit removes exactly that subject from the set. Every other subject keeps its status. |
| `Subjects.SubscribeIdempotent` | tutor_bot.py:22-26 | Subscribing twice gives the same mask as subscribing once. |
| `Subjects.UnsubscribeIdempotent` | tutor_bot.py:28-32 | Unsubscribing twice gives the same mask as unsubscribing once. |
| `Subjects.SubscribeThenUnsubscribe` | tutor_bot.py:22-32 | Subscribing to a subject the user did not have and then unsubscribing from it restores the original mask. The same holds for tutoring-bot.py:13-23. |
| `Subjects.SubjectsDetermineMask` | tutor_bot.py:34-36 | Two masks inside the catalog bits that give the same answers for every subject are equal, so a mask is a faithful encoding of a set of subjects. |
| `Subjects.EmptyMask` | tutor_bot.py:18 | The initial mask 0 stands for no subject. |
| `TutorBot.TutorUser.constructor` | tutor_bot.py:17-20 | A new user has no subject, no help message and no private channel. |
| `TutorBot.TutorUser.SubscribeTo` | tutor_bot.py:22-26 | On success the subject is added to the user's set and the mask equals the old mask OR the flag, so subscribing twice is the same as once. An unknown name raises KeyError and changes nothing. The user's other attributes are untouched. |
| `TutorBot.TutorUser.UnsubscribeTo` | tutor_bot.py:28-32 | On success the subject is removed from the set and the mask equals the old mask AND NOT the flag, so unsubscribing twice is the same as once. An unknown name raises KeyError and changes nothing. |
| `TutorBot.TutorUser.IsSubscribed` | tutor_bot.py:34-36 | The result is true exactly when the subject is in the user's set. An unknown name raises KeyError. |
| `TutorBot.InitialInv` | tutor_bot.py:40-45 | The empty state built by `__init__` satisfies the bot invariant. |
| `TutorBot.AppendAbsent` | tutor_bot.py:78-80 | The mention loop, one `AppendIfAbsent` step per mention, keeps the old tutor list as a prefix. The result holds exactly the old tutors plus the mentioned users. A list without duplicates stays without duplicates. |
| `TutorBot.IndexOf` | tutor_bot.py:79 | The position returned holds the user, and no earlier position does, so it is the user's first mention. |
| `TutorBot.AppendAbsentOrder` | tutor_bot.py:78-80 | Every user appended after the old list was mentioned and was not a tutor before. The appended users stand in the order of their first mention. |
| `TutorBot.AppendAbsentPresent` | tutor_bot.py:79 | If every mentioned user is already a tutor, the list is unchanged. |
| `TutorBot.AppendAbsentIdempotent` | tutor_bot.py:78-80 | Registering the same mentions twice gives the same list as registering them once. |
| `TutorBot.RegisterTutors` | tutor_bot.py:77-80 | A non-admin changes nothing. An admin's `!regtutor` only extends `tutorList`: existing order is kept and every mentioned user is added. The appended users were not tutors before and follow the order of their first mention. The first tutor stays the first tutor, and on an empty list the first mention becomes the first tutor. Nothing else in the state changes, and the invariant (no tutor listed twice) holds afterwards. |
| `TutorBot.CreateChannel` | tutor_bot.py:125-160 | Creating a private channel requests one channel and gives the member that channel id and help message id. The member's subscriptions and every other user are unchanged. |
| `TutorBot.MemberJoin` | tutor_bot.py:84-90 | A new member gets a fresh record and an existing record is kept. A channel is created exactly when the member has none. If the member already has a channel, nothing changes. Afterwards the member always has a channel. |
| `TutorBot.RawReaction` | tutor_bot.py:93-105 | The bot's own reactions are ignored, and so are reactions on any message other than the user's help message. Otherwise the reaction assigns `tutorList[0]`. An unknown user raises KeyError and an empty tutor list raises IndexError. |
| `TutorBot.ScheduleTimeout` | tutor_bot.py:172-182 | An unknown user raises KeyError and changes nothing. A user without a private channel gets no task. Otherwise a running task with deadline `now + timeoutDuration` is added and the user's entry now names it, replacing any earlier entry. Other entries are unchanged. |
| `TutorBot.Cancel` | tutor_bot.py:120 | Cancelling a running task leaves it cancelled. Cancelling a task that is not running changes nothing. |
| `TutorBot.CancelTimeout` | tutor_bot.py:118-120 | Coming online cancels the task named by the user's entry and keeps the entry itself. |
| `TutorBot.MemberUpdate` | tutor_bot.py:107-123 | With no status change nothing happens. Going offline schedules a timeout. Coming online cancels the user's task, keeps every entry and the tutor list, and leaves every other user unchanged. A known user keeps their subscriptions. If they had no private channel, exactly one channel is created and they get its id and the new help message id. If they had one, their record and the events are unchanged. An unknown user raises KeyError and no channel is requested. |
| `TutorBot.Expire` | tutor_bot.py:162-170 | The loop exit `Due` holds once the task is running and its deadline has passed. Before that, or once cancelled, a task does nothing. When due, the task finishes. If Discord deletes the channel, the user's `privateChannelId` becomes None and the user's entry is removed (KeyError, and only KeyError, if it is already gone). Other users and other entries are unchanged. |
| `TutorBot.JoinThenReact` | tutor_bot.py:84-105 | After a member without a channel joins, a reaction on the new help message assigns the first tutor (IndexError if there is none). A reaction on any other message is ignored. |
| `TutorBot.CancelledTaskNeverFires` | tutor_bot.py:115-120 | After coming online the entry still names the same task, and that task never fires at any later time. |
| `TutorBot.RescheduleOrphansRunningTask` | tutor_bot.py:182 | Scheduling while a task is running leaves that task running with no entry naming it, so it can no longer be cancelled. |
| `TutorBot.OrphanExpiryDropsNewerEntry` | tutor_bot.py:162-169 | When an orphaned task fires, it deletes the user's current entry even though that entry names a newer task that is still running. |
| `TutorBot.TutorBot.constructor` | tutor_bot.py:40-45 | Every collection starts empty and the timeout duration is stored. |
| `TutorBot.TutorBot.OnRegTutor` | tutor_bot.py:77-80 | The loop appends each mention that is absent, and the resulting state is `RegisterTutors` of the old state. |
| `TutorBot.TutorBot.CreatePrivateChannel` | tutor_bot.py:125-160 | Updates the member's object in place and leaves the state `CreateChannel` describes. |
| `TutorBot.TutorBot.OnMemberJoin` | tutor_bot.py:84-90 | Inserts a freshly allocated `TutorUser` object only for an absent id, keeps the object of every existing id, and leaves the state `MemberJoin` describes. |
| `TutorBot.TutorBot.OnRawReactionAdd` | tutor_bot.py:93-105 | Returns what `RawReaction` gives for the current state and changes nothing. |
| `TutorBot.TutorBot.SetUserTimeout` | tutor_bot.py:172-182 | Leaves the state and outcome that `ScheduleTimeout` describes. |
| `TutorBot.TutorBot.OnMemberUpdate` | tutor_bot.py:107-123 | Keeps the same `userList` objects and leaves the state and outcome that `MemberUpdate` describes. |
| `TutorBot.TutorBot.UserTimeout` | tutor_bot.py:162-170 | One step of the task's polling loop. It keeps the same `userList` objects, changes only the owner's record, and leaves the state and outcome that `Expire` describes. |
| `TutoringBot.TutorUser.constructor` | tutoring-bot.py:9-11 | A new user has no subject and no help message. |
| `TutoringBot.TutorUser.SubscribeTo` | tutoring-bot.py:13-17 | As in the later version: the subject is added, the mask is the old mask OR the flag, and an unknown name raises KeyError and changes nothing. |
| `TutoringBot.TutorUser.UnsubscribeTo` | tutoring-bot.py:19-23 | The subject is removed, the mask is the old mask AND NOT the flag, and an unknown name raises KeyError and changes nothing. |
| `TutoringBot.TutorUser.IsSubscribed` | tutoring-bot.py:25-27 | The result is true exactly when the subject is in the user's set. An unknown name raises KeyError. |
| `TutoringBot.Ready` | tutoring-bot.py:32-34 | `on_ready` (re)assigns an empty `userList`. |
| `TutoringBot.MemberJoin` | tutoring-bot.py:42-64 | Before `on_ready` this raises AttributeError. Otherwise the hash is inserted only if absent, and an existing record keeps its subscriptions. The help message id is always overwritten, one channel is always requested, and other users are unchanged. |
| `TutoringBot.Reaction` | tutoring-bot.py:67-70 | The bot answers only a reaction on the user's recorded help message. An unknown hash raises KeyError and a missing `userList` raises AttributeError. |
| `TutoringBot.ReadyForgetsUsers` | tutoring-bot.py:34 | After `on_ready` every user is unknown, so any reaction raises KeyError. |
| `TutoringBot.JoinThenReact` | tutoring-bot.py:63-69 | After a join, only a reaction on the message just sent is answered. A reaction on any earlier help message is ignored. |
| `TutoringBot.RejoinKeepsSubscriptions` | tutoring-bot.py:44-45 | A member who joins again keeps their record, except for the new help message id. Each join requests one channel. |
| `TutoringBot.TutoringBot.constructor` | tutoring-bot.py:75 | A new client has no `userList` attribute yet and has requested nothing. |
| `TutoringBot.TutoringBot.OnReady` | tutoring-bot.py:32-34 | Replaces `userList` with an empty dictionary and leaves the state `Ready` describes. |
| `TutoringBot.TutoringBot.OnMemberJoin` | tutoring-bot.py:42-64 | Inserts a freshly allocated object only for an absent hash, keeps the object of every existing hash, overwrites `helpMessageId` in place, and leaves the state and outcome `MemberJoin` describes. |
| `TutoringBot.TutoringBot.OnReactionAdd` | tutoring-bot.py:67-70 | Returns what `Reaction` gives for the current state and changes nothing. |

## Left out

- Discord API effects are not modelled as calls. A created channel is a `ChannelCreated` event and a deleted one a `ChannelDeleted` event. New channel and message ids arrive as parameters. Permission overwrites, pinning, role grants, sending messages, adding reactions and the text of the assignment message are left out.
- The `!prune`, `!ping` and `!fakejoin` branches of `on_message` in tutor_bot.py (lines 63-76, 81-82) are left out; only the `!regtutor` branch is modelled. The same goes for `on_message` in tutoring-bot.py (lines 36-40). The IndexError that `message.content.split()[0]` raises on an empty message is therefore not modelled either.
- `on_ready` of tutor_bot.py (lines 47-61) is not part of this model. The name `offline` it tests at line 57 is never defined, so for the first user it inserts the record at line 55 and then raises NameError before reaching `set_user_timeout`. A running task is orphaned when `set_user_timeout` runs twice for a user with no online update in between, as two offline updates do; `RescheduleOrphansRunningTask` states what happens then.
- The admin check (`discord.utils.get` on the roles) is the boolean `authorIsAdmin`. Tutors and members are identified by their ids; `hash(member)` is an integer supplied by the host.
- The asyncio polling loop of `user_timeout` (sleeping 5 seconds at a time) is one step guarded by `now >= deadline`. The float clock of `self.loop.time()` is an integer tick. A cancellation that arrives while the task is inside `channel.delete()` is not modelled, because the firing step is atomic.
- A failure of Discord inside a timeout task is the parameter `deleteOk` and ends the task with `HostError` before any state changes. This covers deleting a channel that is already gone and `get_channel` returning None. Failures inside `create_private_channel` and `create_text_channel` are not modelled; the role error there is caught by the source anyway.
- Each handler runs as one atomic step. The interleavings that asyncio allows at `await` points are not modelled:
  - `create_private_channel` awaits at tutor_bot.py:134-141 before it sets `privateChannelId` at line 145. A join and an online update that overlap can therefore both create a channel.
  - A reaction can arrive between lines 145 and 160 of tutor_bot.py, while `helpMessageId` still names the old message.
  - If `on_ready` of tutoring-bot.py runs again while `on_member_join` is suspended (lines 54-63), line 64 raises KeyError.
- The early return for messages the bot itself sent (tutor_bot.py:65-66) is not modelled in front of `!regtutor`; `RegisterTutors` assumes a message from another author.
- The subscription mask is a `bv8` instead of a Python int. Every mask the code can build uses only the seven catalog bits, so no value is lost.
- Logging, `print`, message formatting and `subjectEmojis` are left out. So is reading `token.txt` and `client.run` (tutoring-bot.py lines 72-76).
