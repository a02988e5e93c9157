/**
 * The in-memory bookkeeping of tutor_bot.py: the TutorUser record with its
 * subject mask, and the three collections TutorBot keeps (userList,
 * tutorList, userTimeoutList) together with the timeout tasks the event loop
 * runs. Discord calls are reduced to events and to ids supplied by the host;
 * the clock is an integer tick.
 *
 * The first half states every handler as a function on a BotState value and
 * proves what each one promises; the classes below update their fields in
 * place, as the source does, and are proved to follow those functions.
 */
module TutorBot {
  import opened Wrappers
  import opened Host
  import opened Subjects

  // ---------------------------------------------------------------------------
  // Specification on values
  // ---------------------------------------------------------------------------

  /** The three attributes of a TutorUser. */
  datatype UserRecord = UserRecord(
    subscribed: Mask,
    helpMessageId: Option<MessageId>,
    privateChannelId: Option<ChannelId>)

  /** A freshly constructed TutorUser. */
  const FreshUser := UserRecord(0, None, None)

  /** The life of an asyncio task running `user_timeout`. */
  datatype TaskState = Running | Cancelled | Finished

  /** A task created by `set_user_timeout`: whose channel it deletes, and when. */
  datatype TimeoutTask = TimeoutTask(user: UserId, deadline: int, channel: ChannelId, state: TaskState)

  /**
   * Everything TutorBot keeps: userList, userTimeoutList (each value a handle
   * into `tasks`), tutorList, every timeout task created so far, and the host
   * effects requested so far.
   */
  datatype BotState = BotState(
    users: map<UserId, UserRecord>,
    timeouts: map<UserId, nat>,
    tutors: seq<UserId>,
    tasks: seq<TimeoutTask>,
    events: seq<Event>)

  /** A handler run: the state it leaves and whether it returned or raised. */
  datatype Step = Step(state: BotState, outcome: Outcome<PyError>)

  /** How a reaction is answered: not at all, or by assigning a tutor. */
  datatype Reaction = Ignored | Assign(tutor: UserId)

  /** The state `__init__` creates. */
  const Initial := BotState(map[], map[], [], [], [])

  ghost predicate NoDuplicates(s: seq<UserId>) {
    forall i, j | 0 <= i < j < |s| :: s[i] != s[j]
  }

  /**
   * What every handler keeps: masks within the catalog, no tutor twice, every
   * task belonging to a known user, and every dictionary entry a handle to a
   * task of that same user.
   */
  ghost predicate Inv(s: BotState) {
    && (forall u | u in s.users :: InRange(s.users[u].subscribed))
    && NoDuplicates(s.tutors)
    && (forall k | 0 <= k < |s.tasks| :: s.tasks[k].user in s.users)
    && (forall u | u in s.timeouts :: s.timeouts[u] < |s.tasks| && s.tasks[s.timeouts[u]].user == u)
  }

  lemma InitialInv()
    ensures Inv(Initial)
  {
  }

  /** The position of the first occurrence of `x` in `s`. */
  function IndexOf(s: seq<UserId>, x: UserId): (i: nat)
    requires x in s
    ensures i < |s| && s[i] == x && x !in s[..i]
  {
    if s[0] == x then 0 else 1 + IndexOf(s[1..], x)
  }

  /** One iteration of the `!regtutor` loop: append `x` unless it is already listed. */
  function AppendIfAbsent(tutors: seq<UserId>, x: UserId): seq<UserId> {
    if x in tutors then tutors else tutors + [x]
  }

  /**
   * The `!regtutor` loop: each mentioned user is appended unless already
   * listed. The old list stays a prefix, the result holds exactly the old
   * tutors and the mentioned ones, and no entry is duplicated.
   */
  function AppendAbsent(tutors: seq<UserId>, mentions: seq<UserId>): (r: seq<UserId>)
    ensures |tutors| <= |r| && r[..|tutors|] == tutors
    ensures forall x :: x in r <==> x in tutors || x in mentions
    ensures NoDuplicates(tutors) ==> NoDuplicates(r)
    decreases |mentions|
  {
    if mentions == [] then tutors
    else
      var r := AppendAbsent(AppendIfAbsent(tutors, mentions[0]), mentions[1..]);
      assert r[..|tutors|] == r[..|AppendIfAbsent(tutors, mentions[0])|][..|tutors|];
      r
  }

  /** A list that already holds every mentioned user is left as it is. */
  lemma {:induction false} AppendAbsentPresent(tutors: seq<UserId>, mentions: seq<UserId>)
    requires forall x | x in mentions :: x in tutors
    ensures AppendAbsent(tutors, mentions) == tutors
    decreases |mentions|
  {
    if mentions != [] {
      assert mentions[0] in mentions;
      forall x | x in mentions[1..]
        ensures x in tutors
      {
        assert x in mentions;
      }
      assert AppendIfAbsent(tutors, mentions[0]) == tutors;
      AppendAbsentPresent(tutors, mentions[1..]);
    }
  }

  /**
   * The users the loop appends are mentioned users that were not tutors yet,
   * and they stand in the order of their first mention.
   */
  lemma {:induction false} AppendAbsentOrder(tutors: seq<UserId>, mentions: seq<UserId>)
    ensures forall i | |tutors| <= i < |AppendAbsent(tutors, mentions)| ::
      AppendAbsent(tutors, mentions)[i] in mentions && AppendAbsent(tutors, mentions)[i] !in tutors
    ensures forall i, j | |tutors| <= i < j < |AppendAbsent(tutors, mentions)| ::
      IndexOf(mentions, AppendAbsent(tutors, mentions)[i]) < IndexOf(mentions, AppendAbsent(tutors, mentions)[j])
    decreases |mentions|
  {
    if mentions != [] {
      var m := mentions[0];
      var next := AppendIfAbsent(tutors, m);
      var r := AppendAbsent(tutors, mentions);
      assert r == AppendAbsent(next, mentions[1..]);
      AppendAbsentOrder(next, mentions[1..]);
      assert m in next;
      forall i | |next| <= i < |r|
        ensures r[i] != m && r[i] in mentions && r[i] !in tutors
        ensures IndexOf(mentions, r[i]) == 1 + IndexOf(mentions[1..], r[i])
      {
        assert r[i] in mentions[1..] && r[i] !in next;
      }
      forall i | |tutors| <= i < |next|
        ensures r[i] == m && m !in tutors && IndexOf(mentions, r[i]) == 0
      {
        assert r[..|next|][i] == next[i];
      }
    }
  }

  /** Registering the same mentions twice leaves the list as registering them once. */
  lemma AppendAbsentIdempotent(tutors: seq<UserId>, mentions: seq<UserId>)
    ensures AppendAbsent(AppendAbsent(tutors, mentions), mentions) == AppendAbsent(tutors, mentions)
  {
    AppendAbsentPresent(AppendAbsent(tutors, mentions), mentions);
  }

  /** `!regtutor` from an admin: tutors are appended if absent; from anyone else nothing happens. */
  function RegisterTutors(s: BotState, authorIsAdmin: bool, mentions: seq<UserId>): (r: BotState)
    ensures !authorIsAdmin ==> r == s
    ensures r == s.(tutors := r.tutors)
    ensures |s.tutors| <= |r.tutors| && r.tutors[..|s.tutors|] == s.tutors
    ensures forall x :: x in r.tutors <==> x in s.tutors || (authorIsAdmin && x in mentions)
    ensures forall i | |s.tutors| <= i < |r.tutors| :: r.tutors[i] in mentions && r.tutors[i] !in s.tutors
    ensures forall i, j | |s.tutors| <= i < j < |r.tutors| ::
      IndexOf(mentions, r.tutors[i]) < IndexOf(mentions, r.tutors[j])
    ensures s.tutors != [] ==> r.tutors != [] && r.tutors[0] == s.tutors[0]
    ensures authorIsAdmin && s.tutors == [] && mentions != [] ==> r.tutors != [] && r.tutors[0] == mentions[0]
    ensures Inv(s) ==> Inv(r)
  {
    AppendAbsentOrder(s.tutors, mentions);
    if authorIsAdmin then s.(tutors := AppendAbsent(s.tutors, mentions)) else s
  }

  /**
   * `create_private_channel`: a new channel is requested for the member, and
   * the member's record takes the new channel and help message ids.
   */
  function CreateChannel(s: BotState, member: UserId, channel: ChannelId, helpMessage: MessageId): (r: BotState)
    requires member in s.users
    ensures r.users.Keys == s.users.Keys
    ensures r.users[member].subscribed == s.users[member].subscribed
    ensures r.users[member].privateChannelId == Some(channel)
    ensures r.users[member].helpMessageId == Some(helpMessage)
    ensures forall u | u in s.users && u != member :: r.users[u] == s.users[u]
    ensures r.events == s.events + [ChannelCreated(member, channel)]
    ensures r.timeouts == s.timeouts && r.tutors == s.tutors && r.tasks == s.tasks
    ensures Inv(s) ==> Inv(r)
  {
    var user := s.users[member].(privateChannelId := Some(channel), helpMessageId := Some(helpMessage));
    s.(users := s.users[member := user], events := s.events + [ChannelCreated(member, channel)])
  }

  /**
   * `on_member_join`: an unknown member gets a fresh record, a known one keeps
   * theirs; a channel is created exactly when the member has none.
   */
  function MemberJoin(s: BotState, member: UserId, channel: ChannelId, helpMessage: MessageId): (r: BotState)
    ensures r.users.Keys == s.users.Keys + {member}
    ensures r.users[member].subscribed == if member in s.users then s.users[member].subscribed else 0
    ensures r.users[member].privateChannelId.Some?
    ensures forall u | u in s.users && u != member :: r.users[u] == s.users[u]
    ensures member in s.users && s.users[member].privateChannelId.Some? ==> r == s
    ensures !(member in s.users && s.users[member].privateChannelId.Some?) ==>
      && r.events == s.events + [ChannelCreated(member, channel)]
      && r.users[member].privateChannelId == Some(channel)
      && r.users[member].helpMessageId == Some(helpMessage)
    ensures r.timeouts == s.timeouts && r.tutors == s.tutors && r.tasks == s.tasks
    ensures Inv(s) ==> Inv(r)
  {
    var s1 := if member in s.users then s else s.(users := s.users[member := FreshUser]);
    if s1.users[member].privateChannelId.None? then CreateChannel(s1, member, channel, helpMessage) else s1
  }

  /**
   * `on_raw_reaction_add`: the bot's own reactions and reactions on anything
   * but the user's help message are ignored; otherwise the first registered
   * tutor is assigned. An unknown user raises KeyError, an empty tutor list
   * IndexError.
   */
  function RawReaction(s: BotState, botId: UserId, user: UserId, message: MessageId): (r: Result<Reaction, PyError>)
    ensures r == Success(Ignored) <==>
      user == botId || (user in s.users && s.users[user].helpMessageId != Some(message))
    ensures r == Failure(KeyError) <==> user != botId && user !in s.users
    ensures r == Failure(IndexError) <==>
      user != botId && user in s.users && s.users[user].helpMessageId == Some(message) && s.tutors == []
    ensures r.Success? && r.value.Assign? ==> s.tutors != [] && r.value.tutor == s.tutors[0]
    ensures r.Success? || r == Failure(KeyError) || r == Failure(IndexError)
  {
    if user == botId then Success(Ignored)
    else if user !in s.users then Failure(KeyError)
    else if s.users[user].helpMessageId != Some(message) then Success(Ignored)
    else if s.tutors == [] then Failure(IndexError)
    else Success(Assign(s.tutors[0]))
  }

  /**
   * `set_user_timeout`: an unknown user raises KeyError; a user without a
   * private channel gets no task; otherwise a new running task with deadline
   * `now + duration` is created and the user's dictionary entry is set to it,
   * replacing any earlier entry.
   */
  function ScheduleTimeout(s: BotState, duration: int, user: UserId, now: int): (r: Step)
    ensures r.outcome.Fail? <==> user !in s.users
    ensures r.outcome.Fail? ==> r.outcome.error == KeyError && r.state == s
    ensures user in s.users && s.users[user].privateChannelId.None? ==> r.state == s
    ensures user in s.users && s.users[user].privateChannelId.Some? ==>
      && r.state == s.(tasks := r.state.tasks, timeouts := r.state.timeouts)
      && r.state.tasks == s.tasks + [TimeoutTask(user, now + duration, s.users[user].privateChannelId.value, Running)]
      && r.state.timeouts.Keys == s.timeouts.Keys + {user}
      && r.state.timeouts[user] == |s.tasks|
      && (forall v | v in s.timeouts && v != user :: r.state.timeouts[v] == s.timeouts[v])
    ensures Inv(s) ==> Inv(r.state)
  {
    if user !in s.users then Step(s, Fail(KeyError))
    else match s.users[user].privateChannelId
      case None => Step(s, Pass)
      case Some(channel) =>
        var task := TimeoutTask(user, now + duration, channel, Running);
        Step(s.(tasks := s.tasks + [task], timeouts := s.timeouts[user := |s.tasks|]), Pass)
  }

  /** `task.cancel()`: a running task becomes cancelled; a finished or cancelled one stays as it is. */
  function Cancel(t: TimeoutTask): (r: TimeoutTask)
    ensures r.user == t.user && r.deadline == t.deadline && r.channel == t.channel
    ensures r.state != Running
    ensures t.state == Running ==> r.state == Cancelled
    ensures t.state != Running ==> r == t
  {
    if t.state == Running then t.(state := Cancelled) else t
  }

  /** The cancellation in `on_member_update`: the user's task is cancelled, its entry is left in place. */
  function CancelTimeout(s: BotState, user: UserId): (r: BotState)
    ensures r == s.(tasks := r.tasks)
    ensures |r.tasks| == |s.tasks|
    ensures user in s.timeouts && s.timeouts[user] < |s.tasks| ==>
      r.tasks == s.tasks[s.timeouts[user] := Cancel(s.tasks[s.timeouts[user]])]
    ensures !(user in s.timeouts && s.timeouts[user] < |s.tasks|) ==> r == s
    ensures Inv(s) ==> Inv(r)
  {
    if user in s.timeouts && s.timeouts[user] < |s.tasks| then
      var k := s.timeouts[user];
      s.(tasks := s.tasks[k := Cancel(s.tasks[k])])
    else s
  }

  /**
   * `on_member_update`: nothing happens unless the status changed. Going
   * offline schedules a timeout; coming online cancels the user's task, then
   * creates a channel if the user has none (raising KeyError for an unknown
   * user, after the cancellation).
   */
  function MemberUpdate(s: BotState, duration: int, user: UserId, before: Status, after: Status,
                        now: int, channel: ChannelId, helpMessage: MessageId): (r: Step)
    ensures before == after ==> r == Step(s, Pass)
    ensures before != after && after == Offline ==> r == ScheduleTimeout(s, duration, user, now)
    ensures before != after && after != Offline ==>
      && r.state.timeouts == s.timeouts
      && r.state.tutors == s.tutors
      && |r.state.tasks| == |s.tasks|
      && r.state.tasks == CancelTimeout(s, user).tasks
      && r.state.users.Keys == s.users.Keys
      && (forall v | v in s.users && v != user :: r.state.users[v] == s.users[v])
      && (r.outcome.Fail? <==> user !in s.users)
      && (r.outcome.Fail? ==> r.outcome.error == KeyError && r.state.events == s.events)
    ensures before != after && after != Offline && user in s.users ==>
      && r.state.users[user].subscribed == s.users[user].subscribed
      && r.state.users[user].privateChannelId.Some?
      && (s.users[user].privateChannelId.Some? ==>
            r.state.users[user] == s.users[user] && r.state.events == s.events)
      && (s.users[user].privateChannelId.None? ==>
            && r.state.users[user].privateChannelId == Some(channel)
            && r.state.users[user].helpMessageId == Some(helpMessage)
            && r.state.events == s.events + [ChannelCreated(user, channel)])
    ensures Inv(s) ==> Inv(r.state)
  {
    if before == after then Step(s, Pass)
    else if after == Offline then ScheduleTimeout(s, duration, user, now)
    else
      var s1 := CancelTimeout(s, user);
      if user !in s1.users then Step(s1, Fail(KeyError))
      else if s1.users[user].privateChannelId.None? then Step(CreateChannel(s1, user, channel, helpMessage), Pass)
      else Step(s1, Pass)
  }

  /** A task leaves its polling loop once it is running and its deadline has been reached. */
  predicate Due(t: TimeoutTask, now: int) {
    t.state == Running && t.deadline <= now
  }

  /**
   * One step of `user_timeout` for task `k` at time `now`. Before the deadline,
   * or once cancelled, nothing happens. When due, the task finishes: if the
   * host fails to delete the channel it raises there; otherwise the channel is
   * deleted, the user's privateChannelId is cleared and the user's dictionary
   * entry is deleted, raising KeyError when there is none.
   */
  function Expire(s: BotState, k: nat, now: int, deleteOk: bool): (r: Step)
    requires k < |s.tasks| && s.tasks[k].user in s.users
    ensures !Due(s.tasks[k], now) ==> r == Step(s, Pass)
    ensures Due(s.tasks[k], now) ==>
      && r.state.tasks == s.tasks[k := s.tasks[k].(state := Finished)]
      && r.state.users.Keys == s.users.Keys
      && (forall v | v in s.users && v != s.tasks[k].user :: r.state.users[v] == s.users[v])
      && (forall v | v in s.timeouts && v != s.tasks[k].user :: v in r.state.timeouts && r.state.timeouts[v] == s.timeouts[v])
      && r.state.tutors == s.tutors
    ensures Due(s.tasks[k], now) && !deleteOk ==>
      r.outcome == Fail(HostError) && r.state == s.(tasks := r.state.tasks)
    ensures Due(s.tasks[k], now) && deleteOk ==>
      var u := s.tasks[k].user;
      && r.state.events == s.events + [ChannelDeleted(s.tasks[k].channel)]
      && r.state.users[u] == s.users[u].(privateChannelId := None)
      && r.state.timeouts == s.timeouts - {u}
      && (r.outcome.Fail? <==> u !in s.timeouts)
      && (r.outcome.Fail? ==> r.outcome.error == KeyError)
    ensures Inv(s) ==> Inv(r.state)
  {
    var t := s.tasks[k];
    if !Due(t, now) then Step(s, Pass)
    else
      var s1 := s.(tasks := s.tasks[k := t.(state := Finished)]);
      if !deleteOk then Step(s1, Fail(HostError))
      else
        var s2 := s1.(events := s1.events + [ChannelDeleted(t.channel)],
                      users := s1.users[t.user := s1.users[t.user].(privateChannelId := None)]);
        if t.user in s2.timeouts then Step(s2.(timeouts := s2.timeouts - {t.user}), Pass)
        else Step(s2, Fail(KeyError))
  }

  // ---------------------------------------------------------------------------
  // Properties across handlers
  // ---------------------------------------------------------------------------

  /**
   * After a member joins without a channel, a reaction on the help message just
   * sent assigns the first registered tutor, and a reaction on any other
   * message is ignored.
   */
  lemma JoinThenReact(s: BotState, botId: UserId, member: UserId, channel: ChannelId,
                      helpMessage: MessageId, other: MessageId)
    requires member != botId && other != helpMessage
    requires member !in s.users || s.users[member].privateChannelId.None?
    ensures var r := MemberJoin(s, member, channel, helpMessage);
      && RawReaction(r, botId, member, helpMessage) ==
         (if s.tutors == [] then Failure(IndexError) else Success(Assign(s.tutors[0])))
      && RawReaction(r, botId, member, other) == Success(Ignored)
  {
  }

  /**
   * Coming online cancels the user's task but leaves the entry: the entry
   * still names that task, and the task never fires afterwards, whatever the
   * time.
   */
  lemma CancelledTaskNeverFires(s: BotState, duration: int, user: UserId, before: Status, after: Status,
                                now: int, channel: ChannelId, helpMessage: MessageId, later: int, deleteOk: bool)
    requires Inv(s)
    requires user in s.timeouts
    requires before != after && after != Offline
    ensures var r := MemberUpdate(s, duration, user, before, after, now, channel, helpMessage).state;
      && user in r.timeouts && r.timeouts[user] == s.timeouts[user]
      && r.timeouts[user] < |r.tasks| && r.tasks[r.timeouts[user]].user in r.users
      && Expire(r, r.timeouts[user], later, deleteOk) == Step(r, Pass)
  {
    var s1 := CancelTimeout(s, user);
    var k := s.timeouts[user];
    assert s1.tasks[k].state != Running;
    var r := MemberUpdate(s, duration, user, before, after, now, channel, helpMessage).state;
    assert r.tasks == s1.tasks;
  }

  /**
   * Scheduling again while a task is still running does not stop it: the old
   * task keeps running, and no dictionary entry names it any longer, so coming
   * online can no longer cancel it.
   */
  lemma RescheduleOrphansRunningTask(s: BotState, duration: int, user: UserId, now: int)
    requires Inv(s)
    requires user in s.timeouts && s.tasks[s.timeouts[user]].state == Running
    requires user in s.users && s.users[user].privateChannelId.Some?
    ensures var r := ScheduleTimeout(s, duration, user, now).state;
      var old_k := s.timeouts[user];
      && r.tasks[old_k] == s.tasks[old_k]
      && (forall v | v in r.timeouts :: r.timeouts[v] != old_k)
  {
    var r := ScheduleTimeout(s, duration, user, now).state;
    var old_k := s.timeouts[user];
    forall v | v in r.timeouts
      ensures r.timeouts[v] != old_k
    {
      if v != user {
        assert s.tasks[s.timeouts[v]].user == v;
      }
    }
  }

  /**
   * An orphaned task that expires deletes the user's current entry even though
   * that entry names a different, still running task, which then can no longer
   * be cancelled either.
   */
  lemma OrphanExpiryDropsNewerEntry(s: BotState, k: nat, now: int)
    requires Inv(s)
    requires k < |s.tasks| && Due(s.tasks[k], now)
    requires s.tasks[k].user in s.timeouts && s.timeouts[s.tasks[k].user] != k
    ensures var u := s.tasks[k].user;
      var newer := s.timeouts[u];
      var r := Expire(s, k, now, true);
      && u !in r.state.timeouts
      && r.state.tasks[newer] == s.tasks[newer]
      && r.state.users[u].privateChannelId.None?
      && r.outcome == Pass
  {
  }

  // ---------------------------------------------------------------------------
  // The objects
  // ---------------------------------------------------------------------------

  /** `TutorUser` of tutor_bot.py. */
  class TutorUser {
    var subscribedSubjects: Mask
    var helpMessageId: Option<MessageId>
    var privateChannelId: Option<ChannelId>

    function Record(): UserRecord
      reads this
    {
      UserRecord(subscribedSubjects, helpMessageId, privateChannelId)
    }

    /** The subjects this user is subscribed to. */
    function Subscriptions(): set<string>
      reads this
    {
      SubjectsOf(subscribedSubjects)
    }

    constructor ()
      ensures Record() == FreshUser
      ensures Subscriptions() == {}
    {
      subscribedSubjects := 0;
      helpMessageId := None;
      privateChannelId := None;
      new;
      EmptyMask();
    }

    /** Sets the subject's flag (XOR only when clear): the subject joins the set, nothing else changes. */
    method SubscribeTo(subject: string) returns (r: Outcome<PyError>)
      requires InRange(subscribedSubjects)
      modifies this
      ensures InRange(subscribedSubjects)
      ensures r.Fail? <==> subject !in Catalog
      ensures r.Fail? ==> r.error == KeyError && subscribedSubjects == old(subscribedSubjects)
      ensures r.Pass? ==> subscribedSubjects == old(subscribedSubjects) | Catalog[subject]
      ensures r.Pass? ==> Subscriptions() == old(Subscriptions()) + {subject}
      ensures helpMessageId == old(helpMessageId) && privateChannelId == old(privateChannelId)
    {
      var flag := Lookup(subject);
      if flag.Failure? {
        return Fail(flag.error);
      }
      if subscribedSubjects & flag.value == 0 {
        subscribedSubjects := subscribedSubjects ^ flag.value;
      }
      AddSubject(old(subscribedSubjects), subject);
      r := Pass;
    }

    /** Clears the subject's flag (XOR only when set): the subject leaves the set, nothing else changes. */
    method UnsubscribeTo(subject: string) returns (r: Outcome<PyError>)
      requires InRange(subscribedSubjects)
      modifies this
      ensures InRange(subscribedSubjects)
      ensures r.Fail? <==> subject !in Catalog
      ensures r.Fail? ==> r.error == KeyError && subscribedSubjects == old(subscribedSubjects)
      ensures r.Pass? ==> subscribedSubjects == old(subscribedSubjects) & !Catalog[subject]
      ensures r.Pass? ==> Subscriptions() == old(Subscriptions()) - {subject}
      ensures helpMessageId == old(helpMessageId) && privateChannelId == old(privateChannelId)
    {
      var flag := Lookup(subject);
      if flag.Failure? {
        return Fail(flag.error);
      }
      if subscribedSubjects & flag.value != 0 {
        subscribedSubjects := subscribedSubjects ^ flag.value;
      }
      RemoveSubject(old(subscribedSubjects), subject);
      r := Pass;
    }

    /** Whether the user is subscribed to a catalog subject; KeyError for any other name. */
    function IsSubscribed(subject: string): (r: Result<bool, PyError>)
      reads this
      ensures r.Failure? <==> subject !in Catalog
      ensures r.Failure? ==> r.error == KeyError
      ensures r.Success? ==> (r.value <==> subject in Subscriptions())
    {
      match Lookup(subject)
      case Failure(e) => Failure(e)
      case Success(flag) => Success(subscribedSubjects & flag != 0)
    }
  }

  /** `TutorBot` of tutor_bot.py, without its Discord client. */
  class TutorBot {
    /** `self.user.id`: the bot's own account. */
    const botId: UserId
    const timeoutDuration: int
    var userList: map<UserId, TutorUser>
    /** Each value is a handle: the index of its task in `tasks`. */
    var userTimeoutList: map<UserId, nat>
    var tutorList: seq<UserId>
    /** Every timeout task the event loop has been given so far. */
    var tasks: seq<TimeoutTask>
    /** Host effects requested so far. */
    var events: seq<Event>

    ghost function Users(): map<UserId, UserRecord>
      reads this, userList.Values
    {
      map u | u in userList :: userList[u].Record()
    }

    ghost function State(): BotState
      reads this, userList.Values
    {
      BotState(Users(), userTimeoutList, tutorList, tasks, events)
    }

    /** Distinct ids hold distinct TutorUser objects, and the abstract state keeps Inv. */
    ghost predicate Valid()
      reads this, userList.Values
    {
      && (forall u, v | u in userList && v in userList && u != v :: userList[u] != userList[v])
      && Inv(State())
    }

    constructor (botId: UserId, timeoutDuration: int)
      ensures Valid()
      ensures this.botId == botId && this.timeoutDuration == timeoutDuration
      ensures State() == Initial
    {
      this.botId := botId;
      this.timeoutDuration := timeoutDuration;
      userList := map[];
      userTimeoutList := map[];
      tutorList := [];
      tasks := [];
      events := [];
      new;
      assert Users() == map[];
    }

    /** The `!regtutor` branch of `on_message`. */
    method OnRegTutor(authorIsAdmin: bool, mentions: seq<UserId>)
      requires Valid()
      modifies this
      ensures Valid()
      ensures userList == old(userList)
      ensures State() == RegisterTutors(old(State()), authorIsAdmin, mentions)
    {
      if !authorIsAdmin {
        return;
      }
      // No await inside the loop, so building the list locally and storing it
      // once is the same as appending to the attribute in place.
      var tutors := tutorList;
      var i := 0;
      assert mentions[i..] == mentions;
      while i < |mentions|
        invariant 0 <= i <= |mentions|
        invariant AppendAbsent(tutors, mentions[i..]) == AppendAbsent(tutorList, mentions)
      {
        assert mentions[i..][1..] == mentions[i + 1..];
        if mentions[i] !in tutors {
          tutors := tutors + [mentions[i]];
        }
        i := i + 1;
      }
      tutorList := tutors;
      assert Users() == old(Users());
    }

    /** `create_private_channel`: records the new channel and help message of a known member. */
    method CreatePrivateChannel(member: UserId, channel: ChannelId, helpMessage: MessageId)
      requires Valid() && member in userList
      modifies this, userList[member]
      ensures Valid()
      ensures userList == old(userList)
      ensures State() == CreateChannel(old(State()), member, channel, helpMessage)
    {
      var user := userList[member];
      events := events + [ChannelCreated(member, channel)];
      user.privateChannelId := Some(channel);
      user.helpMessageId := Some(helpMessage);
      assert Users() == old(Users())[member := user.Record()] by {
        forall u | u in userList && u != member
          ensures userList[u].Record() == old(userList[u].Record())
        {
          assert userList[u] != user;
        }
      }
    }

    /** `on_member_join`. */
    method OnMemberJoin(member: UserId, channel: ChannelId, helpMessage: MessageId)
      requires Valid()
      modifies this, userList.Values
      ensures Valid()
      ensures member in userList && (member !in old(userList) ==> fresh(userList[member]))
      ensures forall u | u in old(userList) :: u in userList && userList[u] == old(userList[u])
      ensures State() == MemberJoin(old(State()), member, channel, helpMessage)
    {
      if member !in userList {
        var user := new TutorUser();
        userList := userList[member := user];
        assert Users() == old(Users())[member := FreshUser];
        assert State() == old(State()).(users := old(State()).users[member := FreshUser]);
      }
      if userList[member].privateChannelId.None? {
        CreatePrivateChannel(member, channel, helpMessage);
      }
    }

    /** `on_raw_reaction_add`: which tutor, if any, the reaction assigns. */
    method OnRawReactionAdd(user: UserId, message: MessageId) returns (r: Result<Reaction, PyError>)
      requires Valid()
      ensures r == RawReaction(State(), botId, user, message)
    {
      if user == botId {
        return Success(Ignored);
      }
      if user !in userList {
        return Failure(KeyError);
      }
      if userList[user].helpMessageId != Some(message) {
        return Success(Ignored);
      }
      if |tutorList| == 0 {
        return Failure(IndexError);
      }
      r := Success(Assign(tutorList[0]));
    }

    /** `set_user_timeout` at time `now`. */
    method SetUserTimeout(user: UserId, now: int) returns (r: Outcome<PyError>)
      requires Valid()
      modifies this
      ensures Valid()
      ensures userList == old(userList)
      ensures Step(State(), r) == ScheduleTimeout(old(State()), timeoutDuration, user, now)
    {
      var deadline := now + timeoutDuration;
      if user !in userList {
        return Fail(KeyError);
      }
      var channel := userList[user].privateChannelId;
      if channel.None? {
        return Pass;
      }
      userTimeoutList := userTimeoutList[user := |tasks|];
      tasks := tasks + [TimeoutTask(user, deadline, channel.value, Running)];
      assert Users() == old(Users());
      r := Pass;
    }

    /** `on_member_update` for one member whose status went from `before` to `after`. */
    method OnMemberUpdate(user: UserId, before: Status, after: Status, now: int,
                          channel: ChannelId, helpMessage: MessageId) returns (r: Outcome<PyError>)
      requires Valid()
      modifies this, userList.Values
      ensures Valid()
      ensures userList == old(userList)
      ensures Step(State(), r) ==
        MemberUpdate(old(State()), timeoutDuration, user, before, after, now, channel, helpMessage)
    {
      if before == after {
        return Pass;
      }
      if after == Offline {
        r := SetUserTimeout(user, now);
        return;
      }
      if user in userTimeoutList {
        var k := userTimeoutList[user];
        tasks := tasks[k := Cancel(tasks[k])];
      }
      assert Users() == old(Users());
      assert State() == CancelTimeout(old(State()), user);
      if user !in userList {
        return Fail(KeyError);
      }
      if userList[user].privateChannelId.None? {
        CreatePrivateChannel(user, channel, helpMessage);
      }
      r := Pass;
    }

    /** One step of the `user_timeout` task with handle `k` at time `now`. */
    method UserTimeout(k: nat, now: int, deleteOk: bool) returns (r: Outcome<PyError>)
      requires Valid() && k < |tasks|
      modifies this, userList.Values
      ensures Valid()
      ensures userList == old(userList)
      ensures Step(State(), r) == Expire(old(State()), k, now, deleteOk)
    {
      var task := tasks[k];
      if !Due(task, now) {
        return Pass;
      }
      tasks := tasks[k := task.(state := Finished)];
      if !deleteOk {
        assert Users() == old(Users());
        return Fail(HostError);
      }
      events := events + [ChannelDeleted(task.channel)];
      var owner := userList[task.user];
      owner.privateChannelId := None;
      assert Users() == old(Users())[task.user := owner.Record()] by {
        forall u | u in userList && u != task.user
          ensures userList[u].Record() == old(userList[u].Record())
        {
          assert userList[u] != owner;
        }
      }
      if task.user !in userTimeoutList {
        return Fail(KeyError);
      }
      userTimeoutList := userTimeoutList - {task.user};
      r := Pass;
    }
  }
}
