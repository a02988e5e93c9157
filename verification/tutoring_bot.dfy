/**
 * The in-memory bookkeeping of tutoring-bot.py, the earlier variant of the
 * bot: a TutorUser with a subject mask and a help message id, and the
 * userList that TutoringBot keys by `hash(member)`. The attribute `userList`
 * only exists once `on_ready` has assigned it; before that every handler that
 * touches it raises AttributeError.
 *
 * As in TutorBot, each handler is first a function on a BotState value, and
 * the classes below are proved to follow those functions.
 */
module TutoringBot {
  import opened Wrappers
  import opened Host
  import opened Subjects

  // ---------------------------------------------------------------------------
  // Specification on values
  // ---------------------------------------------------------------------------

  /** The two attributes of this variant's TutorUser. */
  datatype UserRecord = UserRecord(subscribed: Mask, helpMessageId: Option<MessageId>)

  /** A freshly constructed TutorUser. */
  const FreshUser := UserRecord(0, None)

  /**
   * What TutoringBot keeps: `userList` (None while the attribute does not exist
   * yet), keyed by member hash, and the host effects requested so far.
   */
  datatype BotState = BotState(users: Option<map<UserId, UserRecord>>, events: seq<Event>)

  /** A handler run: the state it leaves and whether it returned or raised. */
  datatype Step = Step(state: BotState, outcome: Outcome<PyError>)

  /** The state of a client that has not yet seen `on_ready`. */
  const Initial := BotState(None, [])

  /** Every mask stays within the catalog. */
  ghost predicate Inv(s: BotState) {
    s.users.Some? ==> forall h | h in s.users.value :: InRange(s.users.value[h].subscribed)
  }

  /** `on_ready`: `userList` is (re)assigned an empty dictionary, forgetting every user. */
  function Ready(s: BotState): (r: BotState)
    ensures r.users == Some(map[])
    ensures r.events == s.events
    ensures Inv(r)
  {
    s.(users := Some(map[]))
  }

  /**
   * `on_member_join`: raises AttributeError before `on_ready`. Otherwise the
   * member is added with a fresh record if their hash is absent, a channel is
   * always created, and the member's help message id is always overwritten
   * with the message just sent.
   */
  function MemberJoin(s: BotState, member: UserId, channel: ChannelId, helpMessage: MessageId): (r: Step)
    ensures r.outcome.Fail? <==> s.users.None?
    ensures s.users.None? ==> r == Step(s, Fail(AttributeError))
    ensures s.users.Some? ==>
      var before := s.users.value;
      && r.state.users.Some?
      && r.state.users.value.Keys == before.Keys + {member}
      && r.state.users.value[member].helpMessageId == Some(helpMessage)
      && r.state.users.value[member].subscribed == (if member in before then before[member].subscribed else 0)
      && (forall h | h in before && h != member :: r.state.users.value[h] == before[h])
      && r.state.events == s.events + [ChannelCreated(member, channel)]
    ensures Inv(s) ==> Inv(r.state)
  {
    match s.users
    case None => Step(s, Fail(AttributeError))
    case Some(users) =>
      var users1 := if member in users then users else users[member := FreshUser];
      var user := users1[member].(helpMessageId := Some(helpMessage));
      Step(BotState(Some(users1[member := user]), s.events + [ChannelCreated(member, channel)]), Pass)
  }

  /**
   * `on_reaction_add`: whether the bot answers the reaction. It answers only a
   * reaction on the reacting user's recorded help message; an unknown hash
   * raises KeyError and a missing `userList` AttributeError.
   */
  function Reaction(s: BotState, user: UserId, message: MessageId): (r: Result<bool, PyError>)
    ensures r == Failure(AttributeError) <==> s.users.None?
    ensures r == Failure(KeyError) <==> s.users.Some? && user !in s.users.value
    ensures r == Success(true) <==>
      s.users.Some? && user in s.users.value && s.users.value[user].helpMessageId == Some(message)
    ensures r.Success? || r == Failure(AttributeError) || r == Failure(KeyError)
  {
    match s.users
    case None => Failure(AttributeError)
    case Some(users) =>
      if user !in users then Failure(KeyError)
      else Success(users[user].helpMessageId == Some(message))
  }

  // ---------------------------------------------------------------------------
  // Properties across handlers
  // ---------------------------------------------------------------------------

  /** After `on_ready`, every user is unknown again: any reaction raises KeyError. */
  lemma ReadyForgetsUsers(s: BotState, user: UserId, message: MessageId)
    ensures Reaction(Ready(s), user, message) == Failure(KeyError)
  {
  }

  /**
   * Joining again moves the help message: after a join, only a reaction on the
   * message just sent is answered, not one on any earlier help message.
   */
  lemma JoinThenReact(s: BotState, member: UserId, channel: ChannelId, helpMessage: MessageId, other: MessageId)
    requires s.users.Some?
    requires other != helpMessage
    ensures var r := MemberJoin(s, member, channel, helpMessage).state;
      && Reaction(r, member, helpMessage) == Success(true)
      && Reaction(r, member, other) == Success(false)
  {
  }

  /** A member who rejoins keeps their subscriptions, whatever happened to their help message. */
  lemma RejoinKeepsSubscriptions(s: BotState, member: UserId, channel1: ChannelId, message1: MessageId,
                                 channel2: ChannelId, message2: MessageId)
    requires s.users.Some?
    ensures var r1 := MemberJoin(s, member, channel1, message1).state;
      var r2 := MemberJoin(r1, member, channel2, message2).state;
      && r2.users.Some? && member in r2.users.value
      && r2.users.value[member] == r1.users.value[member].(helpMessageId := Some(message2))
      && |r2.events| == |s.events| + 2
  {
  }

  // ---------------------------------------------------------------------------
  // The objects
  // ---------------------------------------------------------------------------

  /** `TutorUser` of tutoring-bot.py. */
  class TutorUser {
    var subscribedSubjects: Mask
    var helpMessageId: Option<MessageId>

    function Record(): UserRecord
      reads this
    {
      UserRecord(subscribedSubjects, helpMessageId)
    }

    /** The subjects this user is subscribed to. */
    function Subscriptions(): set<string>
      reads this
    {
      SubjectsOf(subscribedSubjects)
    }

    constructor ()
      ensures Record() == FreshUser
      ensures Subscriptions() == {}
    {
      subscribedSubjects := 0;
      helpMessageId := None;
      new;
      EmptyMask();
    }

    /** Sets the subject's flag (XOR only when clear): the subject joins the set, nothing else changes. */
    method SubscribeTo(subject: string) returns (r: Outcome<PyError>)
      requires InRange(subscribedSubjects)
      modifies this
      ensures InRange(subscribedSubjects)
      ensures r.Fail? <==> subject !in Catalog
      ensures r.Fail? ==> r.error == KeyError && subscribedSubjects == old(subscribedSubjects)
      ensures r.Pass? ==> subscribedSubjects == old(subscribedSubjects) | Catalog[subject]
      ensures r.Pass? ==> Subscriptions() == old(Subscriptions()) + {subject}
      ensures helpMessageId == old(helpMessageId)
    {
      var flag := Lookup(subject);
      if flag.Failure? {
        return Fail(flag.error);
      }
      if subscribedSubjects & flag.value == 0 {
        subscribedSubjects := subscribedSubjects ^ flag.value;
      }
      AddSubject(old(subscribedSubjects), subject);
      r := Pass;
    }

    /** Clears the subject's flag (XOR only when set): the subject leaves the set, nothing else changes. */
    method UnsubscribeTo(subject: string) returns (r: Outcome<PyError>)
      requires InRange(subscribedSubjects)
      modifies this
      ensures InRange(subscribedSubjects)
      ensures r.Fail? <==> subject !in Catalog
      ensures r.Fail? ==> r.error == KeyError && subscribedSubjects == old(subscribedSubjects)
      ensures r.Pass? ==> subscribedSubjects == old(subscribedSubjects) & !Catalog[subject]
      ensures r.Pass? ==> Subscriptions() == old(Subscriptions()) - {subject}
      ensures helpMessageId == old(helpMessageId)
    {
      var flag := Lookup(subject);
      if flag.Failure? {
        return Fail(flag.error);
      }
      if subscribedSubjects & flag.value != 0 {
        subscribedSubjects := subscribedSubjects ^ flag.value;
      }
      RemoveSubject(old(subscribedSubjects), subject);
      r := Pass;
    }

    /** Whether the user is subscribed to a catalog subject; KeyError for any other name. */
    function IsSubscribed(subject: string): (r: Result<bool, PyError>)
      reads this
      ensures r.Failure? <==> subject !in Catalog
      ensures r.Failure? ==> r.error == KeyError
      ensures r.Success? ==> (r.value <==> subject in Subscriptions())
    {
      match Lookup(subject)
      case Failure(e) => Failure(e)
      case Success(flag) => Success(subscribedSubjects & flag != 0)
    }
  }

  /** `TutoringBot` of tutoring-bot.py, without its Discord client. */
  class TutoringBot {
    /** Whether `on_ready` has assigned the `userList` attribute yet. */
    var hasUserList: bool
    /** Keyed by `hash(member)`. */
    var userList: map<UserId, TutorUser>
    /** Host effects requested so far. */
    var events: seq<Event>

    ghost function Users(): map<UserId, UserRecord>
      reads this, userList.Values
    {
      map h | h in userList :: userList[h].Record()
    }

    ghost function State(): BotState
      reads this, userList.Values
    {
      BotState(if hasUserList then Some(Users()) else None, events)
    }

    /** Distinct hashes hold distinct TutorUser objects, and the abstract state keeps Inv. */
    ghost predicate Valid()
      reads this, userList.Values
    {
      && (!hasUserList ==> userList == map[])
      && (forall h, g | h in userList && g in userList && h != g :: userList[h] != userList[g])
      && Inv(State())
    }

    constructor ()
      ensures Valid()
      ensures State() == Initial
    {
      hasUserList := false;
      userList := map[];
      events := [];
    }

    /** `on_ready`. */
    method OnReady()
      requires Valid()
      modifies this
      ensures Valid()
      ensures State() == Ready(old(State()))
    {
      userList := map[];
      hasUserList := true;
      assert Users() == map[];
    }

    /** `on_member_join`. */
    method OnMemberJoin(member: UserId, channel: ChannelId, helpMessage: MessageId) returns (r: Outcome<PyError>)
      requires Valid()
      modifies this, userList.Values
      ensures Valid()
      ensures r.Pass? ==> member in userList && (member !in old(userList) ==> fresh(userList[member]))
      ensures forall h | h in old(userList) :: h in userList && userList[h] == old(userList[h])
      ensures Step(State(), r) == MemberJoin(old(State()), member, channel, helpMessage)
    {
      if !hasUserList {
        return Fail(AttributeError);
      }
      ghost var before := old(Users());
      ghost var inserted := if member in before then before else before[member := FreshUser];
      if member !in userList {
        var newUser := new TutorUser();
        userList := userList[member := newUser];
        assert Users() == old(Users())[member := FreshUser];
      }
      events := events + [ChannelCreated(member, channel)];
      ghost var joined := Users();
      assert joined == inserted;
      var user := userList[member];
      user.helpMessageId := Some(helpMessage);
      assert Users() == joined[member := user.Record()] by {
        forall h | h in userList && h != member
          ensures userList[h].Record() == joined[h]
        {
          assert userList[h] != user;
        }
      }
      r := Pass;
    }

    /** `on_reaction_add`: whether the bot answers the reaction. */
    method OnReactionAdd(user: UserId, message: MessageId) returns (r: Result<bool, PyError>)
      requires Valid()
      ensures r == Reaction(State(), user, message)
    {
      if !hasUserList {
        return Failure(AttributeError);
      }
      if user !in userList {
        return Failure(KeyError);
      }
      if userList[user].helpMessageId != Some(message) {
        return Success(false);
      }
      r := Success(true);
    }
  }
}
