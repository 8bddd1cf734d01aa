/**
 * A run of the bot as a specification: the handlers of `Bot.Callbacks` applied
 * one after another to a sequence of incoming events, starting from the state
 * `__init__` makes (pinbot/callbacks.py:38-39). `Dispatch.Handle` and
 * `Dispatch.HandleAll` are proved to change a `Callbacks` object and its call
 * trace exactly as `Step` and `Run` say, so the lemmas here hold of the object.
 */
module Session {
  import opened Wrappers
  import opened Matrix
  import opened Classifier
  import opened Resolver
  import opened JoinRetry

  /** The handler state: `synced` and `pinned`. */
  datatype State = State(synced: bool, pinned: set<EventId>)

  /** One incoming event, with the answers the client library gives while it is handled. */
  datatype Incoming =
    | SyncResponse
    | InviteEvent(room: RoomId, respond: nat -> JoinResult)
    | UnknownIn(room: RoomId, event: UnknownEvent, answer: FetchResult)

  /** The state after some events, the calls made, and the ids archived, in order. */
  datatype Outcome = Outcome(state: State, effects: seq<Effect>, archived: seq<EventId>)

  /** The state `__init__` leaves. */
  function Initial(): State
  {
    State(false, {})
  }

  /** One handler call. */
  function Step(config: Config, makePill: UserId -> string, st: State, ev: Incoming): Outcome
  {
    match ev
    case SyncResponse => Outcome(State(true, st.pinned), [], [])
    case InviteEvent(room, respond) => Outcome(st, InviteEffects(room, respond), [])
    case UnknownIn(room, event, answer) =>
      match ReactedTo(event)
      case None => Outcome(st, [], [])
      case Some(id) =>
        var v := Resolve(config, makePill, st.synced, st.pinned, room, ReactionKey(event), id, answer);
        Outcome(State(st.synced, PinnedAfter(st.pinned, id, v)),
                ReactionEffects(config, room, id, v),
                if v.Archived? then [id] else [])
  }

  /** Handler calls for `evs`, one after another. */
  function Run(config: Config, makePill: UserId -> string, st: State, evs: seq<Incoming>): Outcome
    decreases |evs|
  {
    if evs == [] then Outcome(st, [], [])
    else
      var first := Step(config, makePill, st, evs[0]);
      var rest := Run(config, makePill, first.state, evs[1..]);
      Outcome(rest.state, first.effects + rest.effects, first.archived + rest.archived)
  }

  lemma RunUnfold(config: Config, makePill: UserId -> string, st: State, evs: seq<Incoming>)
    requires evs != []
    ensures
      var first := Step(config, makePill, st, evs[0]);
      Run(config, makePill, st, evs).archived == first.archived + Run(config, makePill, first.state, evs[1..]).archived
  {
  }

  predicate NoDuplicates(s: seq<EventId>)
  {
    forall i, j :: 0 <= i < j < |s| ==> s[i] != s[j]
  }

  lemma InviteSendsNothing(room: RoomId, respond: nat -> JoinResult, attempt: nat)
    ensures Count(Tries(room, respond, attempt), IsSend) == 0
    decreases MaxAttempts - attempt
  {
    if attempt < MaxAttempts && respond(attempt).JoinError? {
      InviteSendsNothing(room, respond, attempt + 1);
      var t := Tries(room, respond, attempt);
      assert t[1..][1..] == Tries(room, respond, attempt + 1);
    }
  }

  /**
   * One handler call archives at most one id, one not yet pinned; it adds
   * exactly the archived ids to `pinned`, sends once per archived id, and
   * never lowers `synced`.
   */
  lemma StepArchives(config: Config, makePill: UserId -> string, st: State, ev: Incoming)
    ensures
      var o := Step(config, makePill, st, ev);
      |o.archived| <= 1 &&
      (forall id :: id in o.archived ==> id !in st.pinned) &&
      o.state.pinned == st.pinned + (set id | id in o.archived) &&
      Count(o.effects, IsSend) == |o.archived| &&
      (st.synced ==> o.state.synced) &&
      (!ev.SyncResponse? ==> o.state.synced == st.synced)
  {
    var o := Step(config, makePill, st, ev);
    match ev
    case SyncResponse =>
      assert Count(o.effects, IsSend) == 0;
    case InviteEvent(room, respond) =>
      InviteSendsNothing(room, respond, 0);
    case UnknownIn(room, event, answer) =>
      if ReactedTo(event).Some? {
        var id := ReactedTo(event).value;
        var v := Resolve(config, makePill, st.synced, st.pinned, room, ReactionKey(event), id, answer);
        if v.Archived? {
          ArchivedIff(config, makePill, st.synced, st.pinned, room, ReactionKey(event), id, answer);
          ArchivedMeansOneSend(config, makePill, st.synced, st.pinned, room, ReactionKey(event), id, answer);
        } else {
          IgnoredMeansNoSend(config, makePill, st.synced, st.pinned, room, ReactionKey(event), id, answer);
        }
      } else {
        assert Count(o.effects, IsSend) == 0;
      }
  }

  /**
   * Over any run, every archived id was not pinned at the start, no id is
   * archived twice, `pinned` ends as the start plus the archived ids, and the
   * number of archive sends equals the number of archived ids: one send at
   * most per reacted-to event.
   */
  lemma {:induction false} RunArchivesOnce(config: Config, makePill: UserId -> string, st: State, evs: seq<Incoming>)
    ensures
      var o := Run(config, makePill, st, evs);
      NoDuplicates(o.archived) &&
      (forall id :: id in o.archived ==> id !in st.pinned) &&
      o.state.pinned == st.pinned + (set id | id in o.archived) &&
      Count(o.effects, IsSend) == |o.archived|
    decreases |evs|
  {
    if evs != [] {
      var first := Step(config, makePill, st, evs[0]);
      var rest := Run(config, makePill, first.state, evs[1..]);
      StepArchives(config, makePill, st, evs[0]);
      RunArchivesOnce(config, makePill, first.state, evs[1..]);
      CountAppend(first.effects, rest.effects, IsSend);
      var all := first.archived + rest.archived;
      forall i, j | 0 <= i < j < |all| ensures all[i] != all[j] {
        if j >= |first.archived| {
          assert all[j] in rest.archived;
          if i < |first.archived| {
            assert all[i] in first.state.pinned;
          }
        }
      }
      forall id | id in all ensures id !in st.pinned {
        if id !in first.archived {
          assert id in rest.archived;
        }
      }
    }
  }

  /** `synced` never goes back to false. */
  lemma {:induction false} RunKeepsSynced(config: Config, makePill: UserId -> string, st: State, evs: seq<Incoming>)
    requires st.synced
    ensures Run(config, makePill, st, evs).state.synced
    decreases |evs|
  {
    if evs != [] {
      StepArchives(config, makePill, st, evs[0]);
      RunKeepsSynced(config, makePill, Step(config, makePill, st, evs[0]).state, evs[1..]);
    }
  }

  /** Before the first sync response nothing is archived and nothing is sent. */
  lemma {:induction false} NothingBeforeSync(config: Config, makePill: UserId -> string, st: State, evs: seq<Incoming>)
    requires !st.synced
    requires forall i :: 0 <= i < |evs| ==> !evs[i].SyncResponse?
    ensures Run(config, makePill, st, evs).archived == []
    ensures Count(Run(config, makePill, st, evs).effects, IsSend) == 0
    ensures Run(config, makePill, st, evs).state == st
    decreases |evs|
  {
    if evs != [] {
      StepArchives(config, makePill, st, evs[0]);
      var first := Step(config, makePill, st, evs[0]);
      assert first.state == st && first.archived == [];
      NothingBeforeSync(config, makePill, st, evs[1..]);
      var rest := Run(config, makePill, st, evs[1..]);
      assert Run(config, makePill, st, evs).effects == first.effects + rest.effects;
      CountAppend(first.effects, rest.effects, IsSend);
    }
  }

  /**
   * The same pin reaction delivered twice after the sync: it is archived the
   * first time and sent at most once in all.
   */
  lemma RepeatedPinSentOnce(config: Config, makePill: UserId -> string, room: RoomId, event: UnknownEvent,
                            answer: FetchResult)
    ensures
      var o := Run(config, makePill, Initial(),
                   [SyncResponse, UnknownIn(room, event, answer), UnknownIn(room, event, answer)]);
      Count(o.effects, IsSend) <= 1 &&
      (ReactedTo(event).Some? &&
       Resolve(config, makePill, true, {}, room, ReactionKey(event), ReactedTo(event).value, answer).Archived?
       ==> Count(o.effects, IsSend) == 1)
  {
    var evs := [SyncResponse, UnknownIn(room, event, answer), UnknownIn(room, event, answer)];
    RunArchivesOnce(config, makePill, Initial(), evs);
    var o := Run(config, makePill, Initial(), evs);
    var s1 := Step(config, makePill, Initial(), evs[0]).state;
    var o1 := Step(config, makePill, s1, evs[1]);
    assert |o.archived| <= 1 && |o1.archived| <= |o.archived| by {
      var o2 := Step(config, makePill, o1.state, evs[2]);
      StepArchives(config, makePill, s1, evs[1]);
      StepArchives(config, makePill, o1.state, evs[2]);
      RunUnfold(config, makePill, Initial(), evs);
      RunUnfold(config, makePill, s1, evs[1..]);
      assert evs[1..][1..] == [evs[2]];
      RunUnfold(config, makePill, o1.state, [evs[2]]);
      assert [evs[2]][1..] == [];
      if o1.archived != [] {
        assert o1.archived[0] in o1.state.pinned;
        assert o2.archived == [];
      }
    }
  }
}
