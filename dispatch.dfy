/**
 * The client library's event dispatch, as far as the handlers see it: each
 * incoming event goes to the `Callbacks` method registered for it
 * (`sync`, `invite` or `unknown`). This ties the object in `Bot` to the run
 * specification in `Session`.
 */
module Dispatch {
  import opened Matrix
  import opened Bot
  import opened Session

  /** One incoming event handed to its handler: the object changes as `Step` says. */
  method Handle(cb: Callbacks, ev: Incoming)
    modifies cb, cb.io
    ensures
      var o := Step(cb.config, cb.makePill, old(State(cb.synced, cb.pinned)), ev);
      State(cb.synced, cb.pinned) == o.state && cb.io.trace == old(cb.io.trace) + o.effects
  {
    match ev
    case SyncResponse =>
      cb.Sync();
    case InviteEvent(room, respond) =>
      var _ := cb.Invite(room, respond);
    case UnknownIn(room, event, answer) =>
      cb.Unknown(room, event, answer);
  }

  /**
   * Incoming events handed to their handlers in order: the object changes as
   * `Run` says, so on this object no event id is archived twice, the sends
   * made are one per archived id, and `pinned` gains exactly those ids.
   */
  method HandleAll(cb: Callbacks, evs: seq<Incoming>)
    modifies cb, cb.io
    ensures
      var o := Run(cb.config, cb.makePill, old(State(cb.synced, cb.pinned)), evs);
      State(cb.synced, cb.pinned) == o.state && cb.io.trace == old(cb.io.trace) + o.effects
    ensures
      var o := Run(cb.config, cb.makePill, old(State(cb.synced, cb.pinned)), evs);
      NoDuplicates(o.archived) &&
      Count(cb.io.trace[|old(cb.io.trace)|..], IsSend) == |o.archived| &&
      cb.pinned == old(cb.pinned) + (set id | id in o.archived)
  {
    ghost var start := State(cb.synced, cb.pinned);
    ghost var trace := cb.io.trace;
    ghost var whole := Run(cb.config, cb.makePill, start, evs);
    for i := 0 to |evs|
      invariant Run(cb.config, cb.makePill, State(cb.synced, cb.pinned), evs[i..]).state == whole.state
      invariant trace + whole.effects ==
                cb.io.trace + Run(cb.config, cb.makePill, State(cb.synced, cb.pinned), evs[i..]).effects
    {
      ghost var current := State(cb.synced, cb.pinned);
      RunAdvance(cb.config, cb.makePill, current, evs, i, cb.io.trace, trace + whole.effects);
      Handle(cb, evs[i]);
    }
    assert evs[|evs|..] == [];
    ObjectArchivesOnce(cb.config, cb.makePill, start, evs, trace, cb.io.trace);
  }

  /** `RunArchivesOnce`, read off the calls appended to a trace. */
  lemma ObjectArchivesOnce(config: Config, makePill: UserId -> string, st: State, evs: seq<Incoming>,
                           before: seq<Effect>, after: seq<Effect>)
    requires after == before + Run(config, makePill, st, evs).effects
    ensures
      var o := Run(config, makePill, st, evs);
      NoDuplicates(o.archived) &&
      Count(after[|before|..], IsSend) == |o.archived| &&
      o.state.pinned == st.pinned + (set id | id in o.archived)
  {
    RunArchivesOnce(config, makePill, st, evs);
    assert after[|before|..] == Run(config, makePill, st, evs).effects;
  }

  /**
   * Handling the next event moves the run one step on: what is left of the
   * run from the new state ends where it ended before, with the step's calls
   * now in the trace.
   */
  lemma RunAdvance(config: Config, makePill: UserId -> string, current: State, evs: seq<Incoming>, i: nat,
                   io: seq<Effect>, total: seq<Effect>)
    requires i < |evs|
    requires total == io + Run(config, makePill, current, evs[i..]).effects
    ensures
      var first := Step(config, makePill, current, evs[i]);
      Run(config, makePill, first.state, evs[i + 1..]).state == Run(config, makePill, current, evs[i..]).state &&
      total == (io + first.effects) + Run(config, makePill, first.state, evs[i + 1..]).effects
  {
    assert evs[i..][0] == evs[i] && evs[i..][1..] == evs[i + 1..];
  }
}
