/**
 * The join retry policy of `invite` (pinbot/callbacks.py:52-64) as a
 * specification: at most three `join` calls, a one-second sleep after every
 * failed one (the third included), stopping right after the first result
 * that is not a `JoinError`. The answers of the server are given as a
 * function from the attempt number to the result of that attempt.
 */
module JoinRetry {
  import opened Matrix

  const MaxAttempts: nat := 3
  const RetryDelay: nat := 1

  /** The calls `invite` makes from attempt `attempt` on. */
  function Tries(room: RoomId, respond: nat -> JoinResult, attempt: nat): (r: seq<Effect>)
    ensures attempt < MaxAttempts ==> r != [] && r[0] == JoinCall(room)
    ensures attempt <= MaxAttempts ==> |r| <= 2 * (MaxAttempts - attempt)
    decreases MaxAttempts - attempt
  {
    if attempt >= MaxAttempts then []
    else if respond(attempt).JoinError? then [JoinCall(room), Sleep(RetryDelay)] + Tries(room, respond, attempt + 1)
    else [JoinCall(room)]
  }

  /** The calls `invite` makes for one invite. */
  function InviteEffects(room: RoomId, respond: nat -> JoinResult): (r: seq<Effect>)
    ensures 1 <= |r| <= 2 * MaxAttempts
    ensures r[0] == JoinCall(room)
  {
    Tries(room, respond, 0)
  }

  /** Whether some attempt from `attempt` on, before the limit, succeeds. */
  function JoinsFrom(respond: nat -> JoinResult, attempt: nat): (r: bool)
    ensures !r <==> forall i :: attempt <= i < MaxAttempts ==> respond(i).JoinError?
    decreases MaxAttempts - attempt
  {
    if attempt >= MaxAttempts then false
    else if respond(attempt).JoinError? then JoinsFrom(respond, attempt + 1)
    else true
  }

  /** `k` failed attempts: each a join followed by a sleep. */
  function FailedTries(room: RoomId, k: nat): seq<Effect>
  {
    if k == 0 then [] else FailedTries(room, k - 1) + [JoinCall(room), Sleep(RetryDelay)]
  }

  /** The number of failed attempts before the first success, counting from `attempt`. */
  function LeadingFailures(respond: nat -> JoinResult, attempt: nat): nat
    decreases MaxAttempts - attempt
  {
    if attempt >= MaxAttempts then 0
    else if respond(attempt).JoinError? then 1 + LeadingFailures(respond, attempt + 1)
    else 0
  }

  lemma {:induction false} FailedTriesStep(room: RoomId, k: nat)
    ensures FailedTries(room, k + 1) == [JoinCall(room), Sleep(RetryDelay)] + FailedTries(room, k)
    decreases k
  {
    if k > 0 {
      FailedTriesStep(room, k - 1);
    }
  }

  /**
   * The closed form of the retry loop from attempt `attempt`: `k` failures,
   * each a join and a sleep, then one successful join unless the attempts ran
   * out; the attempt after the failures is a success exactly when there is one.
   */
  lemma {:induction false} TriesClosedForm(room: RoomId, respond: nat -> JoinResult, attempt: nat)
    requires attempt <= MaxAttempts
    ensures attempt + LeadingFailures(respond, attempt) <= MaxAttempts
    ensures forall i :: attempt <= i < attempt + LeadingFailures(respond, attempt) ==> respond(i).JoinError?
    ensures JoinsFrom(respond, attempt) <==> attempt + LeadingFailures(respond, attempt) < MaxAttempts
    ensures attempt + LeadingFailures(respond, attempt) < MaxAttempts ==>
              !respond(attempt + LeadingFailures(respond, attempt)).JoinError?
    ensures
      var k := LeadingFailures(respond, attempt);
      Tries(room, respond, attempt) ==
        FailedTries(room, k) + (if attempt + k < MaxAttempts then [JoinCall(room)] else [])
    decreases MaxAttempts - attempt
  {
    if attempt < MaxAttempts && respond(attempt).JoinError? {
      TriesClosedForm(room, respond, attempt + 1);
      var k := LeadingFailures(respond, attempt + 1);
      FailedTriesStep(room, k);
    }
  }

  lemma {:induction false} CountFailedTries(room: RoomId, k: nat)
    ensures Count(FailedTries(room, k), IsJoin) == k && Count(FailedTries(room, k), IsSleep) == k
  {
    if k > 0 {
      FailedTriesStep(room, k - 1);
      CountFailedTries(room, k - 1);
      var t := FailedTries(room, k);
      assert t[1..][1..] == FailedTries(room, k - 1);
    }
  }

  /**
   * One invite makes at most three join calls, one sleep per failed attempt,
   * and one join more than it sleeps exactly when it ends up joined.
   */
  lemma InviteBounds(room: RoomId, respond: nat -> JoinResult)
    ensures Count(InviteEffects(room, respond), IsJoin) <= MaxAttempts
    ensures Count(InviteEffects(room, respond), IsSleep) == LeadingFailures(respond, 0)
    ensures Count(InviteEffects(room, respond), IsJoin) ==
            Count(InviteEffects(room, respond), IsSleep) + (if JoinsFrom(respond, 0) then 1 else 0)
  {
    TriesClosedForm(room, respond, 0);
    var k := LeadingFailures(respond, 0);
    CountFailedTries(room, k);
    var tail: seq<Effect> := if k < MaxAttempts then [JoinCall(room)] else [];
    CountAppend(FailedTries(room, k), tail, IsJoin);
    CountAppend(FailedTries(room, k), tail, IsSleep);
    assert Count(tail, IsJoin) == |tail| && Count(tail, IsSleep) == 0 by {
      if tail != [] { assert tail[1..] == []; }
    }
  }

  /** Two failures then a success: joined, after exactly two one-second sleeps. */
  lemma TwoFailuresThenJoin(room: RoomId, respond: nat -> JoinResult)
    requires respond(0).JoinError? && respond(1).JoinError? && respond(2) == Joined
    ensures JoinsFrom(respond, 0)
    ensures InviteEffects(room, respond) ==
            [JoinCall(room), Sleep(1), JoinCall(room), Sleep(1), JoinCall(room)]
  {
  }

  /** Three failures: not joined, after three join calls and three sleeps, the last after the last attempt. */
  lemma ThreeFailures(room: RoomId, respond: nat -> JoinResult)
    requires respond(0).JoinError? && respond(1).JoinError? && respond(2).JoinError?
    ensures !JoinsFrom(respond, 0)
    ensures InviteEffects(room, respond) ==
            [JoinCall(room), Sleep(1), JoinCall(room), Sleep(1), JoinCall(room), Sleep(1)]
  {
  }
}
