/**
 * Suspended card effects (dominion.py, `play_action`). The source runs each
 * played action as a Python generator that stops at `yield` until the
 * player answers; here a suspended effect is a frame naming the player,
 * the point where it waits and the data it keeps there. A Throne Room runs
 * the effects it replays as inner generators, so the frames form a stack
 * whose top is the innermost effect, the one the next answer goes to.
 */
module Frames {
  import opened Cards

  datatype Point =
    | CellarDiscard
    | ChapelTrash
    | ChancellorChoice
    | WorkshopGain
    | FeastGain
      /** Waiting for `victim` to discard; the other opponents in `rest` come next. */
    | MilitiaDiscard(victim: nat, rest: seq<nat>)
    | RemodelPick
    | RemodelGain(budget: int)
      /** Waiting to decide about the card `seen` on top of `target`'s deck. */
    | SpyChoice(target: nat, rest: seq<nat>, seen: Name)
      /** Waiting to choose which of two revealed treasures `victim` trashes. */
    | ThiefPick(victim: nat, rest: seq<nat>, revealed: seq<Card>)
      /** Waiting to decide whether to take the trashed treasure. */
    | ThiefGain(rest: seq<nat>, taken: Name)
    | ThroneSelect
      /** A Throne Room waiting for the first play of `replay` to finish. */
    | ThroneFirst(replay: Name)
      /** A Throne Room waiting for the second play to finish. */
    | ThroneSecond
      /** Waiting to decide whether to set the drawn action card aside. */
    | LibraryChoice(setAside: seq<Card>, drawn: Card)
    | MinePick
    | MineGain(budget: int)

  datatype Frame = Frame(actor: nat, point: Point)

  /** A Throne Room frame waits for an inner effect, never for an answer. */
  predicate Waiting(f: Frame)
  {
    f.point.ThroneFirst? || f.point.ThroneSecond?
  }

  /** The cards a suspended effect holds in its local variables. */
  function Held(f: Frame): multiset<Card>
  {
    match f.point
    case ThiefPick(_, _, revealed) => multiset(revealed)
    case LibraryChoice(setAside, drawn) => multiset(setAside) + multiset{drawn}
    case _ => multiset{}
  }

  /** The cards held by all suspended effects. */
  function HeldBy(stack: seq<Frame>): multiset<Card>
  {
    if stack == [] then multiset{} else HeldBy(stack[..|stack| - 1]) + Held(stack[|stack| - 1])
  }

  predicate SeatsBelow(seats: seq<nat>, n: nat)
  {
    forall i :: 0 <= i < |seats| ==> seats[i] < n
  }

  /**
   * Every player a frame names is one of the `n` players, and a Thief
   * choosing between treasures holds exactly two.
   */
  predicate FrameOk(f: Frame, n: nat)
  {
    f.actor < n &&
    match f.point
    case MilitiaDiscard(victim, rest) => victim < n && SeatsBelow(rest, n)
    case SpyChoice(target, rest, _) => target < n && SeatsBelow(rest, n)
    case ThiefPick(victim, rest, revealed) => victim < n && SeatsBelow(rest, n) && |revealed| == 2
    case ThiefGain(rest, _) => SeatsBelow(rest, n)
    case _ => true
  }

  /**
   * A well-formed stack: its frames name real players, and every frame
   * below the top is a Throne Room waiting for the effect above it.
   */
  predicate StackOk(stack: seq<Frame>, n: nat)
  {
    (forall i :: 0 <= i < |stack| ==> FrameOk(stack[i], n)) &&
    (forall i :: 0 <= i < |stack| - 1 ==> Waiting(stack[i]))
  }

  /** The top of the stack waits for an answer (or there is nothing to resume). */
  predicate Settled(stack: seq<Frame>)
  {
    stack == [] || !Waiting(stack[|stack| - 1])
  }

  /**
   * How much Throne Room work is left before the stack is settled: a
   * waiting top counts two per frame, plus one when its second play has
   * not started.
   */
  function Pending(stack: seq<Frame>): nat
  {
    if Settled(stack) then 0
    else 2 * |stack| + (if stack[|stack| - 1].point.ThroneFirst? then 1 else 0)
  }

  /** Pushing a frame on a stack adds the cards it holds. */
  lemma PushHeld(stack: seq<Frame>, f: Frame)
    ensures HeldBy(stack + [f]) == HeldBy(stack) + Held(f)
  {
    assert (stack + [f])[..|stack|] == stack;
  }

  /** Pushing keeps a stack well formed when the old top was waiting. */
  lemma PushOk(stack: seq<Frame>, f: Frame, n: nat)
    requires StackOk(stack, n) && FrameOk(f, n)
    requires stack == [] || Waiting(stack[|stack| - 1])
    ensures StackOk(stack + [f], n)
  {
  }

  /** Popping keeps a stack well formed. */
  lemma PopOk(stack: seq<Frame>, n: nat)
    requires StackOk(stack, n) && stack != []
    ensures StackOk(stack[..|stack| - 1], n)
  {
  }

  /** Replacing the top frame by a Throne Room's next step strictly lowers the pending work. */
  lemma ThroneProgress(stack: seq<Frame>, actor: nat)
    requires stack != [] && stack[|stack| - 1].point.ThroneFirst?
    ensures Pending(stack[..|stack| - 1] + [Frame(actor, ThroneSecond)]) < Pending(stack)
  {
  }

  /** Finishing a Throne Room strictly lowers the pending work. */
  lemma ThroneDone(stack: seq<Frame>)
    requires stack != [] && stack[|stack| - 1].point.ThroneSecond?
    ensures Pending(stack[..|stack| - 1]) < Pending(stack)
  {
  }
}
