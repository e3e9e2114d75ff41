/** The per-worker objects of the bundle each keep one nullable slot that some
    lifecycle events overwrite and the others leave alone: the stopwatch event
    of the log subscriber and the payload of the payload log processor. This
    module replays a sequence of such events on a fresh object and proves which
    event decides what the slot holds afterwards. */
module Lifecycle {
  import opened Values

  /** What handling one event does to the slot: leave it, or overwrite it. */
  datatype Effect<V> = Keep | Put(slot: Option<V>)

  predicate Stores<V>(e: Effect<V>) { e.Put? && e.slot.Some? }

  predicate Clears<V>(e: Effect<V>) { e.Put? && e.slot.None? }

  /** The slot after handling one event whose effect is `e`. */
  function Apply<V>(slot: Option<V>, e: Effect<V>): Option<V> {
    match e
    case Keep => slot
    case Put(v) => v
  }

  /** The slot of a fresh object (an empty slot) after handling the events of
      `trace` one after the other. */
  function Replay<E, V>(effect: E -> Effect<V>, trace: seq<E>): Option<V>
    decreases |trace|
  {
    if trace == [] then None
    else Apply(Replay(effect, trace[..|trace| - 1]), effect(trace[|trace| - 1]))
  }

  /** Replaying one more event applies that event's effect to the slot the
      earlier events left. */
  lemma ReplaySnoc<E, V>(effect: E -> Effect<V>, trace: seq<E>, e: E)
    ensures Replay(effect, trace + [e]) == Apply(Replay(effect, trace), effect(e))
  {
    assert (trace + [e])[..|trace|] == trace;
  }

  /** The last event that overwrites the slot decides what it holds. */
  lemma {:induction false} LastPutWins<E, V>(effect: E -> Effect<V>, before: seq<E>, e: E, after: seq<E>)
    requires effect(e).Put?
    requires forall i :: 0 <= i < |after| ==> effect(after[i]).Keep?
    ensures Replay(effect, before + [e] + after) == effect(e).slot
    decreases |after|
  {
    var t := before + [e] + after;
    if after == [] {
      assert t[..|t| - 1] == before;
    } else {
      var shorter := after[..|after| - 1];
      assert t[..|t| - 1] == before + [e] + shorter;
      assert t[|t| - 1] == after[|after| - 1];
      LastPutWins(effect, before, e, shorter);
    }
  }

  /** Once the slot is cleared it stays empty until an event stores a value. */
  lemma {:induction false} StaysClear<E, V>(effect: E -> Effect<V>, before: seq<E>, e: E, after: seq<E>)
    requires Clears(effect(e))
    requires forall i :: 0 <= i < |after| ==> !Stores(effect(after[i]))
    ensures Replay(effect, before + [e] + after) == None
    decreases |after|
  {
    var t := before + [e] + after;
    if after == [] {
      assert t[..|t| - 1] == before;
    } else {
      var shorter := after[..|after| - 1];
      assert t[..|t| - 1] == before + [e] + shorter;
      assert t[|t| - 1] == after[|after| - 1];
      StaysClear(effect, before, e, shorter);
    }
  }

  /** Once a value is stored the slot stays non-empty until an event clears it. */
  lemma {:induction false} StaysSet<E, V>(effect: E -> Effect<V>, before: seq<E>, e: E, after: seq<E>)
    requires Stores(effect(e))
    requires forall i :: 0 <= i < |after| ==> !Clears(effect(after[i]))
    ensures Replay(effect, before + [e] + after).Some?
    decreases |after|
  {
    var t := before + [e] + after;
    if after == [] {
      assert t[..|t| - 1] == before;
    } else {
      var shorter := after[..|after| - 1];
      assert t[..|t| - 1] == before + [e] + shorter;
      assert t[|t| - 1] == after[|after| - 1];
      StaysSet(effect, before, e, shorter);
    }
  }

  /** A slot that no event ever stored into is empty. */
  lemma {:induction false} NeverStoredIsEmpty<E, V>(effect: E -> Effect<V>, trace: seq<E>)
    requires forall i :: 0 <= i < |trace| ==> !Stores(effect(trace[i]))
    ensures Replay(effect, trace) == None
    decreases |trace|
  {
    if trace != [] {
      var shorter := trace[..|trace| - 1];
      assert forall i :: 0 <= i < |shorter| ==> shorter[i] == trace[i];
      NeverStoredIsEmpty(effect, shorter);
    }
  }
}
