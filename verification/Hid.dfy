/** Keyboard and pointer actions as they are posted to the device. */
module Hid {
  import opened Common

  datatype Action =
    | Wait(ms: nat)
    | KeyDown(code: string)
    | KeyUp(code: string)
    | Combo(modifiers: seq<string>, keys: seq<string>)
    | Pointer
    | ReleaseAll

  /** At most this many actions go into one post. */
  const BATCH := 63

  /** The consecutive slices that are posted one by one. */
  function Batches(actions: seq<Action>): seq<seq<Action>>
    decreases |actions|
  {
    if actions == [] then []
    else if |actions| <= BATCH then [actions]
    else [actions[..BATCH]] + Batches(actions[BATCH..])
  }

  /** The slices lose nothing, and each fits into a post. */
  lemma {:induction false} BatchesJoin(actions: seq<Action>)
    ensures Concat(Batches(actions)) == actions
    ensures forall b :: b in Batches(actions) ==> 1 <= |b| <= BATCH
    decreases |actions|
  {
    if |actions| > BATCH {
      BatchesJoin(actions[BATCH..]);
      assert Batches(actions)[1..] == Batches(actions[BATCH..]);
      assert actions[..BATCH] + actions[BATCH..] == actions;
    } else if actions != [] {
      assert Batches(actions)[1..] == [];
      assert actions + [] == actions;
    }
  }

  /** Every slice but the last is full, with 63 actions, so there are as few posts as possible. */
  lemma {:induction false} BatchesAreFull(actions: seq<Action>, i: nat)
    requires i < |Batches(actions)|
    ensures if i + 1 < |Batches(actions)| then |Batches(actions)[i]| == 63 else 1 <= |Batches(actions)[i]| <= 63
    decreases |actions|
  {
    if |actions| > BATCH && i > 0 { BatchesAreFull(actions[BATCH..], i - 1); }
  }

  /** The keys that are down after one more action; a combination releases what it presses. */
  function Press(held: set<string>, action: Action): set<string> {
    match action
    case KeyDown(code) => held + {code}
    case KeyUp(code) => held - {code}
    case ReleaseAll => {}
    case _ => held
  }

  function PressAll(held: set<string>, actions: seq<Action>): set<string>
    decreases |actions|
  {
    if actions == [] then held else PressAll(Press(held, actions[0]), actions[1..])
  }

  predicate EndsReleased(actions: seq<Action>) {
    actions != [] && actions[|actions| - 1] == ReleaseAll
  }

  lemma {:induction false} ReleasedHoldsNothing(held: set<string>, actions: seq<Action>)
    requires EndsReleased(actions)
    ensures PressAll(held, actions) == {}
    decreases |actions|
  {
    if |actions| > 1 { ReleasedHoldsNothing(Press(held, actions[0]), actions[1..]); }
  }

  lemma {:induction false} LastBatchReleases(actions: seq<Action>)
    requires EndsReleased(actions)
    ensures var b := Batches(actions); b != [] && EndsReleased(b[|b| - 1])
    decreases |actions|
  {
    if |actions| > BATCH { LastBatchReleases(actions[BATCH..]); }
  }
}
