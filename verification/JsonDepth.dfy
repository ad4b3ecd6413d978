/** The bound on the nesting of decoded JSON, checked by a walk that keeps a stack of iterators. */
module JsonDepth {
  import opened Common

  /** A decoded value; only the values of an object matter for its depth. */
  datatype Json = Scalar | Array(items: seq<Json>) | Object(items: seq<Json>)

  const MAX_DEPTH := 64

  function Max(a: nat, b: nat): nat {
    if a < b then b else a
  }

  /** How many containers enclose the deepest place of a value, itself included. */
  function Depth(value: Json): nat {
    if value.Scalar? then 0 else 1 + Deepest(value.items)
  }

  function Deepest(items: seq<Json>): nat {
    if items == [] then 0 else Max(Depth(items[0]), Deepest(items[1..]))
  }

  /** This many containers lie one within the other, the value itself the outermost. */
  ghost predicate Nested(value: Json, levels: nat)
    decreases levels
  {
    levels == 0 || (!value.Scalar? && (levels == 1 || exists i :: 0 <= i < |value.items| && Nested(value.items[i], levels - 1)))
  }

  /** The depth is the longest nesting. */
  lemma {:induction false} DepthIsNesting(value: Json, levels: nat)
    ensures Depth(value) >= levels <==> Nested(value, levels)
    decreases levels
  {
    if levels > 1 && !value.Scalar? {
      forall i | 0 <= i < |value.items| ensures Depth(value.items[i]) >= levels - 1 <==> Nested(value.items[i], levels - 1) {
        DepthIsNesting(value.items[i], levels - 1);
      }
      DeepestIsSome(value.items, levels - 1);
    }
  }

  lemma {:induction false} DeepestIsSome(items: seq<Json>, bound: nat)
    requires 0 < bound
    ensures Deepest(items) >= bound <==> exists i :: 0 <= i < |items| && Depth(items[i]) >= bound
  {
    if items != [] {
      DeepestIsSome(items[1..], bound);
      assert forall i :: 0 <= i < |items[1..]| ==> items[1..][i] == items[i + 1];
    }
  }

  /** An iterator is what it has yet to yield; frame i iterates over values that i containers enclose. */
  ghost function Reach(stack: seq<seq<Json>>): nat {
    if stack == [] then 0
    else Max(|stack| - 1 + Deepest(stack[|stack| - 1]), Reach(stack[..|stack| - 1]))
  }

  /** The work left: every value is taken once, every frame popped once. */
  ghost function Work(value: Json): nat {
    if value.Scalar? then 1 else 2 + WorkAll(value.items)
  }

  ghost function WorkAll(items: seq<Json>): nat {
    if items == [] then 0 else Work(items[0]) + WorkAll(items[1..])
  }

  ghost function WorkLeft(stack: seq<seq<Json>>): nat {
    if stack == [] then 0 else 1 + WorkAll(stack[|stack| - 1]) + WorkLeft(stack[..|stack| - 1])
  }

  /** The deepest place is one already reached or one still ahead. */
  ghost predicate Walks(stack: seq<seq<Json>>, peak: nat, depth: nat) {
    1 <= peak <= MAX_DEPTH + 1 && |stack| <= peak && Max(peak - 1, Reach(stack)) == depth
  }

  lemma SingletonDepth(value: Json)
    ensures Reach([[value]]) == Depth(value)
  {
    var items, stack := [value], [[value]];
    assert items[1..] == [] && Deepest(items) == Max(Depth(items[0]), Deepest(items[1..]));
    assert stack[..0] == [] && Reach(stack) == Max(Deepest(stack[0]), Reach(stack[..0]));
  }

  /** Taking the next value of the top iterator. */
  lemma Taken(stack: seq<seq<Json>>, item: Json, rest: seq<Json>)
    requires stack != [] && stack[|stack| - 1] == [item] + rest
    ensures var now := stack[..|stack| - 1] + [rest];
            && Reach(stack) == Max(|stack| - 1 + Depth(item), Reach(now))
            && WorkLeft(stack) == Work(item) + WorkLeft(now)
  {
    var below := stack[..|stack| - 1];
    assert (below + [rest])[..|below|] == below;
    assert ([item] + rest)[1..] == rest;
  }

  lemma Pushed(stack: seq<seq<Json>>, items: seq<Json>)
    ensures Reach(stack + [items]) == Max(|stack| + Deepest(items), Reach(stack))
    ensures WorkLeft(stack + [items]) == 1 + WorkAll(items) + WorkLeft(stack)
  {
    assert (stack + [items])[..|stack|] == stack;
  }

  lemma PopKeeps(stack: seq<seq<Json>>, peak: nat, depth: nat)
    requires Walks(stack, peak, depth) && stack != [] && stack[|stack| - 1] == []
    ensures Walks(stack[..|stack| - 1], peak, depth) && WorkLeft(stack[..|stack| - 1]) < WorkLeft(stack)
  {
  }

  lemma TakeKeeps(stack: seq<seq<Json>>, peak: nat, depth: nat, item: Json, rest: seq<Json>)
    requires Walks(stack, peak, depth) && stack != [] && stack[|stack| - 1] == [item] + rest
    ensures var now := stack[..|stack| - 1] + [rest];
            && (item.Scalar? ==> Walks(now, peak, depth) && WorkLeft(now) < WorkLeft(stack))
            && (!item.Scalar? && |stack| <= MAX_DEPTH ==>
                  Walks(now + [item.items], Max(peak, |stack| + 1), depth) && WorkLeft(now + [item.items]) < WorkLeft(stack))
            && (!item.Scalar? && |stack| > MAX_DEPTH ==> depth > MAX_DEPTH && peak == MAX_DEPTH + 1)
  {
    var now := stack[..|stack| - 1] + [rest];
    Taken(stack, item, rest);
    if !item.Scalar? {
      assert Depth(item) == 1 + Deepest(item.items) && Work(item) == 2 + WorkAll(item.items);
      Pushed(now, item.items);
    }
  }

  datatype TooDeep = TooDeep

  /** A value is returned exactly when its depth is within the bound; `peak` frames were needed at most. */
  method CheckDepth(value: Json) returns (r: Result<Json, TooDeep>, ghost peak: nat)
    ensures r == if Depth(value) <= 64 then Ok(value) else Err(TooDeep)
    ensures r.Err? <==> Nested(value, 65)
    ensures peak == 1 + if Depth(value) <= 64 then Depth(value) else 64
  {
    var stack: seq<seq<Json>> := [[value]];
    peak := 1;
    SingletonDepth(value);
    DepthIsNesting(value, 65);
    while stack != []
      invariant Walks(stack, peak, Depth(value))
      decreases WorkLeft(stack)
    {
      var top := stack[|stack| - 1];
      if top == [] {
        PopKeeps(stack, peak, Depth(value));
        stack := stack[..|stack| - 1];
      } else {
        var item, rest := top[0], top[1..];
        TakeKeeps(stack, peak, Depth(value), item, rest);
        stack := stack[..|stack| - 1] + [rest];
        if !item.Scalar? {
          if |stack| > MAX_DEPTH {
            return Err(TooDeep), peak;
          }
          stack := stack + [item.items];
          peak := Max(peak, |stack|);
        }
      }
    }
    r := Ok(value);
  }
}
