/** What a whole history of turns leaves in the slots, and why batching turns is harmless. */
module SlotHistory {
  import opened Schemas
  import opened Slots

  /** All the turns of a history merged one after the other. */
  function MergeAll(existing: SlotMap, history: seq<SlotMap>): SlotMap {
    if history == [] then existing
    else MergeSlots(MergeAll(existing, history[..|history| - 1]), history[|history| - 1])
  }

  /** What the turns say about one slot, in order. */
  function Track(history: seq<SlotMap>, k: SlotName): seq<Value> {
    seq(|history|, i requires 0 <= i < |history| => Get(history[i], k))
  }

  function FoldValue(start: Value, said: seq<Value>): Value {
    if said == [] then start
    else MergeValue(FoldValue(start, said[..|said| - 1]), said[|said| - 1])
  }

  predicate Speaks(said: seq<Value>, i: int) {
    0 <= i < |said| && said[i] != Null
  }

  /** A value that is not nested replaces whatever the slot held. */
  predicate Replaces(said: seq<Value>, i: int) {
    Speaks(said, i) && !said[i].Nested?
  }

  predicate LastToSpeak(said: seq<Value>, i: int) {
    Speaks(said, i) && forall j :: i < j < |said| ==> !Speaks(said, j)
  }

  /** The first nested mention after the last replacing one: where the nested value starts. */
  predicate Begins(said: seq<Value>, base: int) {
    && Speaks(said, base) && said[base].Nested?
    && (forall i :: base < i < |said| ==> !Replaces(said, i))
    && (forall i :: 0 <= i < base && Speaks(said, i) ==> exists j :: i <= j < base && Replaces(said, j))
  }

  predicate SpeaksPart(said: seq<Value>, i: int, part: Part) {
    Speaks(said, i) && said[i].Nested? && Get(said[i].parts, part) != Null
  }

  predicate LastToSpeakPart(said: seq<Value>, i: int, part: Part) {
    SpeaksPart(said, i, part) && forall j :: i < j < |said| ==> !SpeaksPart(said, j, part)
  }

  /** `parts` holds the last thing said about the part since turn `base`. */
  ghost predicate PartHolds(said: seq<Value>, base: int, parts: map<Part, Value>, part: Part)
    requires 0 <= base < |said| && said[base].Nested?
  {
    && (part in parts <==> part in said[base].parts || exists i :: base <= i < |said| && SpeaksPart(said, i, part))
    && (forall i :: base <= i < |said| && LastToSpeakPart(said, i, part) ==> Get(parts, part) == said[i].parts[part])
    && ((forall i :: base <= i < |said| ==> !SpeaksPart(said, i, part)) ==> Get(parts, part) == Null)
  }

  ghost predicate LastOfEachPart(said: seq<Value>, base: int, parts: map<Part, Value>)
    requires 0 <= base < |said| && said[base].Nested?
  {
    forall part :: PartHolds(said, base, parts, part)
  }

  lemma SomeoneIsLast(said: seq<Value>, i: int) returns (last: int)
    requires Speaks(said, i)
    ensures i <= last && LastToSpeak(said, last)
    decreases |said| - i
  {
    if j :| i < j < |said| && Speaks(said, j) {
      last := SomeoneIsLast(said, j);
    } else {
      last := i;
    }
  }

  /** The last value speaks of the part. */
  lemma PartSpoken(said: seq<Value>, base: int, part: Part, after: map<Part, Value>)
    requires 0 <= base < |said| && said[base].Nested? && SpeaksPart(said, |said| - 1, part)
    requires part in after && after[part] == said[|said| - 1].parts[part]
    ensures PartHolds(said, base, after, part)
  {
  }

  /** It does not: whoever was last to speak of it still is. */
  lemma PartUnspoken(said: seq<Value>, base: int, parts: map<Part, Value>, part: Part, after: map<Part, Value>)
    requires 0 <= base < |said| - 1 && said[base].Nested? && !SpeaksPart(said, |said| - 1, part)
    requires PartHolds(said[..|said| - 1], base, parts, part)
    requires (part in after <==> part in parts) && Get(after, part) == Get(parts, part)
    ensures PartHolds(said, base, after, part)
  {
    var before := said[..|said| - 1];
    assert forall i :: 0 <= i < |before| ==> (SpeaksPart(said, i, part) <==> SpeaksPart(before, i, part));
    forall i | base <= i < |said| && LastToSpeakPart(said, i, part) ensures Get(after, part) == said[i].parts[part] {
      assert LastToSpeakPart(before, i, part);
    }
  }

  lemma LastOfEachPartStep(said: seq<Value>, base: int, parts: map<Part, Value>)
    requires 0 <= base < |said| - 1 && said[base].Nested? && said[|said| - 1].Nested?
    requires LastOfEachPart(said[..|said| - 1], base, parts)
    ensures LastOfEachPart(said, base, Overlay(parts, said[|said| - 1].parts))
  {
    var newer := said[|said| - 1].parts;
    forall part ensures PartHolds(said, base, Overlay(parts, newer), part) {
      assert PartHolds(said[..|said| - 1], base, parts, part);
      if Get(newer, part) != Null {
        PartSpoken(said, base, part, Overlay(parts, newer));
      } else {
        PartUnspoken(said, base, parts, part, Overlay(parts, newer));
      }
    }
  }

  /** `held` is the last thing said: the last value when that is not nested, and otherwise
      the last value of each part since the nested value began. */
  ghost predicate HoldsLast(said: seq<Value>, held: Value) {
    && ((forall i :: 0 <= i < |said| ==> !Speaks(said, i)) ==> held == Null)
    && (forall i :: LastToSpeak(said, i) && !said[i].Nested? ==> held == said[i])
    && (forall i :: LastToSpeak(said, i) && said[i].Nested? ==> HoldsNested(said, held))
  }

  ghost predicate HoldsNested(said: seq<Value>, held: Value) {
    held.Nested? && exists base :: Begins(said, base) && LastOfEachPart(said, base, held.parts)
  }

  lemma {:induction false} FoldHoldsLast(said: seq<Value>)
    ensures HoldsLast(said, FoldValue(Null, said))
  {
    if said != [] {
      FoldHoldsLast(said[..|said| - 1]);
      HoldsLastStep(said, FoldValue(Null, said[..|said| - 1]));
    }
  }

  lemma SpeakersBefore(said: seq<Value>)
    requires said != []
    ensures forall i :: Speaks(said[..|said| - 1], i) ==> Speaks(said, i)
    ensures forall i :: i < |said| - 1 && Speaks(said, i) ==> Speaks(said[..|said| - 1], i)
  {
  }

  lemma HoldsLastStep(said: seq<Value>, held: Value)
    requires said != [] && HoldsLast(said[..|said| - 1], held)
    ensures HoldsLast(said, MergeValue(held, said[|said| - 1]))
  {
    if said[|said| - 1] == Null {
      NothingSaid(said, held);
    } else {
      SomethingSaid(said, held);
    }
  }

  lemma LastBefore(said: seq<Value>, i: int)
    requires said != [] && said[|said| - 1] == Null && LastToSpeak(said, i)
    ensures LastToSpeak(said[..|said| - 1], i)
  {
    var before := said[..|said| - 1];
    forall j | i < j < |before| ensures !Speaks(before, j) {
      assert !Speaks(said, j);
    }
  }

  lemma NestedThroughSilence(said: seq<Value>, held: Value)
    requires said != [] && said[|said| - 1] == Null
    requires HoldsNested(said[..|said| - 1], held)
    ensures HoldsNested(said, held)
  {
    var before := said[..|said| - 1];
    var base :| Begins(before, base) && LastOfEachPart(before, base, held.parts);
    BeginsStill(said, base);
    SilentStep(said, base, held.parts);
  }

  lemma NothingSaid(said: seq<Value>, held: Value)
    requires said != [] && HoldsLast(said[..|said| - 1], held)
    requires said[|said| - 1] == Null
    ensures HoldsLast(said, held)
  {
    SpeakersBefore(said);
    forall i | LastToSpeak(said, i)
      ensures if said[i].Nested? then HoldsNested(said, held) else held == said[i]
    {
      LastBefore(said, i);
      if said[i].Nested? {
        NestedThroughSilence(said, held);
      }
    }
  }

  lemma SomethingSaid(said: seq<Value>, held: Value)
    requires said != [] && HoldsLast(said[..|said| - 1], held)
    requires said[|said| - 1] != Null
    ensures HoldsLast(said, MergeValue(held, said[|said| - 1]))
  {
    var n := |said| - 1;
    assert Speaks(said, n);
    assert forall i :: LastToSpeak(said, i) <==> i == n;
    if said[n].Nested? {
      if held.Nested? {
        NestedOnNested(said, held);
      } else {
        NewBase(said, held);
      }
    }
  }

  lemma NestedOnNested(said: seq<Value>, held: Value)
    requires said != [] && HoldsLast(said[..|said| - 1], held)
    requires said[|said| - 1].Nested? && held.Nested?
    ensures HoldsNested(said, Nested(Overlay(held.parts, said[|said| - 1].parts)))
  {
    var before := said[..|said| - 1];
    NestedIsHeld(before, held);
    var base :| Begins(before, base) && LastOfEachPart(before, base, held.parts);
    BeginsStill(said, base);
    LastOfEachPartStep(said, base, held.parts);
  }

  lemma NestedIsHeld(said: seq<Value>, held: Value)
    requires HoldsLast(said, held) && held.Nested?
    ensures HoldsNested(said, held)
  {
    var i :| Speaks(said, i);
    var last := SomeoneIsLast(said, i);
  }

  lemma BeginsStill(said: seq<Value>, base: int)
    requires said != [] && Begins(said[..|said| - 1], base)
    requires said[|said| - 1] == Null || said[|said| - 1].Nested?
    ensures Begins(said, base)
  {
    var before := said[..|said| - 1];
    assert forall i :: 0 <= i < |before| ==> (Replaces(said, i) <==> Replaces(before, i));
    forall i | 0 <= i < base && Speaks(said, i) ensures exists j :: i <= j < base && Replaces(said, j) {
      assert Speaks(before, i);
      var j :| i <= j < base && Replaces(before, j);
      assert Replaces(said, j);
    }
  }

  lemma SilentStep(said: seq<Value>, base: int, parts: map<Part, Value>)
    requires said != [] && said[|said| - 1] == Null
    requires 0 <= base < |said| - 1 && said[base].Nested?
    requires LastOfEachPart(said[..|said| - 1], base, parts)
    ensures LastOfEachPart(said, base, parts)
  {
    forall part ensures PartHolds(said, base, parts, part) {
      assert PartHolds(said[..|said| - 1], base, parts, part);
      PartUnspoken(said, base, parts, part, parts);
    }
  }

  /** A nested value said when nothing nested is held starts a nested value of its own. */
  lemma NewBase(said: seq<Value>, held: Value)
    requires said != [] && said[|said| - 1].Nested?
    requires !held.Nested? && HoldsLast(said[..|said| - 1], held)
    ensures HoldsNested(said, said[|said| - 1])
  {
    var n := |said| - 1;
    forall i | 0 <= i < n && Speaks(said, i) ensures exists j :: i <= j < n && Replaces(said, j) {
      assert Speaks(said[..n], i);
      var last := SomeoneIsLast(said[..n], i);
      assert Replaces(said, last);
    }
    assert Begins(said, n);
    forall part ensures PartHolds(said, n, said[n].parts, part) {
      if Get(said[n].parts, part) != Null {
        assert SpeaksPart(said, n, part);
      }
    }
    assert LastOfEachPart(said, n, said[n].parts);
  }

  /** Merging turn by turn is, slot by slot, folding what was said about that slot. */
  lemma {:induction false} MergeAllTracks(existing: SlotMap, history: seq<SlotMap>, k: SlotName)
    ensures Get(MergeAll(existing, history), k) == FoldValue(Get(existing, k), Track(history, k))
    ensures k in MergeAll(existing, history) <==>
            k in existing || exists i :: Speaks(Track(history, k), i)
  {
    if history != [] {
      var n := |history| - 1;
      MergeAllTracks(existing, history[..n], k);
      MergedAt(MergeAll(existing, history[..n]), history[n], k);
      assert Track(history, k)[..n] == Track(history[..n], k);
      assert forall i :: 0 <= i < n ==> (Speaks(Track(history, k), i) <==> Speaks(Track(history[..n], k), i));
      if Get(history[n], k) != Null {
        assert Speaks(Track(history, k), n);
      }
    } else {
      assert Track(history, k) == [];
    }
  }

  /** From an empty conversation, a slot is present exactly when some turn spoke of it, and it
      holds the last thing said about it. */
  lemma SlotsHoldLastSaid(history: seq<SlotMap>, k: SlotName)
    ensures k in MergeAll(map[], history) <==> exists i :: Speaks(Track(history, k), i)
    ensures HoldsLast(Track(history, k), Get(MergeAll(map[], history), k))
  {
    MergeAllTracks(map[], history, k);
    FoldHoldsLast(Track(history, k));
  }

  // ---- Batching ----

  /** The one shape on which grouping matters: a scalar between two nested values, where the
      last one does not restate every part of the first. */
  predicate Clash(a: Value, b: Value, c: Value) {
    a.Nested? && b != Null && !b.Nested? && c.Nested? && Overlay(a.parts, c.parts) != c.parts
  }

  lemma SaidOverlay(y: map<Part, Value>, z: map<Part, Value>)
    ensures Said(Overlay(y, z)) == Said(y) + Said(z)
  {
  }

  lemma OverlayAssociative(x: map<Part, Value>, y: map<Part, Value>, z: map<Part, Value>)
    ensures Overlay(Overlay(x, y), z) == Overlay(x, Overlay(y, z))
  {
    SaidOverlay(y, z);
    assert (x + Said(y)) + Said(z) == x + (Said(y) + Said(z));
  }

  lemma ValueAssociativity(a: Value, b: Value, c: Value)
    ensures MergeValue(MergeValue(a, b), c) == MergeValue(a, MergeValue(b, c)) <==> !Clash(a, b, c)
  {
    if a.Nested? && b.Nested? && c.Nested? {
      OverlayAssociative(a.parts, b.parts, c.parts);
    }
  }

  lemma AssociativeAt(a: SlotMap, b: SlotMap, c: SlotMap, k: SlotName)
    ensures var left, right := MergeSlots(MergeSlots(a, b), c), MergeSlots(a, MergeSlots(b, c));
            && (Get(left, k) == Get(right, k) <==> !Clash(Get(a, k), Get(b, k), Get(c, k)))
            && (k in left <==> k in right)
  {
    MergedAt(a, b, k);
    MergedAt(MergeSlots(a, b), c, k);
    MergedAt(b, c, k);
    MergedAt(a, MergeSlots(b, c), k);
    ValueAssociativity(Get(a, k), Get(b, k), Get(c, k));
  }

  lemma SameSlots(left: SlotMap, right: SlotMap)
    requires forall k :: (k in left <==> k in right) && Get(left, k) == Get(right, k)
    ensures left == right
  {
    forall k | k in left ensures k in right && left[k] == right[k] {
      assert Get(left, k) == Get(right, k);
    }
  }

  /** Grouping turns does not matter exactly when no slot shows that shape. */
  lemma MergeAssociativeExactly(a: SlotMap, b: SlotMap, c: SlotMap)
    ensures MergeSlots(MergeSlots(a, b), c) == MergeSlots(a, MergeSlots(b, c))
            <==> forall k :: !Clash(Get(a, k), Get(b, k), Get(c, k))
  {
    if k :| Clash(Get(a, k), Get(b, k), Get(c, k)) {
      AssociativeAt(a, b, c, k);
    } else {
      forall k
        ensures var left, right := MergeSlots(MergeSlots(a, b), c), MergeSlots(a, MergeSlots(b, c));
                (k in left <==> k in right) && Get(left, k) == Get(right, k)
      {
        AssociativeAt(a, b, c, k);
      }
      SameSlots(MergeSlots(MergeSlots(a, b), c), MergeSlots(a, MergeSlots(b, c)));
    }
  }

  /** Each slot is always nested or never: what typed extraction guarantees. */
  predicate KindConsistent(m: SlotMap, nested: iset<SlotName>) {
    forall k :: k in m && m[k] != Null ==> (m[k].Nested? <==> k in nested)
  }

  lemma MergeKeepsKinds(a: SlotMap, b: SlotMap, nested: iset<SlotName>)
    requires KindConsistent(a, nested) && KindConsistent(b, nested)
    ensures KindConsistent(MergeSlots(a, b), nested)
  {
    forall k | k in MergeSlots(a, b) && MergeSlots(a, b)[k] != Null
      ensures MergeSlots(a, b)[k].Nested? <==> k in nested
    {
      MergedAt(a, b, k);
    }
  }

  lemma {:induction false} HistoryKeepsKinds(existing: SlotMap, turns: seq<SlotMap>, nested: iset<SlotName>)
    requires KindConsistent(existing, nested)
    requires forall i :: 0 <= i < |turns| ==> KindConsistent(turns[i], nested)
    ensures KindConsistent(MergeAll(existing, turns), nested)
  {
    if turns != [] {
      var n := |turns| - 1;
      HistoryKeepsKinds(existing, turns[..n], nested);
      MergeKeepsKinds(MergeAll(existing, turns[..n]), turns[n], nested);
    }
  }

  /** However the turns of a kind-consistent history are batched, the slots end the same. */
  lemma {:induction false} BatchingIsHarmless(existing: SlotMap, earlier: seq<SlotMap>, later: seq<SlotMap>, nested: iset<SlotName>)
    requires KindConsistent(existing, nested)
    requires forall i :: 0 <= i < |earlier| ==> KindConsistent(earlier[i], nested)
    requires forall i :: 0 <= i < |later| ==> KindConsistent(later[i], nested)
    ensures MergeAll(existing, earlier + later) ==
            MergeSlots(MergeAll(existing, earlier), MergeAll(map[], later))
    ensures KindConsistent(MergeAll(existing, earlier), nested)
    ensures KindConsistent(MergeAll(map[], later), nested)
    decreases |earlier| + |later|
  {
    if later != [] {
      var n := |later| - 1;
      var so := MergeAll(existing, earlier);
      BatchingIsHarmless(existing, earlier, later[..n], nested);
      assert (earlier + later)[..|earlier + later| - 1] == earlier + later[..n];
      MergeAssociativeExactly(so, MergeAll(map[], later[..n]), later[n]);
      MergeKeepsKinds(MergeAll(map[], later[..n]), later[n], nested);
    } else {
      assert earlier + later == earlier;
      assert MergeSlots(MergeAll(existing, earlier), map[]) == MergeAll(existing, earlier);
      HistoryKeepsKinds(existing, earlier, nested);
    }
  }
}
