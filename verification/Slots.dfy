/** Captured slot values and the merge that accumulates them turn after turn. */
module Slots {
  import opened Schemas

  /** Keys of the nested (budget, passengers) values. */
  datatype Part = Amount | DeferToAdvisor | Adults | MinorsMentioned | MinorAges | OtherPart(key: string)

  /** A JSON-like value. `Null` is the value of a key that is absent or explicitly null. */
  datatype Value =
    | Null
    | Text(text: string)
    | Whole(number: int)
    | Truth(truth: bool)
    | Ages(ages: seq<int>)
    | Nested(parts: map<Part, Value>)

  type SlotMap = map<SlotName, Value>

  function Get<K>(m: map<K, Value>, k: K): Value {
    if k in m then m[k] else Null
  }

  /** The entries that say something: those that are not null. */
  function Said<K(!new)>(m: map<K, Value>): map<K, Value> {
    map k | k in m && m[k] != Null :: m[k]
  }

  /** Two nested values: the non-null parts of the newer one replace the older ones. */
  function Overlay(older: map<Part, Value>, newer: map<Part, Value>): map<Part, Value> {
    older + Said(newer)
  }

  function MergeValue(older: Value, newer: Value): Value {
    if newer == Null then older
    else if newer.Nested? && older.Nested? then Nested(Overlay(older.parts, newer.parts))
    else newer
  }

  function Revised(existing: SlotMap, said: SlotMap): SlotMap {
    map k | k in said :: MergeValue(Get(existing, k), said[k])
  }

  /** The slots after a turn that extracted `filled`. */
  function MergeSlots(existing: SlotMap, filled: SlotMap): SlotMap {
    existing + Revised(existing, Said(filled))
  }

  lemma MergedAt(existing: SlotMap, filled: SlotMap, k: SlotName)
    ensures Get(MergeSlots(existing, filled), k) == MergeValue(Get(existing, k), Get(filled, k))
    ensures k in MergeSlots(existing, filled) <==> k in existing || Get(filled, k) != Null
  {
  }

  // ---- The loops of the merge ----

  /** The entries already walked: those whose key is not among the keys left. */
  function Walked<K(!new)>(m: map<K, Value>, left: set<K>): map<K, Value> {
    map k | k in m && k !in left :: m[k]
  }

  lemma WalkedOneMore<K(!new)>(m: map<K, Value>, left: set<K>, key: K)
    requires key in left && key in m
    ensures Walked(m, left - {key}) == Walked(m, left)[key := m[key]]
    ensures key !in Walked(m, left)
  {
  }

  lemma SaidOneMore<K(!new)>(done: map<K, Value>, key: K, value: Value)
    requires key !in done
    ensures Said(done[key := value]) == if value == Null then Said(done) else Said(done)[key := value]
  {
  }

  lemma RevisedOneMore(existing: SlotMap, said: SlotMap, name: SlotName, value: Value)
    requires name !in said
    ensures Revised(existing, said[name := value]) ==
            Revised(existing, said)[name := MergeValue(Get(existing, name), value)]
  {
  }

  lemma MergeOneMore(existing: SlotMap, filled: SlotMap, left: set<SlotName>, name: SlotName)
    requires name in left && name in filled
    ensures var soFar := MergeSlots(existing, Walked(filled, left));
            && Get(soFar, name) == Get(existing, name)
            && MergeSlots(existing, Walked(filled, left - {name})) ==
               if filled[name] == Null then soFar
               else soFar[name := MergeValue(Get(existing, name), filled[name])]
  {
    WalkedOneMore(filled, left, name);
    SaidOneMore(Walked(filled, left), name, filled[name]);
    if filled[name] != Null {
      RevisedOneMore(existing, Said(Walked(filled, left)), name, filled[name]);
    }
  }

  lemma OverlayOneMore(older: map<Part, Value>, newer: map<Part, Value>, left: set<Part>, key: Part)
    requires key in left && key in newer
    ensures Overlay(older, Walked(newer, left - {key})) ==
            if newer[key] == Null then Overlay(older, Walked(newer, left))
            else Overlay(older, Walked(newer, left))[key := newer[key]]
  {
    WalkedOneMore(newer, left, key);
    SaidOneMore(Walked(newer, left), key, newer[key]);
  }

  lemma AllWalked<K(!new)>(m: map<K, Value>)
    ensures Walked(m, {}) == m && Walked(m, m.Keys) == map[]
  {
  }

  /** The outer loop, whatever order the dictionary is walked in. */
  method MergeByLoop(existing: SlotMap, filled: SlotMap) returns (merged: SlotMap)
    ensures merged == MergeSlots(existing, filled)
  {
    merged := existing;
    var left := filled.Keys;
    AllWalked(filled);
    while left != {}
      invariant left <= filled.Keys
      invariant merged == MergeSlots(existing, Walked(filled, left))
      decreases left
    {
      var name :| name in left;
      MergeOneMore(existing, filled, left, name);
      left := left - {name};
      var value := filled[name];
      if value != Null {
        var current := Get(merged, name);
        if value.Nested? && current.Nested? {
          var combined := MergeParts(current.parts, value.parts);
          merged := merged[name := Nested(combined)];
        } else {
          merged := merged[name := value];
        }
      }
    }
  }

  /** The inner loop over the parts of a nested value. */
  method MergeParts(older: map<Part, Value>, newer: map<Part, Value>) returns (combined: map<Part, Value>)
    ensures combined == Overlay(older, newer)
  {
    combined := older;
    var left := newer.Keys;
    AllWalked(newer);
    while left != {}
      invariant left <= newer.Keys
      invariant combined == Overlay(older, Walked(newer, left))
      decreases left
    {
      var key :| key in left;
      OverlayOneMore(older, newer, left, key);
      left := left - {key};
      if newer[key] != Null {
        combined := combined[key := newer[key]];
      }
    }
  }
}
