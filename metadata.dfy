/**
 * Log metadata: a JavaScript object whose properties are strings, kept as an
 * ordered list of (key, value) pairs because property order is visible in the
 * JSON a log line carries. `Assign` is `Object.assign` restricted to such objects.
 */
module Metadata {
  import opened Wrappers

  type Entries = seq<(string, string)>

  /** The property names, in insertion order. */
  function Keys(m: Entries): seq<string> {
    if m == [] then [] else [m[0].0] + Keys(m[1..])
  }

  /** A JavaScript object never holds the same property twice. */
  predicate UniqueKeys(m: Entries) {
    m == [] || (m[0].0 !in Keys(m[1..]) && UniqueKeys(m[1..]))
  }

  /** Property read `m[k]`; `None` stands for `undefined`. */
  function Lookup(m: Entries, k: string): (r: Option<string>)
    ensures r.Some? <==> k in Keys(m)
    ensures r.Some? ==> (k, r.value) in m
  {
    if m == [] then None
    else if m[0].0 == k then Some(m[0].1)
    else Lookup(m[1..], k)
  }

  /** The keys of `ks` that are not in `present`, in their order in `ks`. */
  function Absent(ks: seq<string>, present: seq<string>): (r: seq<string>)
    ensures forall k :: k in r <==> k in ks && k !in present
  {
    if ks == [] then []
    else if ks[0] in present then Absent(ks[1..], present)
    else [ks[0]] + Absent(ks[1..], present)
  }

  /**
   * Property write `m[k] = v`: an existing property keeps its place and takes
   * the new value, a new property goes last.
   */
  function Put(m: Entries, k: string, v: string): (r: Entries)
    ensures Keys(r) == if k in Keys(m) then Keys(m) else Keys(m) + [k]
    ensures UniqueKeys(m) ==> UniqueKeys(r)
  {
    if m == [] then [(k, v)]
    else if m[0].0 == k then [(k, v)] + m[1..]
    else
      var rest := Put(m[1..], k, v);
      assert ([m[0]] + rest)[1..] == rest;
      [m[0]] + rest
  }

  /** After `m[k] = v`, `m[k]` reads `v` and every other property reads as before. */
  lemma {:induction false} PutLookup(m: Entries, k: string, v: string, j: string)
    ensures Lookup(Put(m, k, v), j) == if j == k then Some(v) else Lookup(m, j)
  {
    if m != [] && m[0].0 != k {
      PutLookup(m[1..], k, v, j);
      assert ([m[0]] + Put(m[1..], k, v))[1..] == Put(m[1..], k, v);
    } else if m != [] {
      assert ([(k, v)] + m[1..])[1..] == m[1..];
    }
  }

  /** `Object.assign(target, source)`: the properties of `source`, in order, written into `target`. */
  function Assign(target: Entries, source: Entries): (r: Entries)
    ensures forall k :: k in Keys(r) <==> k in Keys(target) || k in Keys(source)
    decreases |source|
  {
    if source == [] then target
    else Assign(Put(target, source[0].0, source[0].1), source[1..])
  }

  // ----- helpers about Keys -----

  lemma {:induction false} KeysAppend(a: Entries, b: Entries)
    ensures Keys(a + b) == Keys(a) + Keys(b)
  {
    if a == [] {
      assert a + b == b;
    } else {
      assert (a + b)[0] == a[0];
      assert (a + b)[1..] == a[1..] + b;
      KeysAppend(a[1..], b);
    }
  }

  lemma {:induction false} AbsentSkips(ks: seq<string>, present: seq<string>, k: string)
    requires k !in ks
    ensures Absent(ks, present + [k]) == Absent(ks, present)
  {
    if ks != [] {
      AbsentSkips(ks[1..], present, k);
    }
  }

  // ----- Object.assign -----

  /**
   * Reading a merged property: a key of `source` reads the source value (the
   * source wins a collision), any other key reads what `target` had.
   */
  lemma {:induction false} AssignLookup(target: Entries, source: Entries, k: string)
    requires UniqueKeys(source)
    ensures Lookup(Assign(target, source), k) ==
            if k in Keys(source) then Lookup(source, k) else Lookup(target, k)
    decreases |source|
  {
    if source != [] {
      PutLookup(target, source[0].0, source[0].1, k);
      AssignLookup(Put(target, source[0].0, source[0].1), source[1..], k);
    }
  }

  /**
   * Key order after a merge: the target's keys, in their order, then the
   * source keys the target did not have, in source order.
   */
  lemma {:induction false} AssignKeys(target: Entries, source: Entries)
    requires UniqueKeys(source)
    ensures Keys(Assign(target, source)) == Keys(target) + Absent(Keys(source), Keys(target))
    decreases |source|
  {
    if source != [] {
      var k := source[0].0;
      var t' := Put(target, k, source[0].1);
      AssignKeys(t', source[1..]);
      assert Keys(source) == [k] + Keys(source[1..]);
      if k !in Keys(target) {
        AbsentSkips(Keys(source[1..]), Keys(target), k);
      }
    }
  }

  /** Merging never creates a duplicate property. */
  lemma {:induction false} AssignUnique(target: Entries, source: Entries)
    requires UniqueKeys(target)
    ensures UniqueKeys(Assign(target, source))
    decreases |source|
  {
    if source != [] {
      AssignUnique(Put(target, source[0].0, source[0].1), source[1..]);
    }
  }

  /** Merging into `{}` copies the source, order included. */
  lemma {:induction false} AssignIntoEmpty(source: Entries)
    requires UniqueKeys(source)
    ensures Assign([], source) == source
  {
    AssignDisjoint([], source);
  }

  lemma {:induction false} AssignDisjoint(target: Entries, source: Entries)
    requires UniqueKeys(source)
    requires forall k :: k in Keys(source) ==> k !in Keys(target)
    ensures Assign(target, source) == target + source
    decreases |source|
  {
    if source != [] {
      var kv, rest := source[0], source[1..];
      assert Keys(source) == [kv.0] + Keys(rest);
      assert kv.0 !in Keys(target);
      var t' := target + [kv];
      assert Assign(target, source) == Assign(t', rest) by {
        PutAbsent(target, kv.0, kv.1);
      }
      assert Keys(t') == Keys(target) + [kv.0] by {
        KeysAppend(target, [kv]);
      }
      assert forall k :: k in Keys(rest) ==> k !in Keys(t') by {
        forall k | k in Keys(rest)
          ensures k !in Keys(t')
        {
          assert k in Keys(source);
        }
      }
      AssignDisjoint(t', rest);
      AppendFirst(target, source);
    }
  }

  /** Moving the first source entry onto the end of the target leaves the concatenation unchanged. */
  lemma AppendFirst(target: Entries, source: Entries)
    requires source != []
    ensures (target + [source[0]]) + source[1..] == target + source
  {
    assert source == [source[0]] + source[1..];
  }

  lemma {:induction false} PutAbsent(m: Entries, k: string, v: string)
    requires k !in Keys(m)
    ensures Put(m, k, v) == m + [(k, v)]
  {
    if m != [] {
      PutAbsent(m[1..], k, v);
      assert [m[0]] + (m[1..] + [(k, v)]) == m + [(k, v)];
    }
  }

  /** A stored entry's key is among the keys. */
  lemma {:induction false} EntryKey(m: Entries, kv: (string, string))
    requires kv in m
    ensures kv.0 in Keys(m)
  {
    if m[0] != kv {
      EntryKey(m[1..], kv);
    }
  }

  /** Writing back a value the object already holds changes nothing. */
  lemma {:induction false} PutPresent(m: Entries, k: string, v: string)
    requires UniqueKeys(m) && (k, v) in m
    ensures Put(m, k, v) == m
  {
    if m[0].0 == k {
      if m[0] != (k, v) {
        EntryKey(m[1..], (k, v));
      }
    } else {
      PutPresent(m[1..], k, v);
    }
  }

  /** Assigning entries the target already holds leaves the target as it is. */
  lemma {:induction false} AssignPresent(target: Entries, source: Entries)
    requires UniqueKeys(target)
    requires forall kv :: kv in source ==> kv in target
    ensures Assign(target, source) == target
    decreases |source|
  {
    if source != [] {
      PutPresent(target, source[0].0, source[0].1);
      AssignPresent(target, source[1..]);
    }
  }

  /** `Object.assign(o, o)` leaves `o` as it is. */
  lemma {:induction false} AssignSelf(c: Entries)
    requires UniqueKeys(c)
    ensures Assign(c, c) == c
  {
    AssignPresent(c, c);
  }

  /**
   * A mutable metadata object. Log calls merge into the caller's own object,
   * so the object, not a copy, is what they change.
   */
  class MetadataObject {
    var entries: Entries

    constructor (entries: Entries)
      ensures this.entries == entries
    {
      this.entries := entries;
    }

    /** `Object.assign(this, source)`. */
    method AssignFrom(source: Entries)
      modifies this
      ensures entries == Assign(old(entries), source)
      ensures UniqueKeys(old(entries)) ==> UniqueKeys(entries)
    {
      if UniqueKeys(entries) {
        AssignUnique(entries, source);
      }
      entries := Assign(entries, source);
    }
  }
}
