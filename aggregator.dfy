/** The per-user statistics: the same computation appears in the in-memory server
    (`GET /api/stats`), in the notes service (`getUserStats`) and, reduced to three
    numbers, in the dashboard's statistics tiles. It only looks at each note's
    category and priority. */
module Aggregator {
  import opened Seqs

  /** The two attributes of a note that the statistics read. */
  datatype Tag = Tag(category: string, priority: string)

  /** The `byPriority` object: one count per fixed priority level. */
  datatype PriorityCounts = PriorityCounts(High: nat, Medium: nat, Low: nat)

  datatype Stats = Stats(
    totalNotes: nat,
    highPriority: nat,
    categories: nat,
    byCategory: map<string, nat>,
    byPriority: PriorityCounts)

  function HasPriority(level: string): Tag -> bool
  {
    (t: Tag) => t.priority == level
  }

  /** `notes.map(n => ({ category: n.category, priority: n.priority }))`: the part of
      each note the statistics read. */
  function TagsOf<N>(notes: seq<N>, tagOf: N --> Tag): (tags: seq<Tag>)
    requires forall i :: 0 <= i < |notes| ==> tagOf.requires(notes[i])
    ensures |tags| == |notes|
    ensures forall i :: 0 <= i < |notes| ==> tags[i] == tagOf(notes[i])
  {
    seq(|notes|, i requires 0 <= i < |notes| => tagOf(notes[i]))
  }

  /** `notes.filter(n => n.priority === level).length` */
  function PriorityCount(tags: seq<Tag>, level: string): (n: nat)
    ensures n <= |tags|
    ensures n == 0 <==> forall i :: 0 <= i < |tags| ==> tags[i].priority != level
  {
    var kept := Filter(tags, HasPriority(level));
    assert forall i :: 0 <= i < |tags| ==> (HasPriority(level)(tags[i]) <==> tags[i].priority == level);
    assert kept != [] ==> kept[0] in tags;
    |kept|
  }

  /** `notes.map(n => n.category)` */
  function Categories(tags: seq<Tag>): (cats: seq<string>)
    ensures |cats| == |tags|
    ensures forall i :: 0 <= i < |tags| ==> cats[i] == tags[i].category
  {
    seq(|tags|, i requires 0 <= i < |tags| => tags[i].category)
  }

  /** `[...new Set(notes.map(n => n.category))].length` */
  function CategoryCount(tags: seq<Tag>): (n: nat)
    ensures n <= |tags|
    ensures n == 0 <==> tags == []
  {
    var cats := Categories(tags);
    assert tags != [] ==> cats[0] in Distinct(cats);
    |Distinct(cats)|
  }

  /** One step of the `forEach` over the notes:
      `byCategory[c] = (byCategory[c] || 0) + 1`. */
  function Bump(byCategory: map<string, nat>, c: string): map<string, nat>
  {
    byCategory[c := (if c in byCategory then byCategory[c] else 0) + 1]
  }

  /** The `byCategory` object after the `forEach` has visited every element of `cats`, in order. */
  function Tally(cats: seq<string>): (byCategory: map<string, nat>)
    ensures forall c :: c in byCategory ==> 1 <= byCategory[c] <= |cats|
  {
    if cats == [] then map[] else Bump(Tally(cats[..|cats| - 1]), cats[|cats| - 1])
  }

  /** How many times `c` occurs in `cats`. */
  function Occurrences(cats: seq<string>, c: string): nat
  {
    |Filter(cats, (x: string) => x == c)|
  }

  /** The sum of `m`'s values at the keys listed in `keys` (0 for a key not in `m`). */
  function SumOver(m: map<string, nat>, keys: seq<string>): nat
  {
    if keys == [] then 0
    else
      var k := keys[|keys| - 1];
      SumOver(m, keys[..|keys| - 1]) + (if k in m then m[k] else 0)
  }

  /** The full statistics record for a user's notes. */
  function Summarize(tags: seq<Tag>): (s: Stats)
    ensures s.totalNotes == |tags|
    ensures s.highPriority == s.byPriority.High
    ensures s.byPriority.High + s.byPriority.Medium + s.byPriority.Low <= s.totalNotes
    ensures s.categories <= s.totalNotes
    ensures s.categories == 0 <==> tags == []
    ensures s.byCategory.Keys == Elems(Categories(tags))
    ensures s.categories == |s.byCategory.Keys|
    ensures SumOver(s.byCategory, Distinct(Categories(tags))) == s.totalNotes
  {
    var cats := Categories(tags);
    TallyKeys(cats);
    DistinctElems(cats);
    NoDuplicatesCard(Distinct(cats));
    TallySum(cats);
    PriorityBound(tags);
    Stats(
      |tags|,
      PriorityCount(tags, "High"),
      CategoryCount(tags),
      Tally(cats),
      PriorityCounts(PriorityCount(tags, "High"), PriorityCount(tags, "Medium"), PriorityCount(tags, "Low")))
  }

  /** The imperative computation of `Summarize`, with the `forEach` as a loop. */
  method ComputeStats(tags: seq<Tag>) returns (s: Stats)
    ensures s == Summarize(tags)
  {
    var byCategory := CountByCategory(Categories(tags));
    var high := PriorityCount(tags, "High");
    s := Stats(
      |tags|,
      high,
      CategoryCount(tags),
      byCategory,
      PriorityCounts(high, PriorityCount(tags, "Medium"), PriorityCount(tags, "Low")));
  }

  /** The `forEach` that fills `byCategory`. */
  method CountByCategory(cats: seq<string>) returns (byCategory: map<string, nat>)
    ensures byCategory == Tally(cats)
  {
    byCategory := map[];
    for i := 0 to |cats|
      invariant byCategory == Tally(cats[..i])
    {
      assert cats[..i + 1][..i] == cats[..i];
      var c := cats[i];
      byCategory := byCategory[c := (if c in byCategory then byCategory[c] else 0) + 1];
    }
    assert cats[..|cats|] == cats;
  }

  /** The keys of `byCategory` are exactly the categories that occur. */
  lemma {:induction false} TallyKeys(cats: seq<string>)
    ensures Tally(cats).Keys == Elems(cats)
  {
    if cats != [] {
      var init := cats[..|cats| - 1];
      assert cats == init + [cats[|cats| - 1]];
      TallyKeys(init);
      assert Elems(cats) == Elems(init) + {cats[|cats| - 1]};
    }
  }

  /** Each `byCategory` entry is the number of notes with that category. */
  lemma {:induction false} TallyCounts(cats: seq<string>, c: string)
    ensures c in Tally(cats) ==> Tally(cats)[c] == Occurrences(cats, c)
    ensures c !in Tally(cats) ==> Occurrences(cats, c) == 0
  {
    if cats != [] {
      var init := cats[..|cats| - 1];
      var last := cats[|cats| - 1];
      assert cats == init + [last];
      TallyCounts(init, c);
      FilterSnoc(init, last, (x: string) => x == c);
    }
  }

  /** `Distinct` lists each value of the sequence, so its set of values is the same. */
  lemma DistinctElems(cats: seq<string>)
    ensures Elems(Distinct(cats)) == Elems(cats)
  {
    var d := Distinct(cats);
    forall x | x in Elems(cats) ensures x in Elems(d) {
      var i :| 0 <= i < |cats| && cats[i] == x;
    }
  }

  /** Changing `m` at a key not listed leaves the sum unchanged. */
  lemma {:induction false} SumOverUnlisted(m: map<string, nat>, keys: seq<string>, c: string, v: nat)
    requires c !in keys
    ensures SumOver(m[c := v], keys) == SumOver(m, keys)
  {
    if keys != [] {
      SumOverUnlisted(m, keys[..|keys| - 1], c, v);
    }
  }

  /** Bumping a key listed exactly once adds one to the sum. */
  lemma {:induction false} SumOverBump(m: map<string, nat>, keys: seq<string>, c: string)
    requires NoDuplicates(keys) && c in keys
    ensures SumOver(Bump(m, c), keys) == SumOver(m, keys) + 1
  {
    var init := keys[..|keys| - 1];
    var last := keys[|keys| - 1];
    assert keys == init + [last];
    assert NoDuplicates(init);
    if last == c {
      assert c !in init;
      SumOverUnlisted(m, init, c, (if c in m then m[c] else 0) + 1);
    } else {
      SumOverBump(m, init, c);
    }
  }

  /** The `byCategory` values add up to the number of notes. */
  lemma {:induction false} TallySum(cats: seq<string>)
    ensures SumOver(Tally(cats), Distinct(cats)) == |cats|
  {
    if cats != [] {
      var init := cats[..|cats| - 1];
      var c := cats[|cats| - 1];
      assert cats == init + [c];
      TallySum(init);
      TallyKeys(init);
      DistinctElems(init);
      var m := Tally(init);
      var d := Distinct(init);
      if c in init {
        assert c in Elems(d);
        SumOverBump(m, d, c);
      } else {
        assert c !in Elems(d) && c !in m;
        assert Distinct(cats) == d + [c];
        assert (d + [c])[..|d|] == d;
        SumOverUnlisted(m, d, c, 1);
      }
    }
  }

  /** The three priority counts never exceed the number of notes. */
  lemma {:induction false} PriorityBound(tags: seq<Tag>)
    ensures PriorityCount(tags, "High") + PriorityCount(tags, "Medium") + PriorityCount(tags, "Low") <= |tags|
  {
    if tags != [] {
      PriorityBound(tags[1..]);
    }
  }

  /** Two notes, High and Low, both in the default category. */
  lemma SummarizeExample()
    ensures var s := Summarize([Tag("General", "High"), Tag("General", "Low")]);
      s.totalNotes == 2 && s.highPriority == 1 && s.categories == 1 &&
      s.byPriority == PriorityCounts(1, 0, 1) && s.byCategory == map["General" := 2]
  {
    var tags := [Tag("General", "High"), Tag("General", "Low")];
    var cats := Categories(tags);
    assert cats == ["General", "General"];
    assert Tally(cats) == map["General" := 2] by {
      assert cats[..1][..0] == [];
      assert Tally(cats[..1]) == Bump(map[], "General") == map["General" := 1];
    }
    assert CategoryCount(tags) == 1 by {
      assert cats[..1] == ["General"];
    }
    assert PriorityCount(tags, "High") == 1 && PriorityCount(tags, "Medium") == 0 && PriorityCount(tags, "Low") == 1 by {
      assert tags[1..] == [Tag("General", "Low")];
      assert Filter(tags, HasPriority("High")) == [tags[0]];
      assert Filter(tags, HasPriority("Medium")) == [];
      assert Filter(tags, HasPriority("Low")) == [tags[1]];
    }
  }

  // The tally over a plain JavaScript object. `byCategory` starts as `{}`, so a
  // category that names a member inherited from Object.prototype reads that member
  // instead of `undefined`.

  /** The values the tally can put in a plain object: a count, or the text that
      `function + 1` concatenates to. */
  datatype JsValue = Number(n: nat) | Str(s: string)

  /** The properties every plain object inherits from Object.prototype. */
  const InheritedNames: set<string> := {
    "constructor", "__proto__", "toString", "toLocaleString", "valueOf", "hasOwnProperty",
    "isPrototypeOf", "propertyIsEnumerable", "__defineGetter__", "__defineSetter__",
    "__lookupGetter__", "__lookupSetter__"}

  /** The string a built-in function converts to. */
  function NativeSource(name: string): string
  {
    if name == "constructor" then "function Object() { [native code] }"
    else "function " + name + "() { [native code] }"
  }

  /** `obj[c] = (obj[c] || 0) + 1` on a plain object. Reading `__proto__` yields an
      object, so a string is assigned to the `__proto__` setter, which ignores it; any
      other inherited name yields a function, and `function + 1` is a string. */
  function BumpObject(obj: map<string, JsValue>, c: string): map<string, JsValue>
  {
    if c == "__proto__" then obj
    else
      var v := if c in obj then obj[c] else if c in InheritedNames then Str(NativeSource(c)) else Number(0);
      obj[c := match v case Number(n) => Number(n + 1) case Str(s) => Str(s + "1")]
  }

  /** The `forEach` over the notes as the source runs it, on a plain object. */
  function TallyObject(cats: seq<string>): (obj: map<string, JsValue>)
    ensures obj.Keys <= Elems(cats)
    ensures "__proto__" !in obj
  {
    if cats == [] then map[]
    else
      var init := cats[..|cats| - 1];
      assert Elems(init) <= Elems(cats);
      BumpObject(TallyObject(init), cats[|cats| - 1])
  }

  /** The counts of `m` as object values. */
  function AsNumbers(m: map<string, nat>): map<string, JsValue>
  {
    map k | k in m :: Number(m[k])
  }

  /** Away from the inherited names the plain object holds exactly the counts of `Tally`. */
  lemma {:induction false} TallyObjectAgrees(cats: seq<string>)
    requires forall i :: 0 <= i < |cats| ==> cats[i] !in InheritedNames
    ensures TallyObject(cats) == AsNumbers(Tally(cats))
  {
    if cats != [] {
      var init := cats[..|cats| - 1];
      var c := cats[|cats| - 1];
      TallyObjectAgrees(init);
      BumpObjectAgrees(Tally(init), c);
    }
  }

  /** One step away from the inherited names: the object and the map agree. */
  lemma BumpObjectAgrees(m: map<string, nat>, c: string)
    requires c !in InheritedNames
    ensures BumpObject(AsNumbers(m), c) == AsNumbers(Bump(m, c))
  {
    assert c != "__proto__" by {
      assert "__proto__" in InheritedNames;
    }
    var obj := AsNumbers(m);
    var v := if c in obj then obj[c] else Number(0);
    assert v == Number(if c in m then m[c] else 0);
    assert BumpObject(obj, c) == obj[c := Number(v.n + 1)];
  }

  /** A note in category "__proto__" is counted in `totalNotes` but never reaches
      `byCategory`, so the values no longer sum to the total. */
  lemma ProtoCategoryIsDropped()
    ensures TallyObject(["__proto__"]) == map[]
    ensures Tally(["__proto__"]) == map["__proto__" := 1]
  {
    assert ["__proto__"][..0] == [];
  }

  /** A note in category "constructor" makes its entry a string, not a count. */
  lemma ConstructorCategoryIsText()
    ensures TallyObject(["constructor"]) == map["constructor" := Str("function Object() { [native code] }1")]
  {
    assert ["constructor"][..0] == [];
    assert "constructor" in InheritedNames && "constructor" != "__proto__";
    assert NativeSource("constructor") + "1" == "function Object() { [native code] }1";
  }
}
