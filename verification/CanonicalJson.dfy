/** The text of `stableJson` identifies exactly the values that mean the same, and survives a round trip. */
module CanonicalJson {
  import opened Wrappers
  import opened StableJson

  ghost predicate FieldOf(less: Order, entries: seq<Entry>, i: nat, x: Field)
    requires i < |entries|
  {
    !entries[i].value.Undefined? && x == Field(entries[i].key, Tree(less, entries[i].value))
  }

  ghost function Members(less: Order, entries: seq<Entry>): seq<Field> {
    Tree(less, Obj(entries)).fields
  }

  lemma MemberAt(less: Order, entries: seq<Entry>, k: nat)
    requires k < |Sort(less, Kept(entries))|
    ensures var e := Sort(less, Kept(entries))[k];
      k < |Members(less, entries)| && Members(less, entries)[k] == Field(e.key, Tree(less, e.value))
  {
    hide Sort, Kept;
  }

  lemma MembersCount(less: Order, entries: seq<Entry>)
    ensures |Members(less, entries)| == |Sort(less, Kept(entries))|
  {
    hide Sort, Kept;
  }

  lemma MembersAscend(less: Order, entries: seq<Entry>)
    requires Strict(less) && Total(less) && UniqueKeys(entries)
    ensures FieldsAscend(less, Members(less, entries))
  {
    hide Sort, Kept, Tree, Members, Strict, Total;
    KeptIsUnique(entries);
    SortAscends(less, Kept(entries));
    MembersCount(less, entries);
    var f := Members(less, entries);
    forall i, j | 0 <= i < j < |f| ensures less(f[i].key, f[j].key) {
      MemberAt(less, entries, i);
      MemberAt(less, entries, j);
    }
  }

  /** The members of an object's text: one for each defined entry, in ascending order of keys. */
  lemma MembersOf(less: Order, entries: seq<Entry>)
    requires Strict(less) && Total(less) && UniqueKeys(entries)
    ensures FieldsAscend(less, Members(less, entries))
    ensures forall i: nat | i < |entries| && !entries[i].value.Undefined? ::
      Field(entries[i].key, Tree(less, entries[i].value)) in Members(less, entries)
    ensures (forall x | x in Members(less, entries) :: exists i: nat :: i < |entries| && FieldOf(less, entries, i, x))
  {
    MembersAscend(less, entries);
    hide Sort, Kept, Tree, Members, Strict, Total, FieldsAscend;
    var sorted, f := Sort(less, Kept(entries)), Members(less, entries);
    MembersCount(less, entries);
    forall i: nat | i < |entries| && !entries[i].value.Undefined?
      ensures Field(entries[i].key, Tree(less, entries[i].value)) in f
    {
      assert entries[i] in sorted;
      var k :| 0 <= k < |sorted| && sorted[k] == entries[i];
      MemberAt(less, entries, k);
    }
    forall x | x in f ensures exists i: nat :: i < |entries| && FieldOf(less, entries, i, x) {
      var k :| 0 <= k < |f| && f[k] == x;
      MemberAt(less, entries, k);
      assert sorted[k] in sorted;
      var i :| 0 <= i < |entries| && entries[i] == sorted[k];
      assert FieldOf(less, entries, i, x);
    }
  }

  lemma ScalarText(less: Order, v: Value)
    requires !v.Arr? && !v.Obj?
    ensures Scalar(v) == Some(Tree(less, v)) && !Tree(less, v).JArr? && !Tree(less, v).JObj?
  {
  }

  // ---------- The same meaning gives the same text ----------

  /** Entries that mean the same are written the same. */
  ghost predicate EntriesAgree(less: Order, v: seq<Entry>, w: seq<Entry>) {
    forall i: nat, j: nat | i < |v| && j < |w| && Same(v[i].value, w[j].value) ::
      Tree(less, v[i].value) == Tree(less, w[j].value)
  }

  lemma EntryFor(v: Value, w: Value, i: nat) returns (j: nat)
    requires v.Obj? && w.Obj? && Same(v, w) && i < |v.entries| && !v.entries[i].value.Undefined?
    ensures j < |w.entries| && Matches(w.entries[j], v.entries[i].key) && Same(v.entries[i].value, w.entries[j].value)
  {
    j :| j < |w.entries| && Matches(w.entries[j], v.entries[i].key) && Same(v.entries[i].value, w.entries[j].value);
  }

  lemma KeyFor(v: Value, w: Value, j: nat) returns (i: nat)
    requires v.Obj? && w.Obj? && Same(v, w) && j < |w.entries| && !w.entries[j].value.Undefined?
    ensures i < |v.entries| && Matches(v.entries[i], w.entries[j].key)
  {
    i :| i < |v.entries| && Matches(v.entries[i], w.entries[j].key);
  }

  lemma MembersCarryOver(less: Order, v: Value, w: Value, x: Field)
    requires Strict(less) && Total(less) && v.Obj? && w.Obj? && UniqueKeys(v.entries) && UniqueKeys(w.entries)
    requires EntriesAgree(less, v.entries, w.entries) && Same(v, w) && x in Members(less, v.entries)
    ensures x in Members(less, w.entries)
  {
    hide Same, Tree;
    MembersOf(less, v.entries);
    MembersOf(less, w.entries);
    var i: nat :| i < |v.entries| && FieldOf(less, v.entries, i, x);
    var j := EntryFor(v, w, i);
    assert Field(w.entries[j].key, Tree(less, w.entries[j].value)) == x;
  }

  lemma MembersCarryBack(less: Order, v: Value, w: Value, x: Field)
    requires Strict(less) && Total(less) && v.Obj? && w.Obj? && UniqueKeys(v.entries) && UniqueKeys(w.entries)
    requires EntriesAgree(less, v.entries, w.entries) && Same(v, w) && x in Members(less, w.entries)
    ensures x in Members(less, v.entries)
  {
    hide Same, Tree;
    MembersOf(less, v.entries);
    MembersOf(less, w.entries);
    var j: nat :| j < |w.entries| && FieldOf(less, w.entries, j, x);
    var i := KeyFor(v, w, j);
    var k := EntryFor(v, w, i);
    assert k == j;
    assert Field(v.entries[i].key, Tree(less, v.entries[i].value)) == x;
  }

  lemma SameMembers(less: Order, v: Value, w: Value)
    requires Strict(less) && Total(less) && v.Obj? && w.Obj? && UniqueKeys(v.entries) && UniqueKeys(w.entries)
    requires EntriesAgree(less, v.entries, w.entries) && Same(v, w)
    ensures Members(less, v.entries) == Members(less, w.entries)
  {
    hide Same, EntriesAgree, Tree;
    forall x ensures x in Members(less, v.entries) <==> x in Members(less, w.entries) {
      if x in Members(less, v.entries) {
        MembersCarryOver(less, v, w, x);
      }
      if x in Members(less, w.entries) {
        MembersCarryBack(less, v, w, x);
      }
    }
    MembersOf(less, v.entries);
    MembersOf(less, w.entries);
    AscendingIsDetermined(less, Members(less, v.entries), Members(less, w.entries));
  }

  lemma {:induction false} SameMeaningSameText(less: Order, v: Value, w: Value)
    requires Strict(less) && Total(less) && WellFormed(v) && WellFormed(w) && Same(v, w)
    ensures Tree(less, v) == Tree(less, w)
    decreases v
  {
    match v
    case Arr(items) =>
      forall i | 0 <= i < |items| ensures Tree(less, items[i]) == Tree(less, w.items[i]) {
        SameMeaningSameText(less, items[i], w.items[i]);
      }
    case Obj(entries) =>
      forall i: nat, j: nat | i < |entries| && j < |w.entries| && Same(entries[i].value, w.entries[j].value)
        ensures Tree(less, entries[i].value) == Tree(less, w.entries[j].value)
      {
        SameMeaningSameText(less, entries[i].value, w.entries[j].value);
      }
      SameMembers(less, v, w);
    case _ =>
      ScalarText(less, v);
      assert Scalar(v) == Scalar(w) && !w.Arr? && !w.Obj?;
      ScalarText(less, w);
  }

  // ---------- The same text comes from the same meaning ----------

  lemma MemberMatches(less: Order, v: Value, w: Value, i: nat) returns (j: nat)
    requires Strict(less) && Total(less) && v.Obj? && w.Obj? && UniqueKeys(v.entries) && UniqueKeys(w.entries)
    requires Tree(less, v) == Tree(less, w) && i < |v.entries| && !v.entries[i].value.Undefined?
    ensures j < |w.entries| && Matches(w.entries[j], v.entries[i].key)
    ensures Tree(less, w.entries[j].value) == Tree(less, v.entries[i].value)
  {
    MembersOf(less, v.entries);
    MembersOf(less, w.entries);
    var x := Field(v.entries[i].key, Tree(less, v.entries[i].value));
    assert x in Members(less, v.entries) && Members(less, w.entries) == Members(less, v.entries);
    hide Tree, Strict, Total;
    j :| j < |w.entries| && FieldOf(less, w.entries, j, x);
  }

  lemma {:induction false} SameTextSameMeaning(less: Order, v: Value, w: Value)
    requires Strict(less) && Total(less) && WellFormed(v) && WellFormed(w) && Tree(less, v) == Tree(less, w)
    ensures Same(v, w)
    decreases v
  {
    match v
    case Arr(items) =>
      assert w.Arr?;
      forall i | 0 <= i < |items| ensures Same(items[i], w.items[i]) {
        assert Tree(less, v).items[i] == Tree(less, w).items[i];
        SameTextSameMeaning(less, items[i], w.items[i]);
      }
    case Obj(entries) =>
      assert w.Obj?;
      forall i: nat | i < |entries| && !entries[i].value.Undefined?
        ensures exists j ::
                  0 <= j < |w.entries| && Matches(w.entries[j], entries[i].key) && Same(entries[i].value, w.entries[j].value)
      {
        var j := MemberMatches(less, v, w, i);
        SameTextSameMeaning(less, entries[i].value, w.entries[j].value);
      }
      forall j: nat | j < |w.entries| && !w.entries[j].value.Undefined?
        ensures exists i :: 0 <= i < |entries| && Matches(entries[i], w.entries[j].key)
      {
        var i := MemberMatches(less, w, v, j);
      }
    case _ =>
      ScalarText(less, v);
      assert !w.Arr? && !w.Obj?;
      ScalarText(less, w);
  }

  /** Under a strict total order of keys, two values have the same text, and so the same request hash,
      exactly when they are equivalent. */
  lemma TextIsCanonical(less: Order, v: Value, w: Value)
    requires Strict(less) && Total(less) && WellFormed(v) && WellFormed(w)
    ensures Text(less, v) == Text(less, w) <==> Equivalent(v, w)
    ensures RequestHash(less, v) == RequestHash(less, w) <==> Equivalent(v, w)
  {
    if Equivalent(v, w) {
      SameMeaningSameText(less, v, w);
    }
    if Text(less, v) == Text(less, w) {
      if v.Undefined? {
        assert w.Undefined?;
      } else {
        SameTextSameMeaning(less, v, w);
      }
    }
  }

  // ---------- Reading the text back ----------

  ghost predicate InOrder(less: Order, j: Json) {
    match j
    case JArr(items) => forall i | 0 <= i < |items| :: InOrder(less, items[i])
    case JObj(fields) => FieldsAscend(less, fields) && forall i | 0 <= i < |fields| :: InOrder(less, fields[i].value)
    case _ => true
  }

  lemma {:induction false} TextsAreInOrder(less: Order, v: Value)
    requires Strict(less) && Total(less) && WellFormed(v)
    ensures InOrder(less, Tree(less, v))
    decreases v
  {
    match v
    case Arr(items) =>
      forall i | 0 <= i < |items| ensures InOrder(less, Tree(less, items[i])) {
        TextsAreInOrder(less, items[i]);
      }
    case Obj(entries) =>
      MembersOf(less, entries);
      var f := Tree(less, v).fields;
      forall k | 0 <= k < |f| ensures InOrder(less, f[k].value) {
        assert f[k] in f;
        var i: nat :| i < |entries| && FieldOf(less, entries, i, f[k]);
        TextsAreInOrder(less, entries[i].value);
      }
    case _ =>
  }

  lemma KeptStep(init: seq<Entry>, last: Entry)
    requires !last.value.Undefined?
    ensures Kept(init + [last]) == Kept(init) + [last]
  {
    var s := init + [last];
    assert s[..|s| - 1] == init && s[|s| - 1] == last;
  }

  lemma {:induction false} NothingUndefined(s: seq<Entry>)
    requires forall i | 0 <= i < |s| :: !s[i].value.Undefined?
    ensures Kept(s) == s
  {
    if s != [] {
      var init, last := s[..|s| - 1], s[|s| - 1];
      assert s == init + [last];
      NothingUndefined(init);
      KeptStep(init, last);
    }
  }

  /** A text in order is what its own reading is written as. */
  lemma {:induction false} ReadingWritesBack(less: Order, j: Json)
    requires Strict(less) && InOrder(less, j)
    ensures Tree(less, Parse(j)) == j
    decreases j
  {
    match j
    case JArr(items) =>
      forall i | 0 <= i < |items| ensures Tree(less, Parse(items[i])) == items[i] {
        ReadingWritesBack(less, items[i]);
      }
      assert Tree(less, Parse(j)).items == items;
    case JObj(fields) =>
      forall i | 0 <= i < |fields| ensures Tree(less, Parse(fields[i].value)) == fields[i].value {
        ReadingWritesBack(less, fields[i].value);
      }
      MembersWriteBack(less, fields);
    case _ =>
  }

  lemma MembersWriteBack(less: Order, fields: seq<Field>)
    requires Strict(less) && FieldsAscend(less, fields)
    requires forall i | 0 <= i < |fields| :: Tree(less, Parse(fields[i].value)) == fields[i].value
    ensures Tree(less, Parse(JObj(fields))) == JObj(fields)
  {
    var entries := Parse(JObj(fields)).entries;
    AlreadySorted(less, fields);
    var f := Members(less, entries);
    assert |f| == |fields|;
    forall i | 0 <= i < |f| ensures f[i] == fields[i] {
      assert entries[i] == Entry(fields[i].key, Parse(fields[i].value));
    }
    assert f == fields;
  }

  lemma AlreadySorted(less: Order, fields: seq<Field>)
    requires Strict(less) && FieldsAscend(less, fields)
    ensures var entries := Parse(JObj(fields)).entries; Sort(less, Kept(entries)) == entries
  {
    hide Kept, Sort;
    NothingUndefined(Parse(JObj(fields)).entries);
    SortedStays(less, Parse(JObj(fields)).entries);
  }

  /** Normalising a value that was written and read back changes nothing, so a stored copy of a request
      has the hash of the request. */
  lemma SafeKeepsTheHash(less: Order, v: Value)
    requires Strict(less) && Total(less) && WellFormed(v) && !v.Undefined?
    ensures Safe(less, v).Some?
    ensures Text(less, Safe(less, v).value) == Text(less, v)
    ensures RequestHash(less, Safe(less, v).value) == RequestHash(less, v)
  {
    TextsAreInOrder(less, v);
    ReadingWritesBack(less, Tree(less, v));
  }

  // ---------- The comparison in the vault route ----------

  const KIND := "runtimeKind"
  const MANAGED := Str("nuvem_reference")
  const EXTERNAL := Str("external")

  /** `{ ...entries, [key]: value }`: a member that is there keeps its place. */
  function With(entries: seq<Entry>, key: string, value: Value): (r: seq<Entry>)
    ensures Entry(key, value) in r
    ensures forall x | x in r :: x == Entry(key, value) || x in entries
    ensures forall x | x in entries && x.key != key :: x in r
  {
    if entries == [] then [Entry(key, value)]
    else if entries[0].key == key then [Entry(key, value)] + entries[1..]
    else [entries[0]] + With(entries[1..], key, value)
  }

  function Without(entries: seq<Entry>, key: string): (r: seq<Entry>)
    ensures forall x :: x in r <==> x in entries && x.key != key
  {
    if entries == [] then []
    else (if entries[0].key == key then [] else [entries[0]]) + Without(entries[1..], key)
  }

  lemma ConsIsWellFormed(e: Entry, s: seq<Entry>)
    requires WellFormed(e.value) && WellFormed(Obj(s)) && forall x | x in s :: x.key != e.key
    ensures WellFormed(Obj([e] + s))
  {
    var r := [e] + s;
    forall i, j | 0 <= i < j < |r| ensures r[i].key != r[j].key {
      assert r[j] == s[j - 1];
      if i == 0 {
        assert s[j - 1] in s;
      } else {
        assert r[i] == s[i - 1];
      }
    }
    forall i | 0 <= i < |r| ensures WellFormed(r[i].value) {
      if i > 0 {
        assert r[i] == s[i - 1];
      }
    }
  }

  lemma TailIsWellFormed(s: seq<Entry>)
    requires s != [] && WellFormed(Obj(s))
    ensures WellFormed(s[0].value) && WellFormed(Obj(s[1..])) && forall x | x in s[1..] :: x.key != s[0].key
  {
    var r := s[1..];
    assert forall i | 0 <= i < |r| :: r[i] == s[i + 1];
  }

  lemma {:induction false} EditsStayWellFormed(entries: seq<Entry>, key: string, value: Value)
    requires WellFormed(Obj(entries)) && WellFormed(value)
    ensures WellFormed(Obj(With(entries, key, value))) && WellFormed(Obj(Without(entries, key)))
    ensures forall x | x in With(entries, key, value) && x.key == key :: x == Entry(key, value)
    decreases |entries|
  {
    if entries == [] {
      SingleIsWellFormed(Entry(key, value));
    } else {
      hide WellFormed;
      var rest := entries[1..];
      TailIsWellFormed(entries);
      EditsStayWellFormed(rest, key, value);
      if entries[0].key == key {
        ConsIsWellFormed(Entry(key, value), rest);
        assert Without(entries, key) == Without(rest, key);
      } else {
        ConsIsWellFormed(entries[0], With(rest, key, value));
        ConsIsWellFormed(entries[0], Without(rest, key));
      }
    }
  }

  lemma SingleIsWellFormed(e: Entry)
    requires WellFormed(e.value)
    ensures WellFormed(Obj([e])) && WellFormed(Obj([]))
  {
  }

  /** Every defined member of `a` has its like in `b`. */
  ghost predicate Covered(a: seq<Entry>, b: seq<Entry>) {
    forall x | x in a && !x.value.Undefined? :: exists y :: y in b && Matches(y, x.key) && Same(x.value, y.value)
  }

  ghost predicate KeysCovered(a: seq<Entry>, b: seq<Entry>) {
    forall x | x in a && !x.value.Undefined? :: exists y :: y in b && Matches(y, x.key)
  }

  lemma SameCovers(a: seq<Entry>, b: seq<Entry>)
    requires Same(Obj(a), Obj(b))
    ensures Covered(a, b) && KeysCovered(b, a)
  {
    hide Same;
    forall x | x in a && !x.value.Undefined? ensures exists y :: y in b && Matches(y, x.key) && Same(x.value, y.value) {
      var i: nat :| i < |a| && a[i] == x;
      var j := EntryFor(Obj(a), Obj(b), i);
      assert b[j] in b;
    }
    forall y | y in b && !y.value.Undefined? ensures exists x :: x in a && Matches(x, y.key) {
      var j: nat :| j < |b| && b[j] == y;
      var i := KeyFor(Obj(a), Obj(b), j);
      assert a[i] in a;
    }
  }

  lemma CoveredEntry(a: seq<Entry>, b: seq<Entry>, i: nat) returns (j: nat)
    requires Covered(a, b) && i < |a| && !a[i].value.Undefined?
    ensures j < |b| && Matches(b[j], a[i].key) && Same(a[i].value, b[j].value)
  {
    hide Same;
    assert a[i] in a;
    var y :| y in b && Matches(y, a[i].key) && Same(a[i].value, y.value);
    j :| j < |b| && b[j] == y;
  }

  lemma CoveredKey(a: seq<Entry>, b: seq<Entry>, i: nat) returns (j: nat)
    requires KeysCovered(a, b) && i < |a| && !a[i].value.Undefined?
    ensures j < |b| && Matches(b[j], a[i].key)
  {
    assert a[i] in a;
    var y :| y in b && Matches(y, a[i].key);
    j :| j < |b| && b[j] == y;
  }

  lemma CoveringIsSame(a: seq<Entry>, b: seq<Entry>)
    requires Covered(a, b) && KeysCovered(b, a)
    ensures Same(Obj(a), Obj(b))
  {
    hide Covered, KeysCovered;
    forall i | 0 <= i < |a| && !a[i].value.Undefined?
      ensures exists j :: 0 <= j < |b| && Matches(b[j], a[i].key) && Same(a[i].value, b[j].value)
    {
      var j := CoveredEntry(a, b, i);
    }
    forall j | 0 <= j < |b| && !b[j].value.Undefined? ensures exists i :: 0 <= i < |a| && Matches(a[i], b[j].key) {
      var i := CoveredKey(b, a, j);
    }
  }

  lemma SameByMembers(a: seq<Entry>, b: seq<Entry>)
    ensures Same(Obj(a), Obj(b)) <==> Covered(a, b) && KeysCovered(b, a)
  {
    hide Same, Covered, KeysCovered;
    if Same(Obj(a), Obj(b)) {
      SameCovers(a, b);
    }
    if Covered(a, b) && KeysCovered(b, a) {
      CoveringIsSame(a, b);
    }
  }

  /** Members that agree outside one key agree with that key set to the same string, and conversely. */
  lemma SettingOneMember(a: seq<Entry>, b: seq<Entry>, key: string, text: string)
    requires WellFormed(Obj(a)) && WellFormed(Obj(b))
    ensures Same(Obj(With(a, key, Str(text))), Obj(With(b, key, Str(text)))) <==> Same(Obj(Without(a, key)), Obj(Without(b, key)))
  {
    var v := Str(text);
    EditsStayWellFormed(a, key, v);
    EditsStayWellFormed(b, key, v);
    SameByMembers(With(a, key, v), With(b, key, v));
    SameByMembers(Without(a, key), Without(b, key));
    CoveredOutside(a, b, key, v);
    KeysCoveredOutside(a, b, key, v);
    KeysCoveredOutside(b, a, key, v);
  }

  lemma CoveredOutside(a: seq<Entry>, b: seq<Entry>, key: string, v: Value)
    requires v.Str?
    requires forall x | x in With(a, key, v) && x.key == key :: x == Entry(key, v)
    requires forall x | x in With(b, key, v) && x.key == key :: x == Entry(key, v)
    ensures Covered(With(a, key, v), With(b, key, v)) <==> Covered(Without(a, key), Without(b, key))
  {
    hide With, Without;
    var c, d, e, f := With(a, key, v), With(b, key, v), Without(a, key), Without(b, key);
    if Covered(c, d) {
      forall x | x in e && !x.value.Undefined? ensures exists y :: y in f && Matches(y, x.key) && Same(x.value, y.value) {
        assert x in c;
        var y :| y in d && Matches(y, x.key) && Same(x.value, y.value);
        assert y in f;
      }
    }
    if Covered(e, f) {
      forall x | x in c && !x.value.Undefined? ensures exists y :: y in d && Matches(y, x.key) && Same(x.value, y.value) {
        if x.key == key {
          assert Same(v, v) && Matches(Entry(key, v), key);
        } else {
          assert x in e;
          var y :| y in f && Matches(y, x.key) && Same(x.value, y.value);
          assert y in d;
        }
      }
    }
  }

  lemma KeysCoveredOutside(a: seq<Entry>, b: seq<Entry>, key: string, v: Value)
    requires v.Str?
    requires forall x | x in With(a, key, v) && x.key == key :: x == Entry(key, v)
    requires forall x | x in With(b, key, v) && x.key == key :: x == Entry(key, v)
    ensures KeysCovered(With(a, key, v), With(b, key, v)) <==> KeysCovered(Without(a, key), Without(b, key))
  {
    hide With, Without;
    var c, d, e, f := With(a, key, v), With(b, key, v), Without(a, key), Without(b, key);
    if KeysCovered(c, d) {
      forall x | x in e && !x.value.Undefined? ensures exists y :: y in f && Matches(y, x.key) {
        assert x in c;
        var y :| y in d && Matches(y, x.key);
        assert y in f;
      }
    }
    if KeysCovered(e, f) {
      forall x | x in c && !x.value.Undefined? ensures exists y :: y in d && Matches(y, x.key) {
        if x.key == key {
          assert Matches(Entry(key, v), key);
        } else {
          assert x in e;
          var y :| y in f && Matches(y, x.key);
          assert y in d;
        }
      }
    }
  }

  lemma CoveredWithout(a: seq<Entry>, b: seq<Entry>, key: string)
    ensures Covered(a, b) ==> Covered(Without(a, key), Without(b, key))
    ensures KeysCovered(a, b) ==> KeysCovered(Without(a, key), Without(b, key))
  {
    hide Without, Same;
    var c, d := Without(a, key), Without(b, key);
    if Covered(a, b) {
      forall x | x in c && !x.value.Undefined? ensures exists y :: y in d && Matches(y, x.key) && Same(x.value, y.value) {
        var y :| y in b && Matches(y, x.key) && Same(x.value, y.value);
        assert y in d;
      }
    }
    if KeysCovered(a, b) {
      forall x | x in c && !x.value.Undefined? ensures exists y :: y in d && Matches(y, x.key) {
        var y :| y in b && Matches(y, x.key);
        assert y in d;
      }
    }
  }

  lemma SameOutside(a: seq<Entry>, b: seq<Entry>, key: string)
    requires Same(Obj(a), Obj(b))
    ensures Same(Obj(Without(a, key)), Obj(Without(b, key)))
  {
    hide Same, Covered, KeysCovered, Without;
    SameByMembers(a, b);
    SameByMembers(Without(a, key), Without(b, key));
    CoveredWithout(a, b, key);
    CoveredWithout(b, a, key);
  }

  /** The runtime kind a stored request stands for. */
  function StoredKind(stored: seq<Entry>): Value {
    if Entry(KIND, MANAGED) in stored then MANAGED else EXTERNAL
  }

  /** What the store keeps of a request: written and read back, with the kind it decided. */
  function StoredRequest(less: Order, request: seq<Entry>, kind: Value): seq<Entry> {
    With(Parse(Tree(less, Obj(request))).entries, KIND, kind)
  }

  /** The comparison of the route: the new request takes over the stored runtime kind first. */
  predicate Resumes(less: Order, stored: seq<Entry>, incoming: seq<Entry>) {
    RequestHash(less, Obj(stored)) == Some(Sha256(Tree(less, Parse(Tree(less, Obj(With(incoming, KIND, StoredKind(stored))))))))
  }

  lemma StoredKindIsKept(less: Order, request: seq<Entry>, kind: Value)
    requires WellFormed(Parse(Tree(less, Obj(request)))) && (kind == MANAGED || kind == EXTERNAL)
    ensures StoredKind(StoredRequest(less, request, kind)) == kind
  {
    EditsStayWellFormed(Parse(Tree(less, Obj(request))).entries, KIND, kind);
  }

  lemma {:induction false} ReadingIsWellFormed(less: Order, j: Json)
    requires Strict(less) && InOrder(less, j)
    ensures WellFormed(Parse(j))
    decreases j
  {
    match j
    case JArr(items) =>
      forall i | 0 <= i < |items| ensures WellFormed(Parse(items[i])) {
        ReadingIsWellFormed(less, items[i]);
      }
    case JObj(fields) =>
      forall i | 0 <= i < |fields| ensures WellFormed(Parse(fields[i].value)) {
        ReadingIsWellFormed(less, fields[i].value);
      }
    case _ =>
  }

  lemma StoredIsSame(less: Order, request: seq<Entry>, kind: Value)
    requires Strict(less) && Total(less) && WellFormed(Obj(request)) && (kind == MANAGED || kind == EXTERNAL)
    ensures WellFormed(Obj(StoredRequest(less, request, kind))) && WellFormed(Obj(With(request, KIND, kind)))
    ensures StoredKind(StoredRequest(less, request, kind)) == kind
    ensures Same(Obj(StoredRequest(less, request, kind)), Obj(With(request, KIND, kind)))
  {
    var v := Obj(request);
    hide Tree, Same, Parse;
    TextsAreInOrder(less, v);
    ReadingIsWellFormed(less, Tree(less, v));
    ReadingWritesBack(less, Tree(less, v));
    ObjectsReadAsObjects(less, request);
    var read := Parse(Tree(less, v)).entries;
    SameTextSameMeaning(less, Obj(read), v);
    EditsStayWellFormed(read, KIND, kind);
    EditsStayWellFormed(request, KIND, kind);
    SameOutside(read, request, KIND);
    SettingOneMember(read, request, KIND, kind.text);
    StoredKindIsKept(less, request, kind);
  }

  lemma ObjectsReadAsObjects(less: Order, request: seq<Entry>)
    ensures Parse(Tree(less, Obj(request))).Obj?
    ensures Parse(Tree(less, Obj(request))) == Obj(Parse(Tree(less, Obj(request))).entries)
  {
  }

  lemma ResumingComparesTexts(less: Order, stored: seq<Entry>, incoming: seq<Entry>)
    requires Strict(less) && Total(less) && WellFormed(Obj(incoming))
    ensures Resumes(less, stored, incoming) <==>
      Tree(less, Obj(stored)) == Tree(less, Obj(With(incoming, KIND, StoredKind(stored))))
  {
    hide Tree, Parse, With;
    EditsStayWellFormed(incoming, KIND, StoredKind(stored));
    SafeKeepsTheHash(less, Obj(With(incoming, KIND, StoredKind(stored))));
  }

  lemma SameIsSameText(less: Order, v: Value, w: Value)
    requires Strict(less) && Total(less) && WellFormed(v) && WellFormed(w)
    ensures Same(v, w) <==> Tree(less, v) == Tree(less, w)
  {
    hide Tree, Same;
    if Same(v, w) {
      SameMeaningSameText(less, v, w);
    }
    if Tree(less, v) == Tree(less, w) {
      SameTextSameMeaning(less, v, w);
    }
  }

  /** The vault route resumes an existing deployment exactly when the new request is equivalent to the one
      it was created from in everything but the runtime kind, which the gateway decides itself. */
  lemma ResumesExactlyEquivalentRequests(less: Order, original: seq<Entry>, kind: Value, incoming: seq<Entry>)
    requires Strict(less) && Total(less) && WellFormed(Obj(original)) && WellFormed(Obj(incoming))
    requires kind == MANAGED || kind == EXTERNAL
    ensures Resumes(less, StoredRequest(less, original, kind), incoming) <==>
      Equivalent(Obj(Without(original, KIND)), Obj(Without(incoming, KIND)))
  {
    hide Tree, Same, Parse, With, Without, StoredRequest, StoredKind, Resumes, Strict, Total;
    var stored := StoredRequest(less, original, kind);
    StoredIsSame(less, original, kind);
    ResumingComparesTexts(less, stored, incoming);
    EditsStayWellFormed(incoming, KIND, kind);
    SameIsSameText(less, Obj(stored), Obj(With(original, KIND, kind)));
    SameIsSameText(less, Obj(With(original, KIND, kind)), Obj(With(incoming, KIND, kind)));
    SettingOneMember(original, incoming, KIND, kind.text);
  }

  // ---------- When the order has ties ----------

  ghost predicate Canonical(less: Order) {
    forall v, w | WellFormed(v) && WellFormed(w) && Same(v, w) :: Tree(less, v) == Tree(less, w)
  }

  lemma TwoTied(less: Order, x: Entry, y: Entry)
    requires !less(x.key, y.key) && !less(y.key, x.key) && !x.value.Undefined? && !y.value.Undefined?
    ensures Sort(less, Kept([x, y])) == [x, y]
  {
    NothingUndefined([x, y]);
    hide Kept;
    assert [x, y][..1] == [x] && [x][..0] == [];
    assert Sort(less, [x]) == Insert(less, x, []) == [x];
    assert Insert(less, y, [x]) == [x] + [y];
    assert Sort(less, [x, y]) == Insert(less, y, [x]);
  }

  function Pair(a: string, b: string): Value {
    Obj([Entry(a, Null), Entry(b, Null)])
  }

  lemma TiedKeysKeepTheirOrder(less: Order, a: string, b: string)
    requires !less(a, b) && !less(b, a)
    ensures Members(less, Pair(a, b).entries)[..1] == [Field(a, JNull)]
  {
    TwoTied(less, Entry(a, Null), Entry(b, Null));
    hide Sort, Kept;
    var f := Members(less, Pair(a, b).entries);
    assert |f| == 2 && f[0] == Field(a, Tree(less, Null));
  }

  lemma SwappedIsSame(a: string, b: string)
    requires a != b
    ensures WellFormed(Pair(a, b)) && Same(Pair(a, b), Pair(b, a))
  {
    var v, w := Pair(a, b).entries, Pair(b, a).entries;
    assert Matches(w[1], a) && Matches(w[0], b) && Matches(v[0], a) && Matches(v[1], b);
    assert Same(v[0].value, w[1].value) && Same(v[1].value, w[0].value);
  }

  /** The text is canonical exactly when no two different keys tie in the order of comparison. */
  lemma CanonicalExactlyWhenNoTies(less: Order)
    requires Strict(less)
    ensures Canonical(less) <==> Total(less)
  {
    if Total(less) {
      forall v, w | WellFormed(v) && WellFormed(w) && Same(v, w) ensures Tree(less, v) == Tree(less, w) {
        SameMeaningSameText(less, v, w);
      }
    } else {
      var a: string, b: string :| a != b && !less(a, b) && !less(b, a);
      hide Tree, Same, WellFormed, Strict;
      TiedKeysKeepTheirOrder(less, a, b);
      TiedKeysKeepTheirOrder(less, b, a);
      SwappedIsSame(a, b);
      SwappedIsSame(b, a);
      assert Members(less, Pair(a, b).entries) != Members(less, Pair(b, a).entries);
    }
  }

  /** One letter in its two spellings, which a comparison by locale has to treat as equal. */
  const COMPOSED := "\U{00E9}"
  const DECOMPOSED := "e\U{0301}"

  /** Under any comparison that does, two requests that differ in the order of these keys mean the same and
      have different hashes. */
  lemma TwoSpellingsTwoHashes(less: Order)
    requires !less(COMPOSED, DECOMPOSED) && !less(DECOMPOSED, COMPOSED)
    ensures var v, w := Pair(COMPOSED, DECOMPOSED), Pair(DECOMPOSED, COMPOSED);
      WellFormed(v) && WellFormed(w) && Same(v, w) && RequestHash(less, v) != RequestHash(less, w)
  {
    hide Same, WellFormed, Tree;
    assert COMPOSED != DECOMPOSED;
    TiedKeysKeepTheirOrder(less, COMPOSED, DECOMPOSED);
    TiedKeysKeepTheirOrder(less, DECOMPOSED, COMPOSED);
    SwappedIsSame(COMPOSED, DECOMPOSED);
    SwappedIsSame(DECOMPOSED, COMPOSED);
    TreeOfPair(less, COMPOSED, DECOMPOSED);
    TreeOfPair(less, DECOMPOSED, COMPOSED);
    hide Members;
  }

  lemma TreeOfPair(less: Order, a: string, b: string)
    ensures Tree(less, Pair(a, b)) == JObj(Members(less, Pair(a, b).entries))
  {
  }

  // ---------- An order without ties ----------

  /** Comparison by code units, as `<` compares strings. */
  predicate CodeUnitLess(a: string, b: string)
    decreases |b|
  {
    b != "" && (a == "" || a[0] < b[0] || (a[0] == b[0] && CodeUnitLess(a[1..], b[1..])))
  }

  lemma {:induction false} CodeUnitsCompare(a: string, b: string)
    ensures !CodeUnitLess(a, a)
    ensures a != b ==> CodeUnitLess(a, b) || CodeUnitLess(b, a)
    decreases |a| + |b|
  {
    if a != "" {
      CodeUnitsCompare(a[1..], if b != "" then b[1..] else "");
      if b != "" && a[0] == b[0] {
        assert a == [a[0]] + a[1..] && b == [b[0]] + b[1..];
      }
    }
  }

  lemma {:induction false} CodeUnitsChain(a: string, b: string, c: string)
    requires CodeUnitLess(a, b) && CodeUnitLess(b, c)
    ensures CodeUnitLess(a, c)
    decreases |b|
  {
    if a != "" && a[0] == b[0] && b[0] == c[0] {
      CodeUnitsChain(a[1..], b[1..], c[1..]);
    }
  }

  /** Comparing keys by code units would meet the condition. */
  lemma CodeUnitOrderIsCanonical()
    ensures Strict(CodeUnitLess) && Total(CodeUnitLess) && Canonical(CodeUnitLess)
  {
    forall a: string, b: string ensures !CodeUnitLess(a, a) && (a != b ==> CodeUnitLess(a, b) || CodeUnitLess(b, a)) {
      CodeUnitsCompare(a, b);
    }
    forall a: string, b: string, c: string | CodeUnitLess(a, b) && CodeUnitLess(b, c) ensures CodeUnitLess(a, c) {
      CodeUnitsChain(a, b, c);
    }
    hide Canonical;
    CanonicalExactlyWhenNoTies(CodeUnitLess);
  }

  // ---------- An order with ties ----------

  /** Every composed letter taken apart. */
  function Spelled(s: string): string {
    if s == "" then "" else (if s[0] == COMPOSED[0] then DECOMPOSED else [s[0]]) + Spelled(s[1..])
  }

  predicate SpellingLess(a: string, b: string) {
    CodeUnitLess(Spelled(a), Spelled(b))
  }

  /** A comparison of spellings sorts, but is not canonical. */
  lemma SpellingOrderIsNotCanonical()
    ensures Strict(SpellingLess) && !Canonical(SpellingLess)
    ensures !SpellingLess(COMPOSED, DECOMPOSED) && !SpellingLess(DECOMPOSED, COMPOSED)
  {
    forall a: string ensures !SpellingLess(a, a) {
      CodeUnitsCompare(Spelled(a), "");
    }
    forall a: string, b: string, c: string | SpellingLess(a, b) && SpellingLess(b, c) ensures SpellingLess(a, c) {
      CodeUnitsChain(Spelled(a), Spelled(b), Spelled(c));
    }
    assert Spelled(COMPOSED) == DECOMPOSED == Spelled(DECOMPOSED) by {
      assert COMPOSED[1..] == "" && DECOMPOSED[1..] == [DECOMPOSED[1]] && DECOMPOSED[1..][1..] == "";
    }
    CodeUnitsCompare(DECOMPOSED, "");
    assert Strict(SpellingLess);
    hide Strict, Canonical;
    var less: Order := SpellingLess;
    assert COMPOSED != DECOMPOSED && !less(COMPOSED, DECOMPOSED) && !less(DECOMPOSED, COMPOSED);
    CanonicalExactlyWhenNoTies(less);
  }
}
