/** Canonical JSON and request hashes. A JSON text is represented by its parse tree with the members of an
    object in the order in which they are written. */
module StableJson {
  import opened Wrappers

  /** What the gateway hands to `stableJson`: an object is its own entries in enumeration order. A date
      stands for its ISO text, a number for an integer; `NonFinite` covers NaN and the infinities. */
  datatype Value =
    | Undefined
    | Null
    | Bool(flag: bool)
    | Num(number: int)
    | NonFinite
    | Str(text: string)
    | Big(integer: int)
    | Date(iso: string)
    | Arr(items: seq<Value>)
    | Obj(entries: seq<Entry>)

  datatype Entry = Entry(key: string, value: Value)

  datatype Json =
    | JNull
    | JBool(flag: bool)
    | JNum(number: int)
    | JStr(text: string)
    | JArr(items: seq<Json>)
    | JObj(fields: seq<Field>)

  datatype Field = Field(key: string, value: Json)

  type Order = (string, string) -> bool

  ghost predicate Strict(less: Order) {
    && (forall a: string :: !less(a, a))
    && (forall a: string, b: string, c: string | less(a, b) && less(b, c) :: less(a, c))
  }

  ghost predicate Total(less: Order) {
    forall a: string, b: string | a != b :: less(a, b) || less(b, a)
  }

  // ---------- Filtering and sorting ----------

  function Kept(s: seq<Entry>): (r: seq<Entry>)
    ensures forall x :: x in r <==> x in s && !x.value.Undefined?
  {
    if s == [] then []
    else Kept(s[..|s| - 1]) + (if s[|s| - 1].value.Undefined? then [] else [s[|s| - 1]])
  }

  /** Goes behind everything that is not greater, so that ties keep their order. */
  function Insert(less: Order, e: Entry, s: seq<Entry>): (r: seq<Entry>)
    ensures forall x :: x in r <==> x == e || x in s
  {
    if s == [] then [e]
    else
      var last := s[|s| - 1];
      if less(e.key, last.key) then Insert(less, e, s[..|s| - 1]) + [last] else s + [e]
  }

  function Sort(less: Order, s: seq<Entry>): (r: seq<Entry>)
    ensures forall x :: x in r <==> x in s
  {
    if s == [] then [] else Insert(less, s[|s| - 1], Sort(less, s[..|s| - 1]))
  }

  // ---------- The text ----------

  function Digits(n: nat): string {
    if n < 10 then ["0123456789"[n]] else Digits(n / 10) + ["0123456789"[n % 10]]
  }

  function Decimal(n: int): string {
    if n < 0 then "-" + Digits(-n) else Digits(n)
  }

  /** The text of a value where one has to stand, so that `undefined` reads as null. */
  function Tree(less: Order, v: Value): Json {
    match v
    case Undefined => JNull
    case Null => JNull
    case Bool(flag) => JBool(flag)
    case Num(number) => JNum(number)
    case NonFinite => JNull
    case Str(text) => JStr(text)
    case Big(integer) => JStr(Decimal(integer))
    case Date(iso) => JStr(iso)
    case Arr(items) => JArr(seq(|items|, i requires 0 <= i < |items| => Tree(less, items[i])))
    case Obj(entries) =>
      var sorted := Sort(less, Kept(entries));
      JObj(seq(|sorted|, i requires 0 <= i < |sorted| =>
                 assert sorted[i] in entries; Field(sorted[i].key, Tree(less, sorted[i].value))))
  }

  /** `stableJson`; no text for `undefined` itself. */
  function Text(less: Order, v: Value): Option<Json> {
    if v.Undefined? then None else Some(Tree(less, v))
  }

  function Parse(j: Json): (v: Value)
    ensures !v.Undefined?
  {
    match j
    case JNull => Null
    case JBool(flag) => Bool(flag)
    case JNum(number) => Num(number)
    case JStr(text) => Str(text)
    case JArr(items) => Arr(seq(|items|, i requires 0 <= i < |items| => Parse(items[i])))
    case JObj(fields) => Obj(seq(|fields|, i requires 0 <= i < |fields| => Entry(fields[i].key, Parse(fields[i].value))))
  }

  /** `safe`: what is left of a value after writing and reading it. */
  function Safe(less: Order, v: Value): Option<Value> {
    match Text(less, v)
    case None => None
    case Some(j) => Some(Parse(j))
  }

  /** SHA-256 is taken to be injective. */
  datatype Digest = Sha256(of: Json)

  function RequestHash(less: Order, v: Value): Option<Digest> {
    match Text(less, v)
    case None => None
    case Some(j) => Some(Sha256(j))
  }

  // ---------- What the text is meant to identify ----------

  predicate UniqueKeys(s: seq<Entry>) {
    forall i, j | 0 <= i < j < |s| :: s[i].key != s[j].key
  }

  predicate WellFormed(v: Value) {
    match v
    case Arr(items) => forall i | 0 <= i < |items| :: WellFormed(items[i])
    case Obj(entries) => UniqueKeys(entries) && forall i | 0 <= i < |entries| :: WellFormed(entries[i].value)
    case _ => true
  }

  /** Scalars by what they say: big integers and dates are strings, absent and non-finite ones null. */
  function Scalar(v: Value): Option<Json> {
    match v
    case Undefined => Some(JNull)
    case Null => Some(JNull)
    case Bool(flag) => Some(JBool(flag))
    case Num(number) => Some(JNum(number))
    case NonFinite => Some(JNull)
    case Str(text) => Some(JStr(text))
    case Big(integer) => Some(JStr(Decimal(integer)))
    case Date(iso) => Some(JStr(iso))
    case _ => None
  }

  /** The same value up to the order of members and members that are undefined, at every depth. */
  ghost predicate Same(v: Value, w: Value) {
    match v
    case Arr(items) => w.Arr? && |w.items| == |items| && forall i | 0 <= i < |items| :: Same(items[i], w.items[i])
    case Obj(entries) =>
      && w.Obj?
      && (forall i | 0 <= i < |entries| && !entries[i].value.Undefined? ::
            exists j ::
              0 <= j < |w.entries| && Matches(w.entries[j], entries[i].key) && Same(entries[i].value, w.entries[j].value))
      && (forall j | 0 <= j < |w.entries| && !w.entries[j].value.Undefined? ::
            exists i :: 0 <= i < |entries| && Matches(entries[i], w.entries[j].key))
    case _ => Scalar(v) == Scalar(w)
  }

  predicate Matches(e: Entry, key: string) {
    e.key == key && !e.value.Undefined?
  }

  ghost predicate Equivalent(v: Value, w: Value) {
    (v.Undefined? <==> w.Undefined?) && Same(v, w)
  }

  // ---------- Sorting by a strict total order ----------

  ghost predicate Ascending(less: Order, s: seq<Entry>) {
    forall i, j | 0 <= i < j < |s| :: less(s[i].key, s[j].key)
  }

  lemma {:induction false} KeptIsUnique(s: seq<Entry>)
    requires UniqueKeys(s)
    ensures UniqueKeys(Kept(s))
  {
    if s != [] {
      var init, last := s[..|s| - 1], s[|s| - 1];
      KeptIsUnique(init);
      forall x | x in Kept(init) ensures x.key != last.key {
        var i :| 0 <= i < |init| && init[i] == x;
        assert s[i] == x;
      }
    }
  }

  lemma {:induction false} InsertAscends(less: Order, e: Entry, s: seq<Entry>)
    requires Strict(less) && Total(less) && Ascending(less, s)
    requires forall i | 0 <= i < |s| :: s[i].key != e.key
    ensures Ascending(less, Insert(less, e, s))
  {
    if s != [] {
      var init, last := s[..|s| - 1], s[|s| - 1];
      if less(e.key, last.key) {
        InsertAscends(less, e, init);
        var r := Insert(less, e, init);
        forall i | 0 <= i < |r| ensures less(r[i].key, last.key) {
          assert r[i] in r;
          if r[i] != e {
            var k :| 0 <= k < |init| && init[k] == r[i];
            assert s[k] == r[i];
          }
        }
      } else {
        forall i | 0 <= i < |s| ensures less(s[i].key, e.key) {
          assert less(last.key, e.key);
        }
      }
    }
  }

  lemma {:induction false} SortAscends(less: Order, s: seq<Entry>)
    requires Strict(less) && Total(less) && UniqueKeys(s)
    ensures Ascending(less, Sort(less, s))
  {
    if s != [] {
      var init := s[..|s| - 1];
      SortAscends(less, init);
      var r := Sort(less, init);
      forall i | 0 <= i < |r| ensures r[i].key != s[|s| - 1].key {
        assert r[i] in r;
        var k :| 0 <= k < |init| && init[k] == r[i];
        assert s[k] == r[i];
      }
      InsertAscends(less, s[|s| - 1], r);
    }
  }

  /** An ascending list is its own sorted form. */
  lemma {:induction false} SortedStays(less: Order, s: seq<Entry>)
    requires Strict(less) && Ascending(less, s)
    ensures Sort(less, s) == s
  {
    if s != [] {
      var init, last := s[..|s| - 1], s[|s| - 1];
      SortedStays(less, init);
      assert s == init + [last];
      if init != [] {
        assert less(init[|init| - 1].key, last.key);
        assert !less(last.key, init[|init| - 1].key);
      }
    }
  }

  ghost predicate FieldsAscend(less: Order, f: seq<Field>) {
    forall i, j | 0 <= i < j < |f| :: less(f[i].key, f[j].key)
  }

  /** Two ascending lists with the same elements are the same list. */
  lemma {:induction false} AscendingIsDetermined(less: Order, f: seq<Field>, g: seq<Field>)
    requires Strict(less) && FieldsAscend(less, f) && FieldsAscend(less, g)
    requires forall x :: x in f <==> x in g
    ensures f == g
  {
    if f == [] {
      assert forall i | 0 <= i < |g| :: g[i] in g;
    } else {
      assert f[0] in g;
      assert g[0] in f;
      var i :| 0 <= i < |g| && g[i] == f[0];
      var j :| 0 <= j < |f| && f[j] == g[0];
      assert f[0] == g[0];
      forall x ensures x in f[1..] <==> x in g[1..] {
        TailElements(less, f, x);
        TailElements(less, g, x);
      }
      AscendingIsDetermined(less, f[1..], g[1..]);
      assert f == [f[0]] + f[1..] && g == [g[0]] + g[1..];
    }
  }

  lemma TailElements(less: Order, f: seq<Field>, x: Field)
    requires Strict(less) && f != [] && FieldsAscend(less, f)
    ensures x in f[1..] <==> x in f && x != f[0]
  {
    if x in f && x != f[0] {
      var i :| 0 <= i < |f| && f[i] == x;
      assert f[1..][i - 1] == x;
    }
    if x in f[1..] {
      var i :| 0 <= i < |f[1..]| && f[1..][i] == x;
      assert f[i + 1] == x;
    }
  }
}
