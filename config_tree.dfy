/** Configuration values as the task adapters see them: nested dictionaries
    (mmcv `Config`/`ConfigDict`) whose leaves are Python scalars and lists.

    A dictionary is kept as its entries in insertion order, as Python keeps
    them. Reading takes the first entry with the key; writing replaces that
    entry in place or appends a new one; removing drops every entry with the
    key. */
module ConfigTree {
  import opened Results

  datatype Value =
    | Null                      // Python None
    | Bool(b: bool)
    | Int(i: int)
    | Str(s: string)
    | List(items: seq<Value>)
    | Dict(entries: seq<Entry>)
    | Object(id: nat)           // anything else: datasets, labels, floats, callables

  datatype Entry = Entry(key: string, value: Value)

  /** Position of the first entry with `key`, if any. */
  function IndexOf(entries: seq<Entry>, key: string): (r: Option<nat>)
    ensures r.Some? ==> r.value < |entries| && entries[r.value].key == key
    ensures r.Some? ==> forall j | 0 <= j < r.value :: entries[j].key != key
    ensures r.None? ==> forall j | 0 <= j < |entries| :: entries[j].key != key
    decreases entries
  {
    if entries == [] then None
    else if entries[0].key == key then Some(0)
    else match IndexOf(entries[1..], key)
      case None => None
      case Some(i) => Some(i + 1)
  }

  /** The value stored under `key`, if any. */
  function Lookup(entries: seq<Entry>, key: string): Option<Value>
    decreases entries
  {
    if entries == [] then None
    else if entries[0].key == key then Some(entries[0].value)
    else Lookup(entries[1..], key)
  }

  /** Reading finds the first entry with the key, and nothing when no entry has it. */
  lemma {:induction false} LookupFirst(entries: seq<Entry>, key: string)
    ensures Lookup(entries, key) == match IndexOf(entries, key) case None => None case Some(i) => Some(entries[i].value)
    ensures Lookup(entries, key).Some? <==> exists i | 0 <= i < |entries| :: entries[i].key == key
    decreases entries
  {
    if entries != [] && entries[0].key != key {
      LookupFirst(entries[1..], key);
      assert forall i | 1 <= i < |entries| :: entries[i] == entries[1..][i - 1];
    }
  }

  predicate HasKey(entries: seq<Entry>, key: string)
  {
    Lookup(entries, key).Some?
  }

  /** `dict.get(key, default)`. */
  function Get(entries: seq<Entry>, key: string, default: Value): Value
  {
    match Lookup(entries, key)
    case Some(v) => v
    case None => default
  }

  /** `d[key] = v`: the entry keeps its position when the key is present, and is appended otherwise. */
  function Set(entries: seq<Entry>, key: string, v: Value): (r: seq<Entry>)
    ensures Lookup(r, key) == Some(v)
    ensures forall k | k != key :: Lookup(r, k) == Lookup(entries, k)
    decreases entries
  {
    if entries == [] then [Entry(key, v)]
    else if entries[0].key == key then [Entry(key, v)] + entries[1..]
    else [entries[0]] + Set(entries[1..], key, v)
  }

  /** `d.pop(key, None)` as far as the dictionary is concerned: the key is gone. */
  function Remove(entries: seq<Entry>, key: string): (r: seq<Entry>)
    ensures Lookup(r, key) == None
    ensures forall k | k != key :: Lookup(r, k) == Lookup(entries, k)
    decreases entries
  {
    if entries == [] then []
    else if entries[0].key == key then Remove(entries[1..], key)
    else [entries[0]] + Remove(entries[1..], key)
  }

  /** The keys of a Python dictionary are distinct. */
  predicate UniqueKeys(entries: seq<Entry>)
  {
    forall i, j | 0 <= i < j < |entries| :: entries[i].key != entries[j].key
  }

  /** `d.update(other)`: every key of `other` takes `other`'s value; the other keys keep theirs. */
  function Update(entries: seq<Entry>, other: seq<Entry>): (r: seq<Entry>)
    ensures UniqueKeys(other) ==> forall k | HasKey(other, k) :: Lookup(r, k) == Lookup(other, k)
    ensures forall k | !HasKey(other, k) :: Lookup(r, k) == Lookup(entries, k)
    decreases other
  {
    if other == [] then entries
    else
      var r := Update(Set(entries, other[0].key, other[0].value), other[1..]);
      LookupFirst(other[1..], other[0].key);
      assert UniqueKeys(other) ==> !HasKey(other[1..], other[0].key);
      r
  }

  const WrongLength := "dictionary update sequence element has the wrong length"
  const NotIterable := "object is not iterable"
  const KeyNotString := "key is not a string"

  /** One item of a key/value sequence, as `dict.update` and `ConfigDict`
      read it: an iterable of exactly two items, the key and the value. A
      string yields its characters and a dictionary its keys. An item that
      is not iterable is a TypeError, and one of another length a
      ValueError. */
  function PairEntry(item: Value): (r: Result<Entry>)
    ensures r.Ok? ==> Len(item) == Some(2)
    ensures Len(item).None? ==> r.Err? && r.error.TypeError?
    ensures Len(item).Some? && Len(item) != Some(2) ==> r.Err? && r.error.ValueError?
    ensures item.Str? && |item.s| == 2 ==> r == Ok(Entry([item.s[0]], Str([item.s[1]])))
  {
    match item
    case List(xs) =>
      if |xs| != 2 then Err(ValueError(WrongLength))
      else if !xs[0].Str? then Err(TypeError(KeyNotString))
      else Ok(Entry(xs[0].s, xs[1]))
    case Str(s) =>
      if |s| != 2 then Err(ValueError(WrongLength))
      else Ok(Entry([s[0]], Str([s[1]])))
    case Dict(e) =>
      if |e| != 2 then Err(ValueError(WrongLength))
      else Ok(Entry(e[0].key, Str(e[1].key)))
    case _ => Err(TypeError(NotIterable))
  }

  /** The items a `for` loop visits in `v`: a list's items, a string's
      characters, a dictionary's keys; other values are not iterable. */
  function Items(v: Value): (r: Result<seq<Value>>)
    ensures r.Ok? <==> v.List? || v.Str? || v.Dict?
    ensures r.Ok? ==> Some(|r.value|) == Len(v)
    ensures v.List? ==> r == Ok(v.items)
    ensures v.Str? ==> r.Ok? && forall i | 0 <= i < |v.s| :: r.value[i] == Str([v.s[i]])
    ensures v.Dict? ==> r.Ok? && forall i | 0 <= i < |v.entries| :: r.value[i] == Str(v.entries[i].key)
  {
    match v
    case List(xs) => Ok(xs)
    case Str(s) => Ok(seq(|s|, i requires 0 <= i < |s| => Str([s[i]])))
    case Dict(e) => Ok(seq(|e|, i requires 0 <= i < |e| => Str(e[i].key)))
    case _ => Err(TypeError(NotIterable))
  }

  /** `len(v)` for the values that have one. */
  function Len(v: Value): Option<nat>
  {
    match v
    case Str(s) => Some(|s|)
    case List(items) => Some(|items|)
    case Dict(entries) => Some(|entries|)
    case _ => None
  }

  /** The entries of a sequence of pairs, in order; the first bad item decides the error. */
  function Pairs(items: seq<Value>): (r: Result<seq<Entry>>)
    ensures r.Ok? <==> forall i | 0 <= i < |items| :: PairEntry(items[i]).Ok?
    ensures r.Ok? ==> |r.value| == |items| && forall i | 0 <= i < |items| :: r.value[i] == PairEntry(items[i]).value
    ensures r.Err? ==> exists i | 0 <= i < |items| :: PairEntry(items[i]).Err? && r.error == PairEntry(items[i]).error
    decreases |items|
  {
    if items == [] then Ok([])
    else
      var e :- PairEntry(items[0]);
      var rest :- Pairs(items[1..]);
      assert forall i | 1 <= i < |items| :: items[i] == items[1..][i - 1];
      Ok([e] + rest)
  }

  /** What `d.update(v)` reads from `v`: a dictionary's entries, or the
      pairs of any other iterable. A string's items are single characters,
      so only the empty string passes. */
  function UpdatePairs(v: Value): (r: Result<seq<Entry>>)
    ensures v.Dict? ==> r == Ok(v.entries)
    ensures v.Str? ==> (r.Ok? <==> v.s == "") && (r.Err? ==> r.error.ValueError?)
    ensures (v.Int? || v.Bool? || v.Null? || v.Object?) ==> r.Err? && r.error.TypeError?
    ensures v.List? ==> r == Pairs(v.items)
  {
    match v
    case Dict(e) => Ok(e)
    case List(items) => Pairs(items)
    case Str(s) => if s == "" then Ok([]) else Err(ValueError(WrongLength))
    case _ => Err(TypeError(NotIterable))
  }

  /** `ConfigDict(v)`: a falsy `v` gives an empty dictionary; anything else
      is read as `dict.update` reads it, a later pair overriding an earlier
      one with the same key. */
  function ConfigDictOf(v: Value): (r: Result<seq<Entry>>)
    ensures !Truthy(v) ==> r == Ok([])
    ensures Truthy(v) && v.Dict? && UniqueKeys(v.entries) ==>
      r.Ok? && forall k :: Lookup(r.value, k) == Lookup(v.entries, k)
    ensures Truthy(v) ==> (r.Ok? <==> UpdatePairs(v).Ok?)
    ensures Truthy(v) && r.Err? ==> r.error == UpdatePairs(v).error
  {
    if !Truthy(v) then Ok([])
    else
      var p :- UpdatePairs(v);
      Ok(Update([], p))
  }

  /** Values a Python `set` can hold: lists and dictionaries are unhashable. */
  predicate Hashable(v: Value)
  {
    !v.List? && !v.Dict?
  }

  /** Python truthiness. */
  predicate Truthy(v: Value)
  {
    match v
    case Null => false
    case Bool(b) => b
    case Int(i) => i != 0
    case Str(s) => s != ""
    case List(items) => items != []
    case Dict(entries) => entries != []
    case Object(_) => true
  }

  /** The integer a value stands for: Python's `bool` is a subclass of `int`. */
  function AsInt(v: Value): Option<int>
  {
    match v
    case Int(i) => Some(i)
    case Bool(b) => Some(if b then 1 else 0)
    case _ => None
  }
}
