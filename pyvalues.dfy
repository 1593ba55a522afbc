/**
 * Python data as the application sees it: the values that travel through
 * JSON payloads, keyword arguments, ORM JSON fields and SDK objects, plus the
 * few built-in dict and str operations the application relies on, written
 * out with Python's semantics (insertion-ordered dicts, `str.replace`
 * replacing every occurrence, slices that clamp out-of-range indices).
 */
module PyValues {
  import opened Wrappers

  /** A Python value. A dict keeps its entries in insertion order. An object
    * that is none of the built-in kinds carries its `__dict__` (when
    * `hasDict`) and the result of its `_asdict()` (when `hasAsDict`). */
  datatype Py =
    | NoneVal
    | BoolVal(b: bool)
    | IntVal(i: int)
    | FloatVal(f: real)
    | StrVal(s: string)
    | ListVal(items: seq<Py>)
    | DictVal(entries: seq<Entry>)
    | ObjectVal(typeName: string, hasDict: bool, attrs: seq<Entry>, hasAsDict: bool, asDict: seq<Entry>)

  datatype Entry = Entry(key: string, val: Py)

  /** Python truthiness. */
  predicate Truthy(p: Py) {
    match p
    case NoneVal => false
    case BoolVal(b) => b
    case IntVal(i) => i != 0
    case FloatVal(f) => f != 0.0
    case StrVal(s) => s != ""
    case ListVal(items) => items != []
    case DictVal(entries) => entries != []
    case ObjectVal(_, _, _, _, _) => true
  }

  /** `x or y` on an optional string: the first operand that is a non-empty string. */
  function OrStr(x: Option<string>, y: Option<string>): (r: Option<string>)
    ensures r.Some? ==> r.value != "" && (r == x || r == y)
    ensures (x.Some? && x.value != "") ==> r == x
    ensures r.None? <==> (x.None? || x.value == "") && (y.None? || y.value == "")
  {
    if x.Some? && x.value != "" then x
    else if y.Some? && y.value != "" then y
    else None
  }

  // ---------------------------------------------------------------------
  // dicts

  function Keys(d: seq<Entry>): (ks: seq<string>)
    ensures |ks| == |d|
    ensures forall i :: 0 <= i < |d| ==> ks[i] == d[i].key
  {
    if d == [] then [] else [d[0].key] + Keys(d[1..])
  }

  /** No key occurs twice: what every Python dict satisfies. */
  predicate UniqueKeys(d: seq<Entry>) {
    forall i, j :: 0 <= i < j < |d| ==> d[i].key != d[j].key
  }

  predicate HasKey(d: seq<Entry>, k: string) {
    exists i :: 0 <= i < |d| && d[i].key == k
  }

  /** `d.get(k)`: the value stored under `k`, if any. */
  function Lookup(d: seq<Entry>, k: string): (r: Option<Py>)
    ensures r.Some? <==> HasKey(d, k)
    ensures r.Some? ==> exists i :: 0 <= i < |d| && d[i] == Entry(k, r.value)
  {
    if d == [] then None
    else if d[0].key == k then Some(d[0].val)
    else
      var r := Lookup(d[1..], k);
      assert forall i :: 0 <= i < |d| - 1 ==> d[1..][i] == d[i + 1];
      assert HasKey(d[1..], k) ==> HasKey(d, k);
      r
  }

  /** `d[k] = v`: an existing key keeps its position and takes the new
    * value; a new key is appended. */
  function DictSet(d: seq<Entry>, k: string, v: Py): (r: seq<Entry>)
  {
    if d == [] then [Entry(k, v)]
    else if d[0].key == k then [Entry(k, v)] + d[1..]
    else [d[0]] + DictSet(d[1..], k, v)
  }

  lemma {:induction false} DictSetLookup(d: seq<Entry>, k: string, v: Py, k': string)
    ensures Lookup(DictSet(d, k, v), k') == if k' == k then Some(v) else Lookup(d, k')
  {
    if d != [] && d[0].key != k {
      DictSetLookup(d[1..], k, v, k');
    }
  }

  /** Past a first entry with another key, the key is present in the rest
    * exactly when it is present at all. */
  lemma HasKeyTail(d: seq<Entry>, k: string)
    requires d != [] && d[0].key != k
    ensures HasKey(d[1..], k) <==> HasKey(d, k)
  {
    if HasKey(d, k) {
      var i :| 0 <= i < |d| && d[i].key == k;
      assert d[1..][i - 1].key == k;
    }
    if HasKey(d[1..], k) {
      var i :| 0 <= i < |d[1..]| && d[1..][i].key == k;
      assert d[i + 1].key == k;
    }
  }

  /** Setting an existing key leaves the key order alone; a new key goes last. */
  lemma {:induction false} DictSetKeys(d: seq<Entry>, k: string, v: Py)
    ensures HasKey(d, k) ==> Keys(DictSet(d, k, v)) == Keys(d)
    ensures !HasKey(d, k) ==> Keys(DictSet(d, k, v)) == Keys(d) + [k]
  {
    if d != [] && d[0].key != k {
      DictSetKeys(d[1..], k, v);
      HasKeyTail(d, k);
    } else if d != [] {
      assert HasKey(d, k) by { assert d[0].key == k; }
    }
  }

  /** After `d[k] = v` the keys are those of `d` and `k`. */
  lemma DictSetHasKey(d: seq<Entry>, k: string, v: Py, x: string)
    ensures HasKey(DictSet(d, k, v), x) <==> HasKey(d, x) || x == k
  {
    DictSetLookup(d, k, v, x);
  }

  lemma UniqueCons(e: Entry, d: seq<Entry>)
    ensures UniqueKeys([e] + d) <==> !HasKey(d, e.key) && UniqueKeys(d)
  {
    var r := [e] + d;
    if UniqueKeys(r) {
      forall i | 0 <= i < |d|
        ensures d[i].key != e.key
      {
        assert d[i] == r[i + 1] && r[0] == e;
        assert r[0].key != r[i + 1].key;
      }
      assert forall i :: 0 <= i < |d| ==> d[i] == r[i + 1];
    }
    if !HasKey(d, e.key) && UniqueKeys(d) {
      forall i, j | 0 <= i < j < |r|
        ensures r[i].key != r[j].key
      {
        assert r[j] == d[j - 1];
        if i > 0 {
          assert r[i] == d[i - 1];
        }
      }
    }
  }

  /** `d[k] = v` keeps a dict's keys unique. */
  lemma {:induction false} DictSetUnique(d: seq<Entry>, k: string, v: Py)
    requires UniqueKeys(d)
    ensures UniqueKeys(DictSet(d, k, v))
  {
    if d != [] {
      UniqueCons(d[0], d[1..]);
      assert d == [d[0]] + d[1..];
      if d[0].key == k {
        UniqueCons(Entry(k, v), d[1..]);
      } else {
        DictSetUnique(d[1..], k, v);
        DictSetHasKey(d[1..], k, v, d[0].key);
        UniqueCons(d[0], DictSet(d[1..], k, v));
      }
    }
  }

  /** `d.update(other)`: every entry of `other` set in turn. */
  function DictUpdate(d: seq<Entry>, other: seq<Entry>): (r: seq<Entry>)
    decreases |other|
  {
    if other == [] then d
    else DictUpdate(DictSet(d, other[0].key, other[0].val), other[1..])
  }

  /** After `d.update(other)`, a key of `other` maps to `other`'s value and
    * every other key keeps its value in `d`. */
  lemma {:induction false} DictUpdateLookup(d: seq<Entry>, other: seq<Entry>, k: string)
    requires UniqueKeys(other)
    ensures Lookup(DictUpdate(d, other), k) == if HasKey(other, k) then Lookup(other, k) else Lookup(d, k)
    decreases |other|
  {
    if other != [] {
      var d' := DictSet(d, other[0].key, other[0].val);
      var rest := other[1..];
      assert UniqueKeys(rest) by {
        forall i, j | 0 <= i < j < |rest| ensures rest[i].key != rest[j].key {
          assert rest[i] == other[i + 1] && rest[j] == other[j + 1];
        }
      }
      DictUpdateLookup(d', rest, k);
      DictSetLookup(d, other[0].key, other[0].val, k);
      assert HasKey(rest, k) ==> HasKey(other, k) && other[0].key != k && Lookup(other, k) == Lookup(rest, k) by {
        if HasKey(rest, k) {
          var j :| 0 <= j < |rest| && rest[j].key == k;
          assert other[j + 1].key == k;
        }
      }
      assert HasKey(other, k) && other[0].key != k ==> HasKey(rest, k) by {
        if HasKey(other, k) && other[0].key != k {
          var j :| 0 <= j < |other| && other[j].key == k;
          assert rest[j - 1].key == k;
        }
      }
    }
  }

  /** The entries whose key satisfies `keep`, in order. */
  function FilterKeys(d: seq<Entry>, keep: string -> bool): (r: seq<Entry>)
    ensures forall e :: e in r <==> e in d && keep(e.key)
    ensures |r| <= |d|
  {
    if d == [] then []
    else if keep(d[0].key) then [d[0]] + FilterKeys(d[1..], keep)
    else FilterKeys(d[1..], keep)
  }

  lemma {:induction false} FilterKeysKeys(d: seq<Entry>, keep: string -> bool, k: string)
    ensures k in Keys(FilterKeys(d, keep)) <==> k in Keys(d) && keep(k)
  {
    if d != [] {
      FilterKeysKeys(d[1..], keep, k);
      assert Keys(d) == [d[0].key] + Keys(d[1..]);
      if keep(d[0].key) {
        assert Keys(FilterKeys(d, keep)) == [d[0].key] + Keys(FilterKeys(d[1..], keep));
      }
    }
  }

  /** `d.pop(k, default)`: the popped value (or the default) and the dict without `k`. */
  function DictPop(d: seq<Entry>, k: string, default: Py): (r: (Py, seq<Entry>))
    ensures r.0 == Lookup(d, k).GetOr(default)
    ensures forall e :: e in r.1 <==> e in d && e.key != k
  {
    (Lookup(d, k).GetOr(default), FilterKeys(d, x => x != k))
  }

  // ---------------------------------------------------------------------
  // strings

  predicate StartsWith(s: string, prefix: string) {
    |prefix| <= |s| && s[..|prefix|] == prefix
  }

  predicate EndsWith(s: string, suffix: string) {
    |suffix| <= |s| && s[|s| - |suffix|..] == suffix
  }

  /** `sub` occurs in `s` starting at index `i`. */
  predicate OccursAt(s: string, sub: string, i: int) {
    0 <= i <= |s| - |sub| && s[i..i + |sub|] == sub
  }

  /** `sub in s`. */
  predicate Contains(s: string, sub: string) {
    exists i | 0 <= i <= |s| - |sub| :: OccursAt(s, sub, i)
  }

  /** `s.replace(old, new)` for a non-empty `old`: every non-overlapping
    * occurrence, scanning left to right, is replaced. For an empty `old`
    * Python inserts `new` before every character and at the end. */
  function ReplaceAll(s: string, target: string, repl: string): string
    decreases |s|
  {
    if target == "" then
      (if s == [] then repl else repl + [s[0]] + ReplaceAll(s[1..], target, repl))
    else if |s| < |target| then s
    else if s[..|target|] == target then repl + ReplaceAll(s[|target|..], target, repl)
    else [s[0]] + ReplaceAll(s[1..], target, repl)
  }

  /** Replacing a non-empty string that does not occur leaves the text unchanged. */
  lemma {:induction false} ReplaceAbsent(s: string, target: string, repl: string)
    requires target != "" && !Contains(s, target)
    ensures ReplaceAll(s, target, repl) == s
    decreases |s|
  {
    if |s| >= |target| {
      assert !OccursAt(s, target, 0);
      ContainsTail(s, target);
      ReplaceAbsent(s[1..], target, repl);
    }
  }

  lemma ContainsTail(s: string, sub: string)
    requires s != []
    ensures Contains(s[1..], sub) ==> Contains(s, sub)
  {
    if Contains(s[1..], sub) {
      var t := s[1..];
      var i :| 0 <= i <= |t| - |sub| && OccursAt(t, sub, i);
      assert t[i..i + |sub|] == sub;
      assert s[i + 1..i + 1 + |sub|] == t[i..i + |sub|];
      assert OccursAt(s, sub, i + 1);
    }
  }

  /** Where a non-empty target occurs, its replacement occurs in the result. */
  lemma {:induction false} ReplaceInserts(s: string, target: string, repl: string)
    requires target != "" && Contains(s, target)
    ensures Contains(ReplaceAll(s, target, repl), repl)
    decreases |s|
  {
    if s[..|target|] == target {
      var r := ReplaceAll(s, target, repl);
      assert r[0..|repl|] == repl;
      assert OccursAt(r, repl, 0);
    } else {
      var i :| 0 <= i <= |s| - |target| && OccursAt(s, target, i);
      assert i != 0;
      assert s[1..][i - 1..i - 1 + |target|] == s[i..i + |target|];
      assert OccursAt(s[1..], target, i - 1);
      ReplaceInserts(s[1..], target, repl);
      var rest := ReplaceAll(s[1..], target, repl);
      ContainsTail([s[0]] + rest, repl);
      assert ([s[0]] + rest)[1..] == rest;
    }
  }

  /** Replacing a string by itself changes nothing. */
  lemma {:induction false} ReplaceBySelf(s: string, target: string)
    ensures ReplaceAll(s, target, target) == s
    decreases |s|
  {
    if target == "" {
      if s != [] { ReplaceBySelf(s[1..], target); }
    } else if |s| >= |target| {
      if s[..|target|] == target {
        ReplaceBySelf(s[|target|..], target);
        assert s == s[..|target|] + s[|target|..];
      } else {
        ReplaceBySelf(s[1..], target);
        assert s == [s[0]] + s[1..];
      }
    }
  }

  /** A text that is exactly one occurrence becomes the replacement. */
  lemma ReplaceWhole(target: string, repl: string)
    requires target != ""
    ensures ReplaceAll(target, target, repl) == repl
  {
    assert target[|target|..] == "";
  }

  function LowerChar(c: char): char {
    if 'A' <= c <= 'Z' then (c as int + 32) as char else c
  }

  /** `s.lower()` on ASCII letters. */
  function Lower(s: string): (r: string)
    ensures |r| == |s|
    ensures forall i :: 0 <= i < |s| ==> r[i] == LowerChar(s[i])
  {
    if s == [] then [] else [LowerChar(s[0])] + Lower(s[1..])
  }

  /** `s.rfind(c)`: the last index holding `c`, or -1. */
  function RFind(s: string, c: char): (r: int)
    ensures -1 <= r < |s|
    ensures r >= 0 ==> s[r] == c
    ensures forall i :: r < i < |s| ==> s[i] != c
  {
    if s == [] then -1
    else if s[|s| - 1] == c then |s| - 1
    else RFind(s[..|s| - 1], c)
  }

  /** `s[i:]` with Python's handling of negative and out-of-range `i`. */
  function SliceFrom(s: string, i: int): (r: string)
    ensures |r| <= |s|
  {
    var start := if i < 0 then (if |s| + i < 0 then 0 else |s| + i) else (if i > |s| then |s| else i);
    s[start..]
  }

  /** `s[:j]` with Python's handling of negative and out-of-range `j`. */
  function SliceTo(s: string, j: int): (r: string)
    ensures |r| <= |s|
  {
    var stop := if j < 0 then (if |s| + j < 0 then 0 else |s| + j) else (if j > |s| then |s| else j);
    s[..stop]
  }

  /** Decimal rendering of an integer, as `str(n)` and f-strings give it. */
  function IntToString(n: int): (r: string)
    ensures r != ""
    decreases if n < 0 then 1 - n else n
  {
    if n < 0 then "-" + IntToString(-n)
    else if n < 10 then [('0' as int + n) as char]
    else IntToString(n / 10) + [('0' as int + n % 10) as char]
  }

  // ---------------------------------------------------------------------
  // JSON encoding

  /** Values built only from primitives, lists and dicts: what
    * JSON encodes, and what `serialize_to_dict` produces. */
  predicate Plain(o: Py)
    decreases o
  {
    match o
    case ListVal(items) => forall i :: 0 <= i < |items| ==> Plain(items[i])
    case DictVal(es) => forall i :: 0 <= i < |es| ==> Plain(es[i].val)
    case ObjectVal(_, _, _, _, _) => false
    case _ => true
  }

  /** The message `json.dumps` raises with for a value holding an object:
    * the type of the first object met in encoding order. */
  function FirstUnencodable(p: Py): (r: Option<string>)
    ensures r.None? <==> Plain(p)
    decreases p, 1
  {
    match p
    case ObjectVal(t, _, _, _, _) => Some(t)
    case ListVal(items) => FirstUnencodableIn(items, p)
    case DictVal(es) => FirstUnencodableEntries(es, p)
    case _ => None
  }

  function FirstUnencodableIn(items: seq<Py>, ghost parent: Py): (r: Option<string>)
    requires forall i :: 0 <= i < |items| ==> items[i] < parent
    ensures r.None? <==> forall i :: 0 <= i < |items| ==> Plain(items[i])
    decreases parent, 0, |items|
  {
    if items == [] then None
    else match FirstUnencodable(items[0])
      case Some(t) => Some(t)
      case None => FirstUnencodableIn(items[1..], parent)
  }

  function FirstUnencodableEntries(es: seq<Entry>, ghost parent: Py): (r: Option<string>)
    requires forall i :: 0 <= i < |es| ==> es[i].val < parent
    ensures r.None? <==> forall i :: 0 <= i < |es| ==> Plain(es[i].val)
    decreases parent, 0, |es|
  {
    if es == [] then None
    else match FirstUnencodable(es[0].val)
      case Some(t) => Some(t)
      case None => FirstUnencodableEntries(es[1..], parent)
  }

  /** The TypeError message of the JSON encoders for a value of that type. */
  function NotJsonSerializable(typeName: string): string {
    "Object of type " + typeName + " is not JSON serializable"
  }
}
