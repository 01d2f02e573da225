/**
 * PHP values and PHP arrays, as far as the options panel uses them.
 *
 * A PHP array is an insertion-ordered map. It is modelled as a sequence of
 * (key, value) pairs; declaration order is sequence order. Keys are strings:
 * PHP treats an integer key and its decimal string as the same key, so an
 * integer key is written here as its decimal string.
 */
module PhpArrays {

  datatype Option<+T> = None | Some(value: T)

  /** A PHP value. Floats and objects are not modelled. */
  datatype Value =
    | Null
    | Bool(b: bool)
    | Int(i: int)
    | Str(s: string)
    | Arr(entries: seq<(string, Value)>)

  type PhpArray = seq<(string, Value)>

  /** PHP truthiness of a string: `""` and `"0"` are falsy. */
  predicate TruthyString(s: string) {
    s != "" && s != "0"
  }

  /** PHP truthiness: what `if ($v)` accepts and `empty($v)` rejects. */
  predicate Truthy(v: Value) {
    match v
    case Null => false
    case Bool(b) => b
    case Int(i) => i != 0
    case Str(s) => TruthyString(s)
    case Arr(e) => e != []
  }

  /** The keys of an array, in declaration order. */
  function Keys(a: PhpArray): (ks: seq<string>)
    ensures |ks| == |a|
    ensures forall i :: 0 <= i < |a| ==> ks[i] == a[i].0
  {
    if a == [] then [] else [a[0].0] + Keys(a[1..])
  }

  predicate HasKey(a: PhpArray, k: string) {
    k in Keys(a)
  }

  /** Every PHP array has pairwise distinct keys. */
  predicate UniqueKeys(a: PhpArray) {
    forall i, j :: 0 <= i < j < |a| ==> a[i].0 != a[j].0
  }

  /** `$a[$k]` when the key may be missing: the value stored under `k`, if any. */
  function Get(a: PhpArray, k: string): (r: Option<Value>)
    ensures r.Some? <==> HasKey(a, k)
    ensures r.Some? ==> exists i :: 0 <= i < |a| && a[i] == (k, r.value)
  {
    if a == [] then None
    else if a[0].0 == k then
      assert Keys(a)[0] == k;
      Some(a[0].1)
    else
      assert Keys(a) == [a[0].0] + Keys(a[1..]);
      var r := Get(a[1..], k);
      assert r.Some? ==> exists i :: 0 <= i < |a[1..]| && a[1..][i] == (k, r.value);
      r
  }

  /**
   * `$a[$k] = $v`: a key that exists keeps its position and gets the new
   * value; a new key is appended at the end.
   */
  function Set(a: PhpArray, k: string, v: Value): (r: PhpArray)
    ensures Keys(r) == if HasKey(a, k) then Keys(a) else Keys(a) + [k]
  {
    if a == [] then [(k, v)]
    else if a[0].0 == k then
      var r := [(k, v)] + a[1..];
      assert Keys(a)[0] == k;
      assert Keys(r) == Keys(a);
      r
    else
      var rest := Set(a[1..], k, v);
      var r := [a[0]] + rest;
      assert Keys(a) == [a[0].0] + Keys(a[1..]);
      assert Keys(r) == [a[0].0] + Keys(rest);
      r
  }

  /** After `$a[$k] = $v`, `$a[$k]` is `v` and every other key reads as before. */
  lemma {:induction false} SetGet(a: PhpArray, k: string, v: Value, j: string)
    ensures Get(Set(a, k, v), j) == if j == k then Some(v) else Get(a, j)
  {
    if a != [] && a[0].0 != k {
      SetGet(a[1..], k, v, j);
      assert Set(a, k, v)[1..] == Set(a[1..], k, v);
    }
  }

  /** Writing one entry keeps the keys of an array distinct. */
  lemma {:induction false} SetUnique(a: PhpArray, k: string, v: Value)
    requires UniqueKeys(a)
    ensures UniqueKeys(Set(a, k, v))
  {
  }

  /** The keys of `ks` that are not in `seen`, in their order. */
  function Fresh(ks: seq<string>, seen: seq<string>): seq<string> {
    if ks == [] then []
    else (if ks[0] in seen then [] else [ks[0]]) + Fresh(ks[1..], seen)
  }

  /**
   * `array_merge($defaults, $args)` for string keys, which is what
   * `wp_parse_args` returns for an array argument: every entry of `args`
   * is written over `defaults`, in order.
   */
  function Merge(defaults: PhpArray, args: PhpArray): (r: PhpArray)
    ensures Keys(defaults) <= Keys(r)
    ensures forall k :: HasKey(r, k) <==> HasKey(defaults, k) || HasKey(args, k)
    decreases args
  {
    if args == [] then defaults
    else
      var d := Set(defaults, args[0].0, args[0].1);
      assert Keys(args) == [args[0].0] + Keys(args[1..]);
      assert Keys(defaults) <= Keys(d);
      Merge(d, args[1..])
  }

  /** A supplied key overrides its default, a missing key keeps it. */
  lemma {:induction false} MergeGet(defaults: PhpArray, args: PhpArray, k: string)
    requires UniqueKeys(args)
    decreases args
    ensures Get(Merge(defaults, args), k) ==
      if HasKey(args, k) then Get(args, k) else Get(defaults, k)
  {
    if args != [] {
      var d := Set(defaults, args[0].0, args[0].1);
      assert Keys(args) == [args[0].0] + Keys(args[1..]);
      MergeGet(d, args[1..], k);
      SetGet(defaults, args[0].0, args[0].1, k);
      if k == args[0].0 {
        assert !HasKey(args[1..], k);
      }
    }
  }

  /** Merging keeps the keys of the defaults distinct. */
  lemma {:induction false} MergeUnique(defaults: PhpArray, args: PhpArray)
    requires UniqueKeys(defaults)
    ensures UniqueKeys(Merge(defaults, args))
    decreases args
  {
    if args != [] {
      SetUnique(defaults, args[0].0, args[0].1);
      MergeUnique(Set(defaults, args[0].0, args[0].1), args[1..]);
    }
  }

  /** Default keys keep their positions; new keys follow in the order supplied. */
  lemma {:induction false} MergeKeys(defaults: PhpArray, args: PhpArray)
    requires UniqueKeys(args)
    decreases args
    ensures Keys(Merge(defaults, args)) == Keys(defaults) + Fresh(Keys(args), Keys(defaults))
  {
    if args != [] {
      var k0 := args[0].0;
      var d := Set(defaults, k0, args[0].1);
      var rest := Keys(args[1..]);
      assert Keys(args) == [k0] + rest;
      assert k0 !in rest;
      MergeKeys(d, args[1..]);
      FreshStep(k0, rest, Keys(defaults), Keys(d));
    }
  }

  /** One step of `MergeKeys`: writing key `k` first, then the keys `rest`. */
  lemma {:induction false} FreshStep(k: string, rest: seq<string>, base: seq<string>, next: seq<string>)
    requires k !in rest
    requires next == if k in base then base else base + [k]
    ensures next + Fresh(rest, next) == base + Fresh([k] + rest, base)
  {
    var ks := [k] + rest;
    assert ks[0] == k && ks[1..] == rest;
    assert Fresh(ks, base) == (if k in base then [] else [k]) + Fresh(rest, base);
    if k !in base {
      FreshIgnores(rest, base, k);
      assert base + [k] + Fresh(rest, base) == base + ([k] + Fresh(rest, base));
    }
  }

  /** Adding a key that does not occur in `ks` to `seen` changes nothing. */
  lemma {:induction false} FreshIgnores(ks: seq<string>, seen: seq<string>, k: string)
    requires k !in ks
    ensures Fresh(ks, seen + [k]) == Fresh(ks, seen)
  {
    if ks != [] {
      FreshIgnores(ks[1..], seen, k);
    }
  }
}
