/**
 * The dynamic values the registry passes around: what `json.load`/`yaml.load` produce and what
 * `dict.get` returns. Python's `None` and JSON's `null` are the same value, `Null`. A dict is an
 * insertion-ordered sequence of members, as Python dicts are.
 */
module Json {

  import opened Wrappers

  datatype Value =
    | Dict(members: seq<Member>)
    | List(items: seq<Value>)
    | Str(s: string)
    | Int(i: int)
    | Bool(b: bool)
    | Null

  datatype Member = Member(key: string, val: Value)

  /** Anything that `flatten_dict` does not descend into. */
  predicate IsScalar(v: Value) {
    !v.Dict? && !v.List?
  }

  /** Python truthiness: empty containers, the empty string, 0, False and None are falsy. */
  predicate Truthy(v: Value) {
    match v
    case Dict(ms) => ms != []
    case List(xs) => xs != []
    case Str(s) => s != ""
    case Int(i) => i != 0
    case Bool(b) => b
    case Null => false
  }

  /** The keys of a dict, in insertion order. */
  function Keys(ms: seq<Member>): seq<string> {
    if ms == [] then [] else [ms[0].key] + Keys(ms[1..])
  }

  lemma {:induction false} KeyAt(ms: seq<Member>, i: nat)
    requires i < |ms|
    ensures ms[i].key in Keys(ms)
  {
    if i > 0 {
      KeyAt(ms[1..], i - 1);
    }
  }

  /** In a well-formed dict, the first key does not occur again. */
  lemma {:induction false} UniqueKeyNotLater(ms: seq<Member>)
    requires ms != [] && UniqueKeys(ms)
    ensures ms[0].key !in Keys(ms[1..])
  {
    KeysAbsent(ms[1..], ms[0].key);
  }

  lemma {:induction false} KeysAbsent(ms: seq<Member>, k: string)
    requires forall i :: 0 <= i < |ms| ==> ms[i].key != k
    ensures k !in Keys(ms)
  {
    if ms != [] {
      KeysAbsent(ms[1..], k);
    }
  }

  /** The position of a key that occurs in a dict. */
  lemma {:induction false} KeyIndex(ms: seq<Member>, k: string) returns (i: nat)
    requires k in Keys(ms)
    ensures i < |ms| && ms[i].key == k
  {
    if ms[0].key == k {
      i := 0;
    } else {
      var j := KeyIndex(ms[1..], k);
      i := j + 1;
    }
  }

  /** A well-formed dict: no key occurs twice. */
  predicate UniqueKeys(ms: seq<Member>) {
    forall i, j :: 0 <= i < j < |ms| ==> ms[i].key != ms[j].key
  }

  /** `d.get(k)`: the value stored under `k`, or None when `k` is absent. */
  function Get(ms: seq<Member>, k: string): (v: Value)
    ensures k !in Keys(ms) ==> v == Null
  {
    if ms == [] then Null
    else if ms[0].key == k then ms[0].val
    else Get(ms[1..], k)
  }

  lemma {:induction false} KeysAt(ms: seq<Member>)
    ensures |Keys(ms)| == |ms|
    ensures forall i :: 0 <= i < |ms| ==> Keys(ms)[i] == ms[i].key
  {
    if ms != [] {
      KeysAt(ms[1..]);
    }
  }

  /** In a well-formed dict, looking up a member's key gives that member's value. */
  lemma {:induction false} GetAt(ms: seq<Member>, i: nat)
    requires UniqueKeys(ms) && i < |ms|
    ensures Get(ms, ms[i].key) == ms[i].val
  {
    if i > 0 {
      assert ms[0].key != ms[i].key;
      GetAt(ms[1..], i - 1);
    }
  }

  /** `d.get(k, default)`. */
  function GetOr(ms: seq<Member>, k: string, default: Value): Value {
    if k in Keys(ms) then Get(ms, k) else default
  }

  /** `d[k] = v`: an existing key keeps its position and gets the new value; a new key goes last. */
  function Assign(ms: seq<Member>, k: string, v: Value): (r: seq<Member>)
    ensures Get(r, k) == v
    ensures forall k' :: k' != k ==> Get(r, k') == Get(ms, k')
    ensures Keys(r) == if k in Keys(ms) then Keys(ms) else Keys(ms) + [k]
    ensures |r| == if k in Keys(ms) then |ms| else |ms| + 1
  {
    if ms == [] then [Member(k, v)]
    else if ms[0].key == k then [Member(k, v)] + ms[1..]
    else [ms[0]] + Assign(ms[1..], k, v)
  }

  /** Assignment keeps a dict well formed. */
  lemma {:induction false} AssignUnique(ms: seq<Member>, k: string, v: Value)
    requires UniqueKeys(ms)
    ensures UniqueKeys(Assign(ms, k, v))
  {
    var r := Assign(ms, k, v);
    if ms != [] && ms[0].key == k {
      assert r == [Member(k, v)] + ms[1..];
      forall i, j | 0 <= i < j < |r| ensures r[i].key != r[j].key {
        assert r[i].key == ms[i].key && r[j].key == ms[j].key;
      }
    } else if ms != [] {
      var rest := Assign(ms[1..], k, v);
      assert r == [ms[0]] + rest;
      AssignUnique(ms[1..], k, v);
      UniqueKeyNotLater(ms);
      forall i, j | 0 <= i < j < |r| ensures r[i].key != r[j].key {
        if i == 0 {
          KeyAt(rest, j - 1);
          assert r[j].key in Keys(rest);
        } else {
          assert r[i] == rest[i - 1] && r[j] == rest[j - 1];
        }
      }
    }
  }

  /** Assignment introduces no member other than the assigned one. */
  lemma {:induction false} AssignMembers(ms: seq<Member>, k: string, v: Value)
    ensures forall m :: m in Assign(ms, k, v) ==> m in ms || m == Member(k, v)
  {
    if ms != [] && ms[0].key != k {
      AssignMembers(ms[1..], k, v);
      assert Assign(ms, k, v) == [ms[0]] + Assign(ms[1..], k, v);
      assert forall m :: m in ms[1..] ==> m in ms;
    }
  }

  /** What `for x in v` visits: list items, dict keys, or the characters of a string. */
  function Elements(v: Value): (r: Option<seq<Value>>)
    ensures r.Some? <==> v.List? || v.Dict? || v.Str?
    ensures r.Some? ==> |r.value| == match v
                                      case List(xs) => |xs|
                                      case Dict(ms) => |ms|
                                      case Str(s) => |s|
                                      case _ => 0
  {
    match v
    case List(xs) => Some(xs)
    case Dict(ms) => Some(seq(|ms|, i requires 0 <= i < |ms| => Str(ms[i].key)))
    case Str(s) => Some(seq(|s|, i requires 0 <= i < |s| => Str([s[i]])))
    case _ => None
  }

  function DigitChar(d: nat): char
    requires d < 10
  {
    "0123456789"[d]
  }

  /** `str(n)` for a natural number: its decimal digits, without leading zeros. */
  function NatToString(n: nat): (s: string)
    ensures |s| > 0
    ensures forall i :: 0 <= i < |s| ==> '0' <= s[i] <= '9'
  {
    if n < 10 then [DigitChar(n)] else NatToString(n / 10) + [DigitChar(n % 10)]
  }

  function IntToString(i: int): string {
    if i < 0 then "-" + NatToString(-i) else NatToString(i)
  }

  /** `str(v)`: strings as they are, everything else as Python prints it. */
  function PyStr(v: Value): string {
    match v
    case Str(s) => s
    case _ => Repr(v)
  }

  /** `repr(v)`: strings quoted, containers with their items' representations. */
  function Repr(v: Value): string
    decreases v, 0
  {
    match v
    case Str(s) => "'" + s + "'"
    case Int(i) => IntToString(i)
    case Bool(b) => if b then "True" else "False"
    case Null => "None"
    case List(xs) => "[" + ReprItems(xs, |xs|) + "]"
    case Dict(ms) => "{" + ReprMembers(ms, |ms|) + "}"
  }

  function ReprItems(xs: seq<Value>, n: nat): string
    requires n <= |xs|
    decreases xs, n
  {
    if n == 0 then ""
    else if n == 1 then Repr(xs[0])
    else ReprItems(xs, n - 1) + ", " + Repr(xs[n - 1])
  }

  function ReprMembers(ms: seq<Member>, n: nat): string
    requires n <= |ms|
    decreases ms, n
  {
    if n == 0 then ""
    else if n == 1 then "'" + ms[0].key + "': " + Repr(ms[0].val)
    else ReprMembers(ms, n - 1) + ", '" + ms[n - 1].key + "': " + Repr(ms[n - 1].val)
  }
}
