/**
 * `flatten_dict` of dataherb/utils/data.py: a nested dict/list value becomes a flat dict whose keys
 * are the dict keys and list positions on the way to each scalar, each followed by the separator,
 * with the last two characters cut off.
 */
module Data {

  import opened Wrappers
  import opened Json

  /** The separator used when none is given. */
  const DefaultSep: string := "__"

  /** `name[:-2]`: the name without its last two characters ("" when it is shorter). */
  function DropLast2(s: string): string {
    if |s| >= 2 then s[..|s| - 2] else ""
  }

  // ----- What the recursion does: the assignments `res[name[:-2]] = x`, in traversal order -----

  function Writes(x: Value, name: string, sep: string): seq<Member>
    decreases x, 0
  {
    match x
    case Dict(ms) => MemberWrites(ms, |ms|, name, sep)
    case List(xs) => ItemWrites(xs, |xs|, name, sep)
    case _ => [Member(DropLast2(name), x)]
  }

  /** The writes made for the first `n` members of a dict. */
  function MemberWrites(ms: seq<Member>, n: nat, name: string, sep: string): seq<Member>
    requires n <= |ms|
    decreases ms, n
  {
    if n == 0 then []
    else MemberWrites(ms, n - 1, name, sep) + Writes(ms[n - 1].val, name + ms[n - 1].key + sep, sep)
  }

  /** The writes made for the first `n` items of a list; item `i` adds the segment `str(i)`. */
  function ItemWrites(xs: seq<Value>, n: nat, name: string, sep: string): seq<Member>
    requires n <= |xs|
    decreases xs, n
  {
    if n == 0 then []
    else ItemWrites(xs, n - 1, name, sep) + Writes(xs[n - 1], name + NatToString(n - 1) + sep, sep)
  }

  /** A sequence of dict assignments performed in order. */
  function ApplyWrites(res: seq<Member>, ws: seq<Member>): seq<Member>
    decreases |ws|
  {
    if ws == [] then res else ApplyWrites(Assign(res, ws[0].key, ws[0].val), ws[1..])
  }

  /** The dict `flatten_dict(x, sep)` returns. */
  function Flattened(x: Value, sep: string): seq<Member> {
    ApplyWrites([], Writes(x, "", sep))
  }

  // ----- The imperative code -----

  /** `flatten_dict(nested_dict, sep=None)`. */
  method FlattenDict(nested: Value, sep: Option<string>) returns (res: seq<Member>)
    ensures res == Flattened(nested, if sep.Some? then sep.value else DefaultSep)
  {
    var s := if sep.None? then DefaultSep else sep.value;
    res := Flatten(nested, "", s, []);
  }

  /** The inner `flatten(x, name)`; the shared dict `res` is passed in and handed back. */
  method Flatten(x: Value, name: string, sep: string, res0: seq<Member>) returns (res: seq<Member>)
    ensures res == ApplyWrites(res0, Writes(x, name, sep))
    decreases x, 1
  {
    match x
    case Dict(ms) =>
      res := FlattenMembers(ms, name, sep, res0);
    case List(xs) =>
      res := FlattenItems(xs, name, sep, res0);
    case _ =>
      res := Assign(res0, DropLast2(name), x);
  }

  /** The `for a in x` loop of `flatten` over a dict: each value under `name + key + sep`. */
  method FlattenMembers(ms: seq<Member>, name: string, sep: string, res0: seq<Member>) returns (res: seq<Member>)
    ensures res == ApplyWrites(res0, MemberWrites(ms, |ms|, name, sep))
    decreases ms, 0
  {
    res := res0;
    var j := 0;
    while j < |ms|
      invariant 0 <= j <= |ms|
      invariant res == ApplyWrites(res0, MemberWrites(ms, j, name, sep))
    {
      var sub := name + ms[j].key + sep;
      MemberWritesStep(res0, ms, j, name, sep);
      res := Flatten(ms[j].val, sub, sep, res);
      j := j + 1;
    }
  }

  /** The `for a in x` loop of `flatten` over a list: item `i` under `name + str(i) + sep`. */
  method FlattenItems(xs: seq<Value>, name: string, sep: string, res0: seq<Member>) returns (res: seq<Member>)
    ensures res == ApplyWrites(res0, ItemWrites(xs, |xs|, name, sep))
    decreases xs, 0
  {
    res := res0;
    var i := 0;
    while i < |xs|
      invariant 0 <= i <= |xs|
      invariant res == ApplyWrites(res0, ItemWrites(xs, i, name, sep))
    {
      var sub := name + NatToString(i) + sep;
      ItemWritesStep(res0, xs, i, name, sep);
      res := Flatten(xs[i], sub, sep, res);
      i := i + 1;
    }
  }

  lemma {:induction false} MemberWritesStep(res0: seq<Member>, ms: seq<Member>, j: nat, name: string, sep: string)
    requires j < |ms|
    ensures ApplyWrites(res0, MemberWrites(ms, j + 1, name, sep)) ==
              ApplyWrites(ApplyWrites(res0, MemberWrites(ms, j, name, sep)), Writes(ms[j].val, name + ms[j].key + sep, sep))
  {
    ApplyWritesConcat(res0, MemberWrites(ms, j, name, sep), Writes(ms[j].val, name + ms[j].key + sep, sep));
  }

  lemma {:induction false} ItemWritesStep(res0: seq<Member>, xs: seq<Value>, i: nat, name: string, sep: string)
    requires i < |xs|
    ensures ApplyWrites(res0, ItemWrites(xs, i + 1, name, sep)) ==
              ApplyWrites(ApplyWrites(res0, ItemWrites(xs, i, name, sep)), Writes(xs[i], name + NatToString(i) + sep, sep))
  {
    ApplyWritesConcat(res0, ItemWrites(xs, i, name, sep), Writes(xs[i], name + NatToString(i) + sep, sep));
  }

  lemma {:induction false} ApplyWritesConcat(res: seq<Member>, a: seq<Member>, b: seq<Member>)
    ensures ApplyWrites(res, a + b) == ApplyWrites(ApplyWrites(res, a), b)
    decreases |a|
  {
    if a == [] {
      assert a + b == b;
    } else {
      assert (a + b)[1..] == a[1..] + b;
      ApplyWritesConcat(Assign(res, a[0].key, a[0].val), a[1..], b);
    }
  }

  // ----- Dict assignments: later writes win, nothing else changes -----

  /** A key that no write touches keeps its old value, and the keys are the old ones plus the written ones. */
  lemma {:induction false} ApplyWritesUntouched(res: seq<Member>, ws: seq<Member>, k: string)
    ensures k !in Keys(ws) ==> Get(ApplyWrites(res, ws), k) == Get(res, k)
    ensures k in Keys(ApplyWrites(res, ws)) <==> k in Keys(res) || k in Keys(ws)
    decreases |ws|
  {
    if ws != [] {
      ApplyWritesUntouched(Assign(res, ws[0].key, ws[0].val), ws[1..], k);
    }
  }

  /** When two writes use the same key, the dict ends up with the value of the later one. */
  lemma {:induction false} LastWriteWins(res: seq<Member>, ws: seq<Member>, i: nat)
    requires i < |ws|
    requires forall j :: i < j < |ws| ==> ws[j].key != ws[i].key
    ensures Get(ApplyWrites(res, ws), ws[i].key) == ws[i].val
    decreases |ws|
  {
    if i == 0 {
      KeysAbsent(ws[1..], ws[0].key);
      ApplyWritesUntouched(Assign(res, ws[0].key, ws[0].val), ws[1..], ws[0].key);
    } else {
      LastWriteWins(Assign(res, ws[0].key, ws[0].val), ws[1..], i - 1);
    }
  }

  /**
   * The result of a sequence of writes is a well-formed dict holding only old and written
   * values, with at most one new key per write.
   */
  lemma {:induction false} ApplyWritesShape(res: seq<Member>, ws: seq<Member>)
    requires UniqueKeys(res)
    ensures UniqueKeys(ApplyWrites(res, ws))
    ensures |ApplyWrites(res, ws)| <= |res| + |ws|
    ensures forall m :: m in ApplyWrites(res, ws) ==> m in res || m in ws
    decreases |ws|
  {
    if ws != [] {
      var r1 := Assign(res, ws[0].key, ws[0].val);
      AssignUnique(res, ws[0].key, ws[0].val);
      AssignMembers(res, ws[0].key, ws[0].val);
      ApplyWritesShape(r1, ws[1..]);
    }
  }

  // ----- An independent description: the paths to the scalars -----

  /** A scalar inside a nested value together with the dict keys and list positions leading to it. */
  datatype PathLeaf = PathLeaf(segments: seq<string>, val: Value)

  function LeafPaths(x: Value): seq<PathLeaf>
    decreases x, 0
  {
    match x
    case Dict(ms) => MemberPaths(ms, |ms|)
    case List(xs) => ItemPaths(xs, |xs|)
    case _ => [PathLeaf([], x)]
  }

  function MemberPaths(ms: seq<Member>, n: nat): seq<PathLeaf>
    requires n <= |ms|
    decreases ms, n
  {
    if n == 0 then [] else MemberPaths(ms, n - 1) + Under(ms[n - 1].key, LeafPaths(ms[n - 1].val))
  }

  function ItemPaths(xs: seq<Value>, n: nat): seq<PathLeaf>
    requires n <= |xs|
    decreases xs, n
  {
    if n == 0 then [] else ItemPaths(xs, n - 1) + Under(NatToString(n - 1), LeafPaths(xs[n - 1]))
  }

  /** The same leaves, one level deeper under the segment `seg`. */
  function Under(seg: string, ps: seq<PathLeaf>): seq<PathLeaf> {
    seq(|ps|, i requires 0 <= i < |ps| => PathLeaf([seg] + ps[i].segments, ps[i].val))
  }

  /** `s1 + sep + s2 + sep + ... + sn + sep`. */
  function Trail(segs: seq<string>, sep: string): string {
    if segs == [] then "" else segs[0] + sep + Trail(segs[1..], sep)
  }

  /** `sep.join(segs)`. */
  function Join(segs: seq<string>, sep: string): string {
    if segs == [] then ""
    else if |segs| == 1 then segs[0]
    else segs[0] + sep + Join(segs[1..], sep)
  }

  /** The key under which `flatten` stores a leaf reached from `name`. */
  function PathKey(name: string, segs: seq<string>, sep: string): string {
    DropLast2(name + Trail(segs, sep))
  }

  function Keyed(ps: seq<PathLeaf>, name: string, sep: string): seq<Member> {
    seq(|ps|, i requires 0 <= i < |ps| => Member(PathKey(name, ps[i].segments, sep), ps[i].val))
  }

  /** Every leaf is a scalar: empty dicts and lists contribute no leaf at all. */
  lemma {:induction false} LeafPathsAreScalars(x: Value)
    ensures forall p :: p in LeafPaths(x) ==> IsScalar(p.val)
    decreases x, 1
  {
    match x
    case Dict(ms) => MemberPathsAreScalars(ms, |ms|);
    case List(xs) => ItemPathsAreScalars(xs, |xs|);
    case _ =>
  }

  lemma {:induction false} MemberPathsAreScalars(ms: seq<Member>, n: nat)
    requires n <= |ms|
    ensures forall p :: p in MemberPaths(ms, n) ==> IsScalar(p.val)
    decreases ms, n
  {
    if n > 0 {
      MemberPathsAreScalars(ms, n - 1);
      LeafPathsAreScalars(ms[n - 1].val);
    }
  }

  lemma {:induction false} ItemPathsAreScalars(xs: seq<Value>, n: nat)
    requires n <= |xs|
    ensures forall p :: p in ItemPaths(xs, n) ==> IsScalar(p.val)
    decreases xs, n
  {
    if n > 0 {
      ItemPathsAreScalars(xs, n - 1);
      LeafPathsAreScalars(xs[n - 1]);
    }
  }

  lemma {:induction false} KeyedConcat(a: seq<PathLeaf>, b: seq<PathLeaf>, name: string, sep: string)
    ensures Keyed(a + b, name, sep) == Keyed(a, name, sep) + Keyed(b, name, sep)
  {
  }

  /** Descending into a segment extends the name by that segment and the separator. */
  lemma {:induction false} KeyedUnder(seg: string, ps: seq<PathLeaf>, name: string, sep: string)
    ensures Keyed(Under(seg, ps), name, sep) == Keyed(ps, name + seg + sep, sep)
  {
    forall i | 0 <= i < |ps|
      ensures Keyed(Under(seg, ps), name, sep)[i] == Keyed(ps, name + seg + sep, sep)[i]
    {
      TrailCons(name, seg, ps[i].segments, sep);
    }
  }

  lemma TrailCons(name: string, seg: string, segs: seq<string>, sep: string)
    ensures name + Trail([seg] + segs, sep) == (name + seg + sep) + Trail(segs, sep)
  {
    assert ([seg] + segs)[1..] == segs;
  }

  /** The writes are exactly the leaves in traversal order, each under its path key. */
  lemma {:induction false} WritesArePaths(x: Value, name: string, sep: string)
    ensures Writes(x, name, sep) == Keyed(LeafPaths(x), name, sep)
    decreases x, 1
  {
    match x
    case Dict(ms) => MemberWritesArePaths(ms, |ms|, name, sep);
    case List(xs) => ItemWritesArePaths(xs, |xs|, name, sep);
    case _ => assert name + Trail([], sep) == name;
  }

  lemma {:induction false} MemberWritesArePaths(ms: seq<Member>, n: nat, name: string, sep: string)
    requires n <= |ms|
    ensures MemberWrites(ms, n, name, sep) == Keyed(MemberPaths(ms, n), name, sep)
    decreases ms, n
  {
    if n > 0 {
      var m := ms[n - 1];
      var head, under := MemberPaths(ms, n - 1), Under(m.key, LeafPaths(m.val));
      MemberWritesArePaths(ms, n - 1, name, sep);
      WritesArePaths(m.val, name + m.key + sep, sep);
      KeyedUnder(m.key, LeafPaths(m.val), name, sep);
      KeyedConcat(head, under, name, sep);
      calc {
        MemberWrites(ms, n, name, sep);
        MemberWrites(ms, n - 1, name, sep) + Writes(m.val, name + m.key + sep, sep);
        Keyed(head, name, sep) + Keyed(under, name, sep);
        Keyed(head + under, name, sep);
      }
    }
  }

  lemma {:induction false} ItemWritesArePaths(xs: seq<Value>, n: nat, name: string, sep: string)
    requires n <= |xs|
    ensures ItemWrites(xs, n, name, sep) == Keyed(ItemPaths(xs, n), name, sep)
    decreases xs, n
  {
    if n > 0 {
      var seg := NatToString(n - 1);
      var head, under := ItemPaths(xs, n - 1), Under(seg, LeafPaths(xs[n - 1]));
      ItemWritesArePaths(xs, n - 1, name, sep);
      WritesArePaths(xs[n - 1], name + seg + sep, sep);
      KeyedUnder(seg, LeafPaths(xs[n - 1]), name, sep);
      KeyedConcat(head, under, name, sep);
      calc {
        ItemWrites(xs, n, name, sep);
        ItemWrites(xs, n - 1, name, sep) + Writes(xs[n - 1], name + seg + sep, sep);
        Keyed(head, name, sep) + Keyed(under, name, sep);
        Keyed(head + under, name, sep);
      }
    }
  }

  /** With a two-character separator, cutting two characters off the trail gives the joined path. */
  lemma {:induction false} TrailIsJoin(segs: seq<string>, sep: string)
    requires |sep| == 2 && segs != []
    ensures DropLast2(Trail(segs, sep)) == Join(segs, sep)
  {
    TrailIsJoinPlusSep(segs, sep);
  }

  lemma {:induction false} TrailIsJoinPlusSep(segs: seq<string>, sep: string)
    requires segs != []
    ensures Trail(segs, sep) == Join(segs, sep) + sep
  {
    if |segs| > 1 {
      TrailIsJoinPlusSep(segs[1..], sep);
    } else {
      assert segs[1..] == [];
    }
  }

  // ----- What the caller of flatten_dict gets -----

  /** The flattened dict is well formed, holds only scalars, and has at most one key per leaf. */
  lemma {:induction false} FlattenedShape(x: Value, sep: string)
    ensures UniqueKeys(Flattened(x, sep))
    ensures forall m :: m in Flattened(x, sep) ==> IsScalar(m.val)
    ensures |Flattened(x, sep)| <= |LeafPaths(x)|
  {
    var ps := LeafPaths(x);
    var ws := Writes(x, "", sep);
    WritesArePaths(x, "", sep);
    LeafPathsAreScalars(x);
    ApplyWritesShape([], ws);
    forall m | m in Flattened(x, sep) ensures IsScalar(m.val) {
      assert m in ws;
      var i := IndexOf(ws, m);
      assert ps[i] in ps;
    }
  }

  /** A leaf whose path key no later leaf shares is stored with its own value. */
  lemma {:induction false} FlattenedValue(x: Value, sep: string, i: nat)
    requires i < |LeafPaths(x)|
    requires forall j :: i < j < |LeafPaths(x)| ==>
               PathKey("", LeafPaths(x)[j].segments, sep) != PathKey("", LeafPaths(x)[i].segments, sep)
    ensures Get(Flattened(x, sep), PathKey("", LeafPaths(x)[i].segments, sep)) == LeafPaths(x)[i].val
  {
    var ps := LeafPaths(x);
    var ws := Writes(x, "", sep);
    WritesArePaths(x, "", sep);
    assert ws[i] == Member(PathKey("", ps[i].segments, sep), ps[i].val);
    forall j | i < j < |ws| ensures ws[j].key != ws[i].key {
      assert ws[j].key == PathKey("", ps[j].segments, sep);
    }
    LastWriteWins([], ws, i);
  }

  /** A key is in the flattened dict exactly when it is the path key of some leaf. */
  lemma {:induction false} FlattenedHasKey(x: Value, sep: string, k: string)
    ensures k in Keys(Flattened(x, sep)) <==> exists p :: p in LeafPaths(x) && PathKey("", p.segments, sep) == k
  {
    var ps := LeafPaths(x);
    var ws := Writes(x, "", sep);
    WritesArePaths(x, "", sep);
    ApplyWritesUntouched([], ws, k);
    if k in Keys(ws) {
      var i := KeyIndex(ws, k);
      assert ps[i] in ps && PathKey("", ps[i].segments, sep) == k;
    }
    if exists p :: p in ps && PathKey("", p.segments, sep) == k {
      var p :| p in ps && PathKey("", p.segments, sep) == k;
      var i := IndexOf(ps, p);
      KeyAt(ws, i);
    }
  }

  lemma {:induction false} IndexOf<T>(s: seq<T>, x: T) returns (i: nat)
    requires x in s
    ensures i < |s| && s[i] == x
  {
    i :| 0 <= i < |s| && s[i] == x;
  }

  /** A scalar at the top level is stored under the empty key. */
  lemma {:induction false} FlattenedScalar(x: Value, sep: string)
    requires IsScalar(x)
    ensures Flattened(x, sep) == [Member("", x)]
  {
    var ws := Writes(x, "", sep);
    assert ws == [Member("", x)];
    assert ApplyWrites([], ws) == ApplyWrites(Assign([], "", x), ws[1..]);
  }

  /** The key of a leaf below the top level is its path joined with the (two-character) separator. */
  lemma {:induction false} FlattenedKeyIsJoin(x: Value, sep: string, p: PathLeaf)
    requires |sep| == 2 && p in LeafPaths(x) && p.segments != []
    ensures PathKey("", p.segments, sep) == Join(p.segments, sep)
  {
    TrailIsJoin(p.segments, sep);
    assert "" + Trail(p.segments, sep) == Trail(p.segments, sep);
  }
}
