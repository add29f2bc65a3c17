/** std::map with real keys, as a strictly ascending association list: the
    operations the light pass uses are operator[] assignment and iteration
    in key order (forwards or in reverse). */
module OrderedMap {
  import opened Wrappers

  predicate Ascending<V>(s: seq<(real, V)>)
  {
    forall i, j :: 0 <= i < j < |s| ==> s[i].0 < s[j].0
  }

  function Keys<V>(s: seq<(real, V)>): (ks: set<real>)
  {
    set i | 0 <= i < |s| :: s[i].0
  }

  /** map::find: the value stored under k, if any. */
  function Get<V>(s: seq<(real, V)>, k: real): (v: Option<V>)
  {
    if s == [] then None
    else if s[0].0 == k then Some(s[0].1)
    else Get(s[1..], k)
  }

  /** r is s after m[k] = v: ordered, k added to the keys, k now maps to v
      and every other key keeps its value. */
  ghost predicate Assigned<V>(s: seq<(real, V)>, k: real, v: V, r: seq<(real, V)>)
  {
    && Ascending(r)
    && Keys(r) == Keys(s) + {k}
    && |r| == (if k in Keys(s) then |s| else |s| + 1)
    && Get(r, k) == Some(v)
    && forall k' :: k' != k ==> Get(r, k') == Get(s, k')
  }

  /** m[k] = v: inserts k, or overwrites the value already stored under k,
      keeping the keys in ascending order. */
  function Assign<V>(s: seq<(real, V)>, k: real, v: V): (r: seq<(real, V)>)
    requires Ascending(s)
    ensures Ascending(r)
    ensures Keys(r) == Keys(s) + {k}
    ensures |r| == if k in Keys(s) then |s| else |s| + 1
    ensures Get(r, k) == Some(v)
    ensures forall k' :: k' != k ==> Get(r, k') == Get(s, k')
  {
    if s == [] || k < s[0].0 then
      AssignInFront(s, k, v);
      [(k, v)] + s
    else if k == s[0].0 then
      AssignOverFirst(s, k, v);
      [(k, v)] + s[1..]
    else
      var tail := Assign(s[1..], k, v);
      AssignAfterFirst(s, k, v, tail);
      [s[0]] + tail
  }

  lemma AssignInFront<V>(s: seq<(real, V)>, k: real, v: V)
    requires Ascending(s)
    requires s == [] || k < s[0].0
    ensures Assigned(s, k, v, [(k, v)] + s)
  {
    if s != [] {
      KeysAbove(s);
    }
    KeysCons((k, v), s);
    GetCons((k, v), s);
    AscendingCons((k, v), s);
  }

  lemma AssignOverFirst<V>(s: seq<(real, V)>, k: real, v: V)
    requires Ascending(s)
    requires s != [] && k == s[0].0
    ensures Assigned(s, k, v, [(k, v)] + s[1..])
  {
    KeysAbove(s);
    assert s == [s[0]] + s[1..];
    KeysCons(s[0], s[1..]);
    KeysCons((k, v), s[1..]);
    GetCons(s[0], s[1..]);
    GetCons((k, v), s[1..]);
    AscendingCons((k, v), s[1..]);
  }

  lemma AssignAfterFirst<V>(s: seq<(real, V)>, k: real, v: V, tail: seq<(real, V)>)
    requires Ascending(s)
    requires s != [] && s[0].0 < k
    requires Assigned(s[1..], k, v, tail)
    ensures Assigned(s, k, v, [s[0]] + tail)
  {
    KeysAbove(s);
    assert s == [s[0]] + s[1..];
    KeysCons(s[0], s[1..]);
    KeysCons(s[0], tail);
    GetCons(s[0], s[1..]);
    GetCons(s[0], tail);
    AscendingCons(s[0], tail);
  }

  lemma KeysCons<V>(e: (real, V), s: seq<(real, V)>)
    ensures Keys([e] + s) == {e.0} + Keys(s)
  {
    var t := [e] + s;
    forall x
      ensures x in Keys(t) <==> x in {e.0} + Keys(s)
    {
      if x in Keys(t) {
        var i :| 0 <= i < |t| && t[i].0 == x;
        if i > 0 {
          assert s[i - 1].0 == x;
        }
      }
      if x in Keys(s) {
        var i :| 0 <= i < |s| && s[i].0 == x;
        assert t[i + 1].0 == x;
      }
      if x == e.0 {
        assert t[0].0 == x;
      }
    }
  }

  /** The first entry of an ascending list holds its least key; the others
      are strictly greater. */
  lemma KeysAbove<V>(s: seq<(real, V)>)
    requires Ascending(s) && s != []
    ensures s[1..] == [] || Ascending(s[1..])
    ensures forall x :: x in Keys(s[1..]) ==> s[0].0 < x
    ensures forall x :: x in Keys(s) ==> s[0].0 <= x
  {
  }

  lemma GetCons<V>(e: (real, V), s: seq<(real, V)>)
    ensures forall k :: Get([e] + s, k) == if e.0 == k then Some(e.1) else Get(s, k)
  {
    assert ([e] + s)[1..] == s;
  }

  lemma AscendingCons<V>(e: (real, V), s: seq<(real, V)>)
    requires Ascending(s)
    requires forall x :: x in Keys(s) ==> e.0 < x
    ensures Ascending([e] + s)
  {
    var t := [e] + s;
    forall i, j | 0 <= i < j < |t|
      ensures t[i].0 < t[j].0
    {
      assert t[j] == s[j - 1];
      assert s[j - 1].0 in Keys(s);
      if i > 0 {
        assert t[i] == s[i - 1];
      }
    }
  }

  /** In an ascending list every entry is what find returns for its key. */
  lemma {:induction false} GetEntry<V>(s: seq<(real, V)>, i: nat)
    requires Ascending(s)
    requires i < |s|
    ensures Get(s, s[i].0) == Some(s[i].1)
  {
    if i > 0 {
      assert s[1..][i - 1] == s[i];
      GetEntry(s[1..], i - 1);
    }
  }
}
