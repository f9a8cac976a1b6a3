/** The nesting and Unicode check of a closed JSON document, done with a worklist. */
module Document {

  /** Text as code points: JSON escapes can spell lone surrogates, which are not characters. */
  type CodePoints = seq<nat>

  datatype Json = Object(members: seq<Member>) | Array(items: seq<Json>) | String(text: CodePoints) | Scalar
  datatype Member = Member(name: CodePoints, value: Json)

  const MAX_DEPTH: nat := 16

  predicate ScalarValues(text: CodePoints) {
    forall i :: 0 <= i < |text| ==> !(0xD800 <= text[i] <= 0xDFFF)
  }

  function Children(v: Json): (children: seq<Json>)
    ensures forall i :: 0 <= i < |children| ==> children[i] < v
  {
    match v
    case Object(members) => seq(|members|, i requires 0 <= i < |members| => members[i].value)
    case Array(items) => items
    case _ => []
  }

  /** The value reached by following child positions. */
  ghost function At(v: Json, path: seq<nat>): (r: (bool, Json))
    decreases |path|
  {
    if path == [] then (true, v)
    else if path[0] < |Children(v)| then At(Children(v)[path[0]], path[1..])
    else (false, v)
  }

  /** The promise: no value lies deeper than the bound and no string value holds a surrogate. */
  ghost predicate Closed(v: Json) {
    forall path :: At(v, path).0 ==> |path| <= MAX_DEPTH && (At(v, path).1.String? ==> ScalarValues(At(v, path).1.text))
  }

  // --- the recursive reading of the worklist ------------------------------------------------------

  predicate Sound(v: Json, depth: nat)
    decreases v
  {
    && depth <= MAX_DEPTH && (v.String? ==> ScalarValues(v.text))
    && forall i :: 0 <= i < |Children(v)| ==> Sound(Children(v)[i], depth + 1)
  }

  lemma {:induction false} SoundReaches(v: Json, depth: nat, path: seq<nat>)
    requires Sound(v, depth) && At(v, path).0
    ensures depth + |path| <= MAX_DEPTH && (At(v, path).1.String? ==> ScalarValues(At(v, path).1.text))
    decreases |path|
  {
    if path != [] {
      SoundReaches(Children(v)[path[0]], depth + 1, path[1..]);
    }
  }

  lemma {:induction false} UnsoundReaches(v: Json, depth: nat) returns (path: seq<nat>)
    requires !Sound(v, depth)
    ensures At(v, path).0
            && (depth + |path| > MAX_DEPTH || (At(v, path).1.String? && !ScalarValues(At(v, path).1.text)))
    decreases v
  {
    if depth > MAX_DEPTH || (v.String? && !ScalarValues(v.text)) {
      path := [];
    } else {
      var i :| 0 <= i < |Children(v)| && !Sound(Children(v)[i], depth + 1);
      var below := UnsoundReaches(Children(v)[i], depth + 1);
      path := [i] + below;
      assert path[1..] == below;
    }
  }

  lemma SoundExactly(v: Json)
    ensures Sound(v, 0) <==> Closed(v)
  {
    if Sound(v, 0) {
      forall path | At(v, path).0
        ensures |path| <= MAX_DEPTH && (At(v, path).1.String? ==> ScalarValues(At(v, path).1.text))
      {
        SoundReaches(v, 0, path);
      }
    } else {
      var path := UnsoundReaches(v, 0);
    }
  }

  // --- the worklist ---------------------------------------------------------------------------------

  datatype Item = Item(value: Json, depth: nat)

  function Size(v: Json): (n: nat)
    ensures n >= 1
    decreases v, 0
  {
    1 + Sizes(v, Children(v))
  }

  function Sizes(v: Json, children: seq<Json>): nat
    requires forall i :: 0 <= i < |children| ==> children[i] < v
    decreases v, 0, |children|
  {
    if children == [] then 0 else Size(children[0]) + Sizes(v, children[1..])
  }

  function Work(pending: seq<Item>): nat {
    if pending == [] then 0 else Work(pending[..|pending| - 1]) + Size(pending[|pending| - 1].value)
  }

  function Items(children: seq<Json>, depth: nat): seq<Item> {
    seq(|children|, i requires 0 <= i < |children| => Item(children[i], depth))
  }

  lemma {:induction false} WorkConcat(a: seq<Item>, b: seq<Item>)
    ensures Work(a + b) == Work(a) + Work(b)
    decreases |b|
  {
    if b == [] {
      assert a + b == a;
    } else {
      var front := b[..|b| - 1];
      assert (a + b)[..|a + b| - 1] == a + front && (a + b)[|a + b| - 1] == b[|b| - 1];
      WorkConcat(a, front);
    }
  }

  lemma {:induction false} WorkOfChildren(v: Json, children: seq<Json>, depth: nat)
    requires forall i :: 0 <= i < |children| ==> children[i] < v
    ensures Work(Items(children, depth)) == Sizes(v, children)
    decreases |children|
  {
    if children != [] {
      WorkOfChildren(v, children[1..], depth);
      var first := [Item(children[0], depth)];
      assert Items(children, depth) == first + Items(children[1..], depth);
      WorkConcat(first, Items(children[1..], depth));
      assert first[..0] == [];
    }
  }

  ghost predicate AllSound(pending: seq<Item>) {
    forall i :: 0 <= i < |pending| ==> Sound(pending[i].value, pending[i].depth)
  }

  predicate Good(item: Item) {
    item.depth <= MAX_DEPTH && (item.value.String? ==> ScalarValues(item.value.text))
  }

  /** The pending values after the last one is replaced by its children. */
  function Popped(pending: seq<Item>): seq<Item>
    requires |pending| > 0
  {
    var item := pending[|pending| - 1];
    pending[..|pending| - 1] + Items(Children(item.value), item.depth + 1)
  }

  lemma SizeIs(v: Json)
    ensures Size(v) == 1 + Sizes(v, Children(v))
  {
  }

  lemma WorkIs(pending: seq<Item>)
    requires |pending| > 0
    ensures Work(pending) == Work(pending[..|pending| - 1]) + Size(pending[|pending| - 1].value)
  {
  }

  lemma PopShrinks(pending: seq<Item>)
    requires |pending| > 0
    ensures Work(Popped(pending)) < Work(pending)
  {
    hide Work, Size, Sizes, Items, Children;
    var item, rest := pending[|pending| - 1], pending[..|pending| - 1];
    WorkConcat(rest, Items(Children(item.value), item.depth + 1));
    WorkOfChildren(item.value, Children(item.value), item.depth + 1);
    SizeIs(item.value);
    WorkIs(pending);
  }

  lemma ChildrenSound(item: Item)
    ensures Sound(item.value, item.depth) <==> Good(item) && AllSound(Items(Children(item.value), item.depth + 1))
  {
    var children := Children(item.value);
    var items := Items(children, item.depth + 1);
    assert forall i :: 0 <= i < |children| ==> items[i] == Item(children[i], item.depth + 1);
    hide Children;
  }

  lemma PopSound(pending: seq<Item>)
    requires |pending| > 0
    ensures AllSound(pending) <==> Good(pending[|pending| - 1]) && AllSound(Popped(pending))
  {
    hide Sound, Good, Items, Children;
    var item, rest := pending[|pending| - 1], pending[..|pending| - 1];
    assert pending == rest + [item];
    AllSoundConcat(rest, [item]);
    assert AllSound([item]) <==> Sound(item.value, item.depth) by {
      assert [item][0] == item;
    }
    ChildrenSound(item);
    AllSoundConcat(rest, Items(Children(item.value), item.depth + 1));
  }

  lemma AllSoundConcat(a: seq<Item>, b: seq<Item>)
    ensures AllSound(a + b) <==> AllSound(a) && AllSound(b)
  {
    hide Sound;
    assert forall i :: 0 <= i < |a| ==> (a + b)[i] == a[i];
    assert forall i :: 0 <= i < |b| ==> (a + b)[|a| + i] == b[i];
  }

  /** Accepts exactly the closed documents, always popping the last pending value. */
  method Check(value: Json) returns (accepted: bool)
    ensures accepted <==> Closed(value)
  {
    SoundExactly(value);
    hide Closed, Sound, Work, Children;
    var pending := [Item(value, 0)];
    assert pending[0] == Item(value, 0);
    while pending != []
      invariant AllSound(pending) <==> Closed(value)
      decreases Work(pending)
    {
      PopShrinks(pending);
      PopSound(pending);
      var item := pending[|pending| - 1];
      pending := pending[..|pending| - 1];
      if !Good(item) {
        return false;
      }
      pending := pending + Items(Children(item.value), item.depth + 1);
    }
    return true;
  }
}
