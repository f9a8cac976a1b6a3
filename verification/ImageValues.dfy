/** The values overlay of a deployment: dotted image keys become nested dictionaries. */
module ImageValues {
  import opened Prelude
  import Text

  /** A JSON dictionary of dictionaries and strings. */
  datatype Tree = Leaf(text: string) | Node(children: Children)
  type Children = map<string, Tree>

  type Path = seq<string>

  const FORGE: string := "_forge"

  // --- keys -----------------------------------------------------------------------------------

  function Split(key: string): (parts: Path)
    ensures |parts| > 0
  {
    Text.Split(key, '.')
  }

  predicate WellFormedPart(alnum: char -> bool, part: string) {
    part != "" && forall i :: 0 <= i < |part| ==> alnum(part[i]) || part[i] == '_' || part[i] == '-'
  }

  predicate WellFormed(alnum: char -> bool, parts: Path) {
    && |parts| > 0 && parts[0] != FORGE
    && forall i :: 0 <= i < |parts| ==> WellFormedPart(alnum, parts[i])
  }

  // --- dictionaries ---------------------------------------------------------------------------

  /** Walks down, creating dictionaries, and adds the last part if it is free. */
  function Insert(c: Children, path: Path, text: string): Option<Children>
    requires |path| > 0
    decreases |path|
  {
    if |path| == 1 then
      if path[0] in c then None else Some(c[path[0] := Leaf(text)])
    else
      var child := if path[0] in c then c[path[0]] else Node(map[]);
      if child.Leaf? then None
      else
        var inner := Insert(child.children, path[1..], text);
        if inner.None? then None else Some(c[path[0] := Node(inner.value)])
  }

  /** The string found by following a path of keys. */
  function At(c: Children, path: Path): Option<string>
    requires |path| > 0
    decreases |path|
  {
    if path[0] !in c then None
    else if |path| == 1 then (if c[path[0]].Leaf? then Some(c[path[0]].text) else None)
    else if c[path[0]].Leaf? then None
    else At(c[path[0]].children, path[1..])
  }

  /** No dictionary below the top one is empty. */
  ghost predicate Full(c: Children)
    decreases Node(c)
  {
    forall k :: k in c && c[k].Node? ==>
        c[k].children != map[] && (assert Node(c).children[k] < Node(c); Full(c[k].children))
  }

  /** One path is the other or a prefix of it. */
  predicate Clash(p: Path, q: Path) {
    p <= q || q <= p
  }

  /** A full dictionary holds a string under every dictionary. */
  lemma {:induction false} FullHasLeaf(c: Children) returns (q: Path)
    requires Full(c) && c != map[]
    ensures |q| > 0 && At(c, q).Some?
    decreases Node(c)
  {
    var k :| k in c;
    if c[k].Leaf? {
      q := [k];
    } else {
      var inner := FullHasLeaf(c[k].children);
      q := [k] + inner;
      assert q[1..] == inner;
    }
  }

  lemma ClashTail(p: Path, q: Path)
    requires |p| > 0 && |q| > 0 && p[0] == q[0]
    ensures Clash(p, q) <==> Clash(p[1..], q[1..])
  {
    assert p == [p[0]] + p[1..] && q == [q[0]] + q[1..];
  }

  /** What an insertion does to every path. */
  lemma {:induction false} InsertAt(c: Children, path: Path, text: string, q: Path)
    requires |path| > 0 && |q| > 0 && Insert(c, path, text).Some?
    ensures At(Insert(c, path, text).value, q) == if q == path then Some(text) else At(c, q)
    decreases |path|
  {
    if |path| > 1 {
      var child := if path[0] in c then c[path[0]] else Node(map[]);
      if q[0] == path[0] && |q| > 1 {
        InsertAt(child.children, path[1..], text, q[1..]);
        assert q == path <==> q[1..] == path[1..] by { assert q == [q[0]] + q[1..] && path == [path[0]] + path[1..]; }
      }
    }
  }

  lemma {:induction false} InsertFull(c: Children, path: Path, text: string)
    requires |path| > 0 && Full(c) && Insert(c, path, text).Some?
    ensures Full(Insert(c, path, text).value) && path[0] in Insert(c, path, text).value
    decreases |path|
  {
    if |path| > 1 {
      var child := if path[0] in c then c[path[0]] else Node(map[]);
      InsertFull(child.children, path[1..], text);
    }
  }

  /** An insertion succeeds exactly when no string sits on, above or below its path. */
  lemma {:induction false} InsertExactly(c: Children, path: Path, text: string)
    requires |path| > 0 && Full(c)
    ensures Insert(c, path, text).Some? <==> forall q :: |q| > 0 && At(c, q).Some? ==> !Clash(path, q)
    decreases |path|
  {
    if path[0] in c {
      var child := c[path[0]];
      if child.Leaf? {
        assert At(c, [path[0]]).Some? && [path[0]] <= path;
      } else if |path| == 1 {
        var inner := FullHasLeaf(child.children);
        var q := [path[0]] + inner;
        assert q[1..] == inner;
        assert At(c, q).Some? && path <= q;
      } else {
        InsertExactly(child.children, path[1..], text);
        forall q | |q| > 0
          ensures At(c, q).Some? && Clash(path, q) ==>
                    |q| > 1 && q[0] == path[0] && At(child.children, q[1..]).Some? && Clash(path[1..], q[1..])
        {
          if At(c, q).Some? && Clash(path, q) {
            ClashTail(path, q);
          }
        }
        forall q | |q| > 0 && At(child.children, q).Some? && Clash(path[1..], q)
          ensures At(c, [path[0]] + q).Some? && Clash(path, [path[0]] + q)
        {
          var up := [path[0]] + q;
          assert up[1..] == q;
          ClashTail(path, up);
        }
      }
    } else {
      if |path| > 1 {
        InsertExactly(map[], path[1..], text);
      }
      assert forall q :: |q| > 0 && Clash(path, q) ==> q[0] == path[0];
    }
  }

  /** Full dictionaries with the same strings are the same. */
  lemma {:induction false} SameLeaves(c: Children, d: Children)
    requires Full(c) && Full(d) && forall q :: |q| > 0 ==> At(c, q) == At(d, q)
    ensures c == d
    decreases Node(c)
  {
    SameKeys(c, d);
    SameKeys(d, c);
    forall k | k in c
      ensures c[k] == d[k]
    {
      if c[k].Leaf? || d[k].Leaf? {
        assert At(c, [k]) == At(d, [k]);
      } else {
        forall q | |q| > 0
          ensures At(c[k].children, q) == At(d[k].children, q)
        {
          assert ([k] + q)[1..] == q;
          assert At(c, [k] + q) == At(d, [k] + q);
        }
        SameLeaves(c[k].children, d[k].children);
      }
    }
  }

  lemma SameKeys(c: Children, d: Children)
    requires Full(c) && forall q :: |q| > 0 ==> At(c, q) == At(d, q)
    ensures c.Keys <= d.Keys
  {
    forall k | k in c
      ensures k in d
    {
      if c[k].Leaf? {
        assert At(d, [k]) == At(c, [k]);
      } else {
        var inner := FullHasLeaf(c[k].children);
        assert ([k] + inner)[1..] == inner;
        assert At(d, [k] + inner) == At(c, [k] + inner);
      }
    }
  }

  // --- the loop -------------------------------------------------------------------------------

  datatype Image = Image(key: string, text: string)

  /** The entries of a dictionary, in some order. */
  predicate DistinctKeys(images: seq<Image>) {
    forall i, j :: 0 <= i < j < |images| ==> images[i].key != images[j].key
  }

  function Built(alnum: char -> bool, images: seq<Image>): Option<Children> {
    if images == [] then Some(map[])
    else
      var last := images[|images| - 1];
      var before := Built(alnum, images[..|images| - 1]);
      if before.None? || !WellFormed(alnum, Split(last.key)) then None
      else Insert(before.value, Split(last.key), last.text)
  }

  /** Keys are well formed and none is a path prefix of another. */
  ghost predicate Acceptable(alnum: char -> bool, images: seq<Image>) {
    && (forall i :: 0 <= i < |images| ==> WellFormed(alnum, Split(images[i].key)))
    && (forall i, j :: 0 <= i < |images| && 0 <= j < |images| && i != j ==>
          !(Split(images[i].key) <= Split(images[j].key)))
  }

  /** The dictionary's strings are exactly the images, each at its own key. */
  ghost predicate Holds(c: Children, images: seq<Image>) {
    && (forall i :: 0 <= i < |images| ==> At(c, Split(images[i].key)) == Some(images[i].text))
    && (forall q :: |q| > 0 && At(c, q).Some? ==> exists i :: 0 <= i < |images| && Split(images[i].key) == q)
  }

  /** One image more: the dictionary afterwards, and the paths it was free of. */
  lemma InsertHolds(b: Children, images: seq<Image>)
    requires |images| > 0 && Full(b) && FORGE !in b && Holds(b, images[..|images| - 1])
    requires var last := images[|images| - 1];
             Split(last.key)[0] != FORGE && Insert(b, Split(last.key), last.text).Some?
    ensures var last := images[|images| - 1];
            var c := Insert(b, Split(last.key), last.text).value;
            Full(c) && FORGE !in c && Holds(c, images)
    ensures forall i :: 0 <= i < |images| - 1 ==> !Clash(Split(images[|images| - 1].key), Split(images[i].key))
  {
    hide Split, Clash, Full;
    var n := |images| - 1;
    var p, text := Split(images[n].key), images[n].text;
    var c := Insert(b, p, text).value;
    InsertFull(b, p, text);
    InsertExactly(b, p, text);
    InsertKeys(b, p, text);
    hide Insert;
    forall q: Path | |q| > 0
      ensures At(c, q) == if q == p then Some(text) else At(b, q)
    {
      InsertAt(b, p, text, q);
    }
    hide At;
    forall i | 0 <= i < n
      ensures !Clash(p, Split(images[i].key))
    {
      assert images[..n][i] == images[i];
      assert At(b, Split(images[..n][i].key)).Some?;
    }
    HoldsMore(b, c, images);
  }

  lemma {:induction false} BuiltSound(alnum: char -> bool, images: seq<Image>)
    ensures var c := Built(alnum, images);
            c.Some? ==> Full(c.value) && FORGE !in c.value && Holds(c.value, images) && Acceptable(alnum, images)
    decreases |images|
  {
    hide Split, Full, Insert, Holds, WellFormedPart;
    var c := Built(alnum, images);
    if images == [] {
      EmptyHolds();
    } else if c.Some? {
      var n := |images| - 1;
      BuiltSound(alnum, images[..n]);
      var b := Built(alnum, images[..n]).value;
      InsertHolds(b, images);
      assert forall i :: 0 <= i < n ==> images[..n][i] == images[i];
    }
  }

  lemma EmptyHolds()
    ensures Full(map[]) && Holds(map[], [])
  {
  }

  lemma InsertKeys(c: Children, path: Path, text: string)
    requires |path| > 0 && Insert(c, path, text).Some?
    ensures Insert(c, path, text).value.Keys == c.Keys + {path[0]}
  {
  }

  lemma HoldsMore(b: Children, c: Children, images: seq<Image>)
    requires |images| > 0 && Holds(b, images[..|images| - 1])
    requires var last := images[|images| - 1];
             forall q :: |q| > 0 ==> At(c, q) == if q == Split(last.key) then Some(last.text) else At(b, q)
    requires forall i :: 0 <= i < |images| - 1 ==> !Clash(Split(images[|images| - 1].key), Split(images[i].key))
    ensures Holds(c, images)
  {
    var n := |images| - 1;
    forall i | 0 <= i < n
      ensures At(c, Split(images[i].key)) == Some(images[i].text)
    {
      assert images[..n][i] == images[i];
    }
    forall q: Path | |q| > 0 && At(c, q).Some?
      ensures exists i :: 0 <= i < |images| && Split(images[i].key) == q
    {
      if q == Split(images[n].key) {
        assert Split(images[n].key) == q;
      } else {
        var i :| 0 <= i < n && Split(images[..n][i].key) == q;
        assert Split(images[i].key) == q;
      }
    }
  }

  lemma AcceptableFront(alnum: char -> bool, images: seq<Image>)
    requires |images| > 0 && Acceptable(alnum, images)
    ensures Acceptable(alnum, images[..|images| - 1])
  {
    hide Split, WellFormed;
    var front := images[..|images| - 1];
    forall i, j | 0 <= i < |front| && 0 <= j < |front| && i != j
      ensures !(Split(front[i].key) <= Split(front[j].key))
    {
      assert front[i] == images[i] && front[j] == images[j];
    }
  }

  /** The last image finds its path free. */
  lemma LastFits(alnum: char -> bool, images: seq<Image>, b: Children, q: Path)
    requires |images| > 0 && Acceptable(alnum, images) && Holds(b, images[..|images| - 1]) && |q| > 0 && At(b, q).Some?
    ensures !Clash(Split(images[|images| - 1].key), q)
  {
    hide Split, WellFormed, At;
    var n := |images| - 1;
    var i :| 0 <= i < n && Split(images[..n][i].key) == q;
    assert images[..n][i] == images[i];
  }

  lemma {:induction false} AcceptableBuilds(alnum: char -> bool, images: seq<Image>)
    requires Acceptable(alnum, images)
    ensures Built(alnum, images).Some?
    decreases |images|
  {
    hide Split, Full, Insert, WellFormedPart, At, Holds, Clash;
    if images != [] {
      var n := |images| - 1;
      assert WellFormed(alnum, Split(images[n].key));
      AcceptableFront(alnum, images);
      hide Acceptable;
      AcceptableBuilds(alnum, images[..n]);
      BuiltSound(alnum, images[..n]);
      var b, p := Built(alnum, images[..n]).value, Split(images[n].key);
      InsertExactly(b, p, images[n].text);
      forall q: Path | |q| > 0 && At(b, q).Some?
        ensures !Clash(p, q)
      {
        LastFits(alnum, images, b, q);
      }
    }
  }

  /** Accepted exactly when the keys are well formed and none is a path prefix of another. */
  lemma AcceptedExactly(alnum: char -> bool, images: seq<Image>)
    ensures Built(alnum, images).Some? <==> Acceptable(alnum, images)
  {
    BuiltSound(alnum, images);
    if Acceptable(alnum, images) {
      AcceptableBuilds(alnum, images);
    }
  }

  ghost predicate SameEntries(images: seq<Image>, others: seq<Image>) {
    forall image :: image in images <==> image in others
  }

  /** The order in which the dictionary is walked changes neither acceptance nor the result. */
  lemma OrderDoesNotMatter(alnum: char -> bool, images: seq<Image>, others: seq<Image>)
    requires DistinctKeys(images) && DistinctKeys(others) && SameEntries(images, others)
    ensures Built(alnum, images) == Built(alnum, others)
  {
    AcceptableEither(alnum, images, others);
    AcceptableEither(alnum, others, images);
    AcceptedExactly(alnum, images);
    AcceptedExactly(alnum, others);
    if Acceptable(alnum, images) {
      BuiltSound(alnum, images);
      BuiltSound(alnum, others);
      var c, d := Built(alnum, images).value, Built(alnum, others).value;
      forall q: Path | |q| > 0
        ensures At(c, q) == At(d, q)
      {
        SubLeaves(c, d, images, others, q);
        SubLeaves(d, c, others, images, q);
      }
      SameLeaves(c, d);
    }
  }

  lemma SubLeaves(c: Children, d: Children, images: seq<Image>, others: seq<Image>, q: Path)
    requires |q| > 0 && Holds(c, images) && Holds(d, others) && SameEntries(images, others)
    ensures At(c, q).Some? ==> At(c, q) == At(d, q)
  {
    if At(c, q).Some? {
      var i :| 0 <= i < |images| && Split(images[i].key) == q;
      assert images[i] in others;
      var j :| 0 <= j < |others| && others[j] == images[i];
      assert At(d, Split(others[j].key)) == Some(others[j].text);
    }
  }

  lemma AcceptableEither(alnum: char -> bool, images: seq<Image>, others: seq<Image>)
    requires DistinctKeys(images) && DistinctKeys(others) && SameEntries(images, others)
    ensures Acceptable(alnum, images) ==> Acceptable(alnum, others)
  {
    if !Acceptable(alnum, images) {
      return;
    }
    forall j | 0 <= j < |others|
      ensures WellFormed(alnum, Split(others[j].key))
    {
      assert others[j] in images;
    }
    forall i, j | 0 <= i < |others| && 0 <= j < |others| && i != j
      ensures !(Split(others[i].key) <= Split(others[j].key))
    {
      assert others[i] in images && others[j] in images;
      var k :| 0 <= k < |images| && images[k] == others[i];
      var l :| 0 <= l < |images| && images[l] == others[j];
      assert others[i].key != others[j].key by {
        if i < j { assert others[i].key != others[j].key; } else { assert others[j].key != others[i].key; }
      }
    }
  }

  /** An insertion outside `_forge` does not see it. */
  lemma InsertBeside(c: Children, forge: Tree, path: Path, text: string)
    requires |path| > 0 && path[0] != FORGE
    ensures Insert(c[FORGE := forge], path, text) ==
            (if Insert(c, path, text).Some? then Some(Insert(c, path, text).value[FORGE := forge]) else None)
  {
    var d := c[FORGE := forge];
    assert path[0] in d <==> path[0] in c;
    if Insert(c, path, text).Some? {
      assert Insert(d, path, text).Some?;
      assert Insert(d, path, text).value == Insert(c, path, text).value[FORGE := forge];
    }
  }

  /** The overlay: accepted exactly for acceptable keys; then every key leads to its own image and,
      besides `_forge`, nothing else is in it. */
  method Overlay(alnum: char -> bool, images: seq<Image>, forge: Tree) returns (r: Option<Children>)
    ensures r.Some? <==> Acceptable(alnum, images)
    ensures r.Some? ==> FORGE in r.value && r.value[FORGE] == forge && Holds(r.value - {FORGE}, images)
    ensures r == if Built(alnum, images).Some? then Some(Built(alnum, images).value[FORGE := forge]) else None
  {
    hide Split, Full, Insert, Holds, WellFormedPart, Acceptable;
    AcceptedExactly(alnum, images);
    var c: Children := map[FORGE := forge];
    for i := 0 to |images|
      invariant Built(alnum, images[..i]).Some? && c == Built(alnum, images[..i]).value[FORGE := forge]
    {
      assert images[..i + 1][..i] == images[..i];
      var path := Split(images[i].key);
      if !WellFormed(alnum, path) {
        Refused(alnum, images, i + 1);
        return None;
      }
      InsertBeside(Built(alnum, images[..i]).value, forge, path, images[i].text);
      var next := Insert(c, path, images[i].text);
      if next.None? {
        Refused(alnum, images, i + 1);
        return None;
      }
      c := next.value;
    }
    assert images[..|images|] == images;
    BuiltSound(alnum, images);
    assert c - {FORGE} == Built(alnum, images).value;
    return Some(c);
  }

  lemma {:induction false} Refused(alnum: char -> bool, images: seq<Image>, n: nat)
    requires n <= |images| && Built(alnum, images[..n]).None?
    ensures Built(alnum, images).None?
    decreases |images| - n
  {
    if n < |images| {
      assert images[..n + 1][..n] == images[..n];
      Refused(alnum, images, n + 1);
    } else {
      assert images[..n] == images;
    }
  }
}
