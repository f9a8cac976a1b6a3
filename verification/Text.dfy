/** Splitting text at a separator, as dotted keys and slash-separated paths are split. */
module Text {

  function Split(s: string, sep: char): (parts: seq<string>)
    ensures |parts| > 0
  {
    if s == "" then [""] else Onto(s[0], Split(s[1..], sep), sep)
  }

  /** Puts one character in front of parts: a separator starts a new part. */
  function Onto(c: char, parts: seq<string>, sep: char): (r: seq<string>)
    requires |parts| > 0
    ensures |r| > 0
  {
    if c == sep then [""] + parts else [[c] + parts[0]] + parts[1..]
  }

  function Join(parts: seq<string>, sep: char): string
    requires |parts| > 0
  {
    if |parts| == 1 then parts[0] else parts[0] + [sep] + Join(parts[1..], sep)
  }

  /** Splitting loses nothing, so different texts have different parts. */
  lemma {:induction false} SplitJoin(s: string, sep: char)
    ensures Join(Split(s, sep), sep) == s
  {
    if s != "" {
      SplitJoin(s[1..], sep);
      var rest := Split(s[1..], sep);
      if s[0] == sep {
        assert ([""] + rest)[1..] == rest;
        assert Join([""] + rest, sep) == "" + [sep] + Join(rest, sep);
      } else {
        var parts := [[s[0]] + rest[0]] + rest[1..];
        assert parts[1..] == rest[1..];
        if |rest| > 1 {
          assert Join(parts, sep) == [s[0]] + rest[0] + [sep] + Join(rest[1..], sep);
        }
      }
      assert s == [s[0]] + s[1..];
    }
  }

  lemma OntoConcat(c: char, front: seq<string>, back: seq<string>, sep: char)
    requires |front| > 0
    ensures Onto(c, front + back, sep) == Onto(c, front, sep) + back
  {
    assert (front + back)[1..] == front[1..] + back;
  }

  lemma {:induction false} SplitConcat(a: string, b: string, sep: char)
    ensures Split(a + [sep] + b, sep) == Split(a, sep) + Split(b, sep)
  {
    hide Onto;
    var s := a + [sep] + b;
    if a == "" {
      assert s[0] == sep && s[1..] == b;
      SplitEmpty(b, sep);
    } else {
      assert s[0] == a[0] && s[1..] == a[1..] + [sep] + b;
      SplitConcat(a[1..], b, sep);
      OntoConcat(a[0], Split(a[1..], sep), Split(b, sep), sep);
    }
  }

  lemma SplitEmpty(b: string, sep: char)
    ensures Onto(sep, Split(b, sep), sep) == Split("", sep) + Split(b, sep)
  {
  }

  lemma {:induction false} JoinConcat(p: seq<string>, q: seq<string>, sep: char)
    requires |p| > 0 && |q| > 0
    ensures Join(p + q, sep) == Join(p, sep) + [sep] + Join(q, sep)
  {
    assert (p + q)[1..] == p[1..] + q;
    if |p| > 1 {
      JoinConcat(p[1..], q, sep);
      assert Join(p + q, sep) == p[0] + [sep] + (Join(p[1..], sep) + [sep] + Join(q, sep));
    }
  }

  lemma PartsContinue(a: string, b: string, sep: char)
    requires b + [sep] <= a
    ensures Split(b, sep) < Split(a, sep)
  {
    var rest := a[|b| + 1..];
    assert a == b + [sep] + rest;
    SplitConcat(b, rest, sep);
  }

  lemma TextContinues(a: string, b: string, sep: char)
    requires Split(b, sep) < Split(a, sep)
    ensures b + [sep] <= a
  {
    SplitJoin(a, sep);
    SplitJoin(b, sep);
    var p, q := Split(b, sep), Split(a, sep);
    hide Split, Join;
    var rest := q[|p|..];
    assert q == p + rest;
    JoinConcat(p, rest, sep);
  }

  /** A text continues another past a separator exactly when its parts continue the other's. */
  lemma ContinuesExactly(a: string, b: string, sep: char)
    ensures b + [sep] <= a <==> Split(b, sep) < Split(a, sep)
  {
    hide Split;
    if b + [sep] <= a {
      PartsContinue(a, b, sep);
    } else if Split(b, sep) < Split(a, sep) {
      TextContinues(a, b, sep);
    }
  }

  /** The text between the first and the last character that is not a space. */
  function Trim(s: string, space: char -> bool): (r: string)
    ensures r != "" ==> !space(r[0]) && !space(r[|r| - 1])
    decreases |s|
  {
    if s == "" then ""
    else if space(s[0]) then Trim(s[1..], space)
    else if space(s[|s| - 1]) then Trim(s[..|s| - 1], space)
    else s
  }

  /** Trimming drops only spaces, and only from the two ends. */
  lemma {:induction false} TrimDropsOnlyEdges(s: string, space: char -> bool) returns (at: nat)
    ensures at + |Trim(s, space)| <= |s| && Trim(s, space) == s[at..at + |Trim(s, space)|]
    ensures forall k :: (0 <= k < at || at + |Trim(s, space)| <= k < |s|) ==> space(s[k])
    decreases |s|
  {
    at := 0;
    if s != "" && space(s[0]) {
      at := TrimDropsOnlyEdges(s[1..], space);
      at := at + 1;
      forall k | 0 <= k < at || at + |Trim(s, space)| <= k < |s| ensures space(s[k]) {
        if k > 0 {
          assert s[k] == s[1..][k - 1];
        }
      }
    } else if s != "" && space(s[|s| - 1]) {
      at := TrimDropsOnlyEdges(s[..|s| - 1], space);
      forall k | 0 <= k < at || at + |Trim(s, space)| <= k < |s| ensures space(s[k]) {
        if k < |s| - 1 {
          assert s[k] == s[..|s| - 1][k];
        }
      }
    }
  }
}
