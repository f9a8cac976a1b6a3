/** Audit-log search: user text becomes an ILIKE pattern whose metacharacters are escaped. */
module AuditSearch {
  import opened Prelude
  import Text

  // --- PostgreSQL LIKE with backslash as the escape character -------------------------------

  predicate Like(pattern: string, text: string)
    decreases |pattern| + |text|
  {
    if pattern == "" then text == ""
    else if pattern[0] == '%' then Like(pattern[1..], text) || (text != "" && Like(pattern, text[1..]))
    else if pattern[0] == '_' then text != "" && Like(pattern[1..], text[1..])
    else if pattern[0] == '\\' then |pattern| >= 2 && text != "" && text[0] == pattern[1]
      && Like(pattern[2..], text[1..])
    else text != "" && text[0] == pattern[0] && Like(pattern[1..], text[1..])
  }

  predicate Meta(c: char) {
    c == '%' || c == '_' || c == '\\'
  }

  /** A case folding maps characters one to one and neither makes nor unmakes a metacharacter. */
  ghost predicate Folding(fold: char -> char) {
    forall c :: if Meta(c) then fold(c) == c else !Meta(fold(c))
  }

  function Folded(fold: char -> char, s: string): string {
    seq(|s|, i requires 0 <= i < |s| => fold(s[i]))
  }

  /** ILIKE folds both sides and then matches. */
  predicate ILike(fold: char -> char, pattern: string, text: string) {
    Like(Folded(fold, pattern), Folded(fold, text))
  }

  ghost predicate Occurs(s: string, text: string) {
    exists i :: 0 <= i <= |text| - |s| && s <= text[i..]
  }

  // --- escaping ---------------------------------------------------------------------------

  function Escape(s: string): string {
    if s == "" then "" else (if Meta(s[0]) then ['\\', s[0]] else [s[0]]) + Escape(s[1..])
  }

  lemma {:induction false} EscapeSnoc(s: string, c: char)
    ensures Escape(s + [c]) == Escape(s) + (if Meta(c) then ['\\', c] else [c])
  {
    if s == "" {
      assert s + [c] == [c];
    } else {
      assert (s + [c])[1..] == s[1..] + [c];
      EscapeSnoc(s[1..], c);
    }
  }

  method EscapeAuditLike(value: string) returns (escaped: string)
    ensures escaped == Escape(value)
  {
    escaped := "";
    for i := 0 to |value|
      invariant escaped == Escape(value[..i])
    {
      assert value[..i + 1] == value[..i] + [value[i]];
      EscapeSnoc(value[..i], value[i]);
      if value[i] == '%' || value[i] == '_' || value[i] == '\\' {
        escaped := escaped + ['\\'];
      }
      escaped := escaped + [value[i]];
    }
    assert value[..|value|] == value;
  }

  lemma {:induction false} FoldedEscape(fold: char -> char, s: string)
    requires Folding(fold)
    ensures Folded(fold, Escape(s)) == Escape(Folded(fold, s))
  {
    if s != "" {
      FoldedEscape(fold, s[1..]);
      assert Folded(fold, s)[1..] == Folded(fold, s[1..]);
      var head := if Meta(s[0]) then ['\\', s[0]] else [s[0]];
      assert Folded(fold, head) == if Meta(s[0]) then ['\\', fold(s[0])] else [fold(s[0])];
      assert Folded(fold, head + Escape(s[1..])) == Folded(fold, head) + Folded(fold, Escape(s[1..]));
    }
  }

  // --- meaning ----------------------------------------------------------------------------

  lemma {:induction false} PercentMatchesAll(text: string)
    ensures Like("%", text)
  {
    if text != "" {
      PercentMatchesAll(text[1..]);
    }
  }

  /** An escaped text followed by `%` matches exactly what starts with the text itself. */
  lemma {:induction false} EscapedPrefix(s: string, text: string)
    ensures Like(Escape(s) + "%", text) <==> s <= text
  {
    if s == "" {
      assert Escape(s) + "%" == "%";
      PercentMatchesAll(text);
    } else {
      var pattern := Escape(s) + "%";
      var rest := Escape(s[1..]) + "%";
      if Meta(s[0]) {
        assert pattern[0] == '\\' && pattern[1] == s[0] && pattern[2..] == rest;
      } else {
        assert pattern[0] == s[0] && pattern[1..] == rest;
      }
      if text != "" {
        EscapedPrefix(s[1..], text[1..]);
        assert s <= text <==> s[0] == text[0] && s[1..] <= text[1..] by {
          if s[0] == text[0] && s[1..] <= text[1..] {
            assert s == [s[0]] + s[1..] && text == [text[0]] + text[1..];
          }
        }
      }
    }
  }

  /** A leading `%` looks for the rest of the pattern at every position. */
  lemma {:induction false} PercentSearches(pattern: string, text: string)
    ensures Like("%" + pattern, text) <==> exists i :: 0 <= i <= |text| && Like(pattern, text[i..])
    decreases |text|
  {
    assert ("%" + pattern)[1..] == pattern;
    assert text[0..] == text;
    if text != "" {
      PercentSearches(pattern, text[1..]);
      if i :| 0 <= i <= |text| && Like(pattern, text[i..]) {
        if i > 0 {
          assert text[1..][i - 1..] == text[i..];
        }
      }
      if j :| 0 <= j <= |text[1..]| && Like(pattern, text[1..][j..]) {
        assert text[1..][j..] == text[j + 1..];
      }
    }
  }

  lemma LiteralSearch(s: string, text: string)
    ensures Like("%" + Escape(s) + "%", text) <==> Occurs(s, text)
  {
    var pattern := Escape(s) + "%";
    assert "%" + Escape(s) + "%" == "%" + pattern;
    PercentSearches(pattern, text);
    if i :| 0 <= i <= |text| && Like(pattern, text[i..]) {
      EscapedPrefix(s, text[i..]);
    }
    if i :| 0 <= i <= |text| - |s| && s <= text[i..] {
      EscapedPrefix(s, text[i..]);
    }
  }

  /** For every search text, field and case folding, the pattern finds the text literally. */
  lemma FoldedLiteralSearch(fold: char -> char, s: string, text: string)
    requires Folding(fold)
    ensures ILike(fold, "%" + Escape(s) + "%", text) <==> Occurs(Folded(fold, s), Folded(fold, text))
  {
    FoldedEscape(fold, s);
    assert fold('%') == '%' by { assert Meta('%'); }
    assert Folded(fold, "%" + Escape(s) + "%") == "%" + Folded(fold, Escape(s)) + "%";
    LiteralSearch(Folded(fold, s), Folded(fold, text));
  }

  // --- request parameters -----------------------------------------------------------------

  predicate Whitespace(c: char) {
    var n := c as int;
    || 9 <= n <= 13 || n == 32 || n == 0x85 || n == 0xA0 || n == 0x1680 || 0x2000 <= n <= 0x200A
    || n == 0x2028 || n == 0x2029 || n == 0x202F || n == 0x205F || n == 0x3000
  }

  function Trim(s: string): string {
    Text.Trim(s, Whitespace)
  }

  function TrimOptional(value: Option<string>): Option<string> {
    if value.None? || Trim(value.value) == "" then None else Some(Trim(value.value))
  }

  datatype Params = Params(limit: Option<int>, offset: Option<int>, action: Option<string>, q: Option<string>)
  datatype Normalized = Normalized(limit: int, offset: int, action: Option<string>, pattern: Option<string>)

  predicate TooLong(value: Option<string>) {
    value.Some? && |value.value| > 128
  }

  method Normalize(params: Params) returns (r: Result<Normalized>)
    ensures r.Ok? <==>
              && (params.limit.Some? ==> 1 <= params.limit.value <= 200)
              && (params.offset.Some? ==> 0 <= params.offset.value <= 0x7FFF_FFFF)
              && !TooLong(TrimOptional(params.action)) && !TooLong(TrimOptional(params.q))
    ensures r.Ok? ==>
              && r.value.limit == (if params.limit.None? then 20 else params.limit.value)
              && r.value.offset == (if params.offset.None? then 0 else params.offset.value)
              && r.value.action == TrimOptional(params.action)
              && (r.value.pattern.Some? <==> TrimOptional(params.q).Some?)
              && (r.value.pattern.Some? ==>
                    r.value.pattern.value == "%" + Escape(TrimOptional(params.q).value) + "%")
  {
    var limit := if params.limit.None? then 20 else params.limit.value;
    if !(1 <= limit <= 200) {
      return Rejected("limit must be between 1 and 200");
    }
    var offset := if params.offset.None? then 0 else params.offset.value;
    if !(0 <= offset <= 0x7FFF_FFFF) {
      return Rejected("offset must be between 0 and 2147483647");
    }
    var action := TrimOptional(params.action);
    if action.Some? && |action.value| > 128 {
      return Rejected("action must not exceed 128 characters");
    }
    var query := TrimOptional(params.q);
    if query.Some? && |query.value| > 128 {
      return Rejected("q must not exceed 128 characters");
    }
    var pattern: Option<string> := None;
    if query.Some? {
      var escaped := EscapeAuditLike(query.value);
      pattern := Some("%" + escaped + "%");
    }
    return Ok(Normalized(limit, offset, action, pattern));
  }

  // --- the query --------------------------------------------------------------------------

  datatype AuditRow = AuditRow(action: string, resourceType: string, actor: Option<string>, resourceId: Option<string>)

  function Coalesced(value: Option<string>): string {
    if value.None? then "" else value.value
  }

  /** The WHERE clause of the audit query. */
  predicate Selected(fold: char -> char, row: AuditRow, action: Option<string>, pattern: Option<string>) {
    && (action.None? || row.action == action.value)
    && (pattern.None?
        || ILike(fold, pattern.value, row.action) || ILike(fold, pattern.value, row.resourceType)
        || ILike(fold, pattern.value, Coalesced(row.actor)) || ILike(fold, pattern.value, Coalesced(row.resourceId)))
  }

  /** A row is returned exactly when its action is the requested one and some searched field
      contains the trimmed text, letter case aside, whatever metacharacters the text holds. */
  lemma RowSelectedLiterally(fold: char -> char, row: AuditRow, action: Option<string>, query: Option<string>)
    requires Folding(fold)
    ensures var pattern := if query.None? then None else Some("%" + Escape(query.value) + "%");
            Selected(fold, row, action, pattern) <==>
              && (action.None? || row.action == action.value)
              && (query.None? || FoundIn(fold, query.value, Fields(row)))
  {
    if query.Some? {
      FoldedLiteralSearch(fold, query.value, row.action);
      FoldedLiteralSearch(fold, query.value, row.resourceType);
      FoldedLiteralSearch(fold, query.value, Coalesced(row.actor));
      FoldedLiteralSearch(fold, query.value, Coalesced(row.resourceId));
      assert row.action in Fields(row) && row.resourceType in Fields(row);
      assert Coalesced(row.actor) in Fields(row) && Coalesced(row.resourceId) in Fields(row);
    }
  }

  ghost predicate FoundIn(fold: char -> char, s: string, fields: set<string>) {
    exists field :: field in fields && Occurs(Folded(fold, s), Folded(fold, field))
  }

  function Fields(row: AuditRow): set<string> {
    {row.action, row.resourceType, Coalesced(row.actor), Coalesced(row.resourceId)}
  }
}
