/** The backup inventory: what the writer prints, and what the verifier accepts. */
module BackupInventory {
  import opened Prelude
  import Text

  type Bytes = seq<nat>
  type Hash = Bytes -> string

  /** The dump and the data files below `git/` and `artifacts/`, by relative name. */
  datatype Backup = Backup(dump: Bytes, files: map<string, Bytes>)

  const DUMP: string := "postgres.dump"

  predicate DataName(name: string) {
    "git/" <= name || "artifacts/" <= name
  }

  ghost predicate Proper(b: Backup) {
    forall name :: name in b.files ==> DataName(name)
  }

  /** SHA-256 digests are 64 lower-case hexadecimal digits. */
  predicate IsDigest(s: string) {
    |s| == 64 && forall i :: 0 <= i < |s| ==> '0' <= s[i] <= '9' || 'a' <= s[i] <= 'f'
  }

  ghost predicate Hashes(hash: Hash) {
    forall bytes :: IsDigest(hash(bytes))
  }

  // --- lines ------------------------------------------------------------------------------------

  /** Where Python's `splitlines` breaks. */
  predicate Break(c: char) {
    var n := c as int;
    10 <= n <= 13 || 28 <= n <= 30 || n == 0x85 || n == 0x2028 || n == 0x2029
  }

  /** What Python's `strip` removes; every line break is such a space. */
  predicate Space(c: char) {
    var n := c as int;
    || 9 <= n <= 13 || 28 <= n <= 32 || n == 0x85 || n == 0xA0 || n == 0x1680 || 0x2000 <= n <= 0x200A
    || n == 0x2028 || n == 0x2029 || n == 0x202F || n == 0x205F || n == 0x3000
  }

  function Strip(s: string): string {
    Text.Trim(s, Space)
  }

  predicate NoBreak(s: string) {
    forall i :: 0 <= i < |s| ==> !Break(s[i])
  }

  /** The pieces between line breaks. */
  function Lines(text: string): (lines: seq<string>)
    ensures |lines| > 0 && forall i :: 0 <= i < |lines| ==> NoBreak(lines[i])
  {
    if text == "" then [""]
    else
      var rest := Lines(text[1..]);
      if Break(text[0]) then [""] + rest else [[text[0]] + rest[0]] + rest[1..]
  }

  /** The lines that are not blank. */
  function Filled(lines: seq<string>): seq<string> {
    if lines == [] then []
    else
      var front := Filled(lines[..|lines| - 1]);
      if Strip(lines[|lines| - 1]) == "" then front else front + [lines[|lines| - 1]]
  }

  function Printed(lines: seq<string>): string {
    if lines == [] then "" else lines[0] + "\n" + Printed(lines[1..])
  }

  lemma {:induction false} LinesOfLine(line: string, text: string)
    requires NoBreak(line)
    ensures Lines(line + "\n" + text) == [line] + Lines(text)
  {
    var all := line + "\n" + text;
    if line == "" {
      assert all[1..] == text;
    } else {
      assert all[0] == line[0] && all[1..] == line[1..] + "\n" + text;
      LinesOfLine(line[1..], text);
      assert ([line[1..]] + Lines(text))[1..] == Lines(text);
      assert line == [line[0]] + line[1..];
    }
  }

  lemma {:induction false} LinesOfPrinted(lines: seq<string>)
    requires forall i :: 0 <= i < |lines| ==> NoBreak(lines[i])
    ensures Lines(Printed(lines)) == lines + [""]
  {
    if lines != [] {
      LinesOfPrinted(lines[1..]);
      LinesOfLine(lines[0], Printed(lines[1..]));
      assert lines == [lines[0]] + lines[1..];
    }
  }

  lemma {:induction false} FilledAll(lines: seq<string>)
    requires forall i :: 0 <= i < |lines| ==> Strip(lines[i]) != ""
    ensures Filled(lines) == lines
  {
    if lines != [] {
      FilledAll(lines[..|lines| - 1]);
      assert lines == lines[..|lines| - 1] + [lines[|lines| - 1]];
    }
  }

  /** Printing lines and reading back the filled ones gives the lines, if each is one filled line. */
  lemma PrintedReadsBack(lines: seq<string>)
    requires forall i :: 0 <= i < |lines| ==> NoBreak(lines[i]) && Strip(lines[i]) != ""
    ensures Filled(Lines(Printed(lines))) == lines
  {
    LinesOfPrinted(lines);
    FilledAll(lines);
    assert (lines + [""])[..|lines|] == lines;
  }

  lemma {:induction false} FilledComesFrom(lines: seq<string>, line: string)
    requires line in Filled(lines)
    ensures line in lines && Strip(line) != ""
  {
    if lines != [] && line in Filled(lines[..|lines| - 1]) {
      FilledComesFrom(lines[..|lines| - 1], line);
    }
  }

  // --- the writer ---------------------------------------------------------------------------------

  datatype Inventory = Inventory(files: string, sums: string)

  function SumLine(digest: string, name: string): string {
    digest + "  " + name
  }

  function SumLines(hash: Hash, b: Backup, order: seq<string>): (lines: seq<string>)
    requires forall i :: 0 <= i < |order| ==> order[i] in b.files
    ensures |lines| == |order| + 1 && lines[0] == SumLine(hash(b.dump), DUMP)
    ensures forall i :: 0 <= i < |order| ==> lines[i + 1] == SumLine(hash(b.files[order[i]]), order[i])
  {
    var rest := seq(|order|, i requires 0 <= i < |order| => SumLine(hash(b.files[order[i]]), order[i]));
    [SumLine(hash(b.dump), DUMP)] + rest
  }

  predicate Enumerates(order: seq<string>, b: Backup) {
    && (forall i :: 0 <= i < |order| ==> order[i] in b.files)
    && (forall i, j :: 0 <= i < j < |order| ==> order[i] != order[j])
    && Covers(order, b)
  }

  predicate Covers(order: seq<string>, b: Backup) {
    forall name :: name in b.files ==> name in order
  }

  lemma Position(order: seq<string>, b: Backup, name: string) returns (i: nat)
    requires Covers(order, b) && name in b.files
    ensures i < |order| && order[i] == name
  {
    i :| 0 <= i < |order| && order[i] == name;
  }

  lemma {:induction false} PrintedSnoc(lines: seq<string>, line: string)
    ensures Printed(lines + [line]) == Printed(lines) + line + "\n"
  {
    if lines != [] {
      PrintedSnoc(lines[1..], line);
      assert (lines + [line])[1..] == lines[1..] + [line];
    }
  }

  lemma PrintedUpTo(lines: seq<string>, i: nat)
    requires i < |lines|
    ensures Printed(lines[..i + 1]) == Printed(lines[..i]) + lines[i] + "\n"
  {
    PrintedSnoc(lines[..i], lines[i]);
    assert lines[..i + 1] == lines[..i] + [lines[i]];
  }

  /** Prints every data file once, and the checksum of the dump and of every data file. */
  method WriteInventory(hash: Hash, b: Backup, order: seq<string>) returns (r: Inventory)
    requires Enumerates(order, b)
    ensures r == Written(hash, b, order)
  {
    hide Covers, Printed;
    ghost var all := SumLines(hash, b, order);
    var files, sums := "", hash(b.dump) + "  " + DUMP + "\n";
    PrintedUpTo(all, 0);
    assert Printed(all[..0]) == "" && Printed(order[..0]) == "" by { PrintedNothing(); }
    for i := 0 to |order|
      invariant files == Printed(order[..i]) && sums == Printed(all[..i + 1])
    {
      PrintedUpTo(order, i);
      PrintedUpTo(all, i + 1);
      files := files + order[i] + "\n";
      sums := sums + (hash(b.files[order[i]]) + "  " + order[i]) + "\n";
    }
    assert order[..|order|] == order && all[..|order| + 1] == all;
    return Inventory(files, sums);
  }

  lemma PrintedNothing()
    ensures Printed([]) == ""
  {
  }

  function Written(hash: Hash, b: Backup, order: seq<string>): Inventory
    requires forall i :: 0 <= i < |order| ==> order[i] in b.files
  {
    Inventory(Printed(order), Printed(SumLines(hash, b, order)))
  }

  // --- the verifier -------------------------------------------------------------------------------

  predicate HexAnyCase(c: char) {
    '0' <= c <= '9' || 'a' <= c <= 'f' || 'A' <= c <= 'F'
  }

  function LowerHex(c: char): char {
    if 'A' <= c <= 'F' then (c as int + 32) as char else c
  }

  function Lowered(s: string): string {
    if s == "" then "" else [LowerHex(s[0])] + Lowered(s[1..])
  }

  /** The first position of a double space. */
  function Gap(line: string): Option<nat> {
    if |line| < 2 then None
    else if line[..2] == "  " then Some(0)
    else var rest := Gap(line[1..]); if rest.None? then None else Some(rest.value + 1)
  }

  datatype Entry = Entry(digest: string, rel: string)

  function ParseChecksumLine(line: string): Option<Entry> {
    var gap := Gap(line);
    if gap.None? || gap.value != 64 || gap.value + 2 > |line| then None
    else if exists i :: 0 <= i < 64 && !HexAnyCase(line[i]) then None
    else Some(Entry(Lowered(line[..64]), Strip(line[66..])))
  }

  predicate Contains(s: string, part: string) {
    part <= s || (s != "" && Contains(s[1..], part))
  }

  predicate SafePath(rel: string) {
    rel != "" && rel[0] != '/' && '\\' !in rel && ':' !in rel && !("../" <= rel) && !Contains(rel, "/../")
  }

  function Entries(lines: seq<string>): Option<seq<Entry>> {
    if lines == [] then Some([])
    else
      var front, last := Entries(lines[..|lines| - 1]), ParseChecksumLine(lines[|lines| - 1]);
      if front.None? || last.None? then None else Some(front.value + [last.value])
  }

  function Rels(entries: seq<Entry>): set<string> {
    set i | 0 <= i < |entries| :: entries[i].rel
  }

  predicate DistinctRels(entries: seq<Entry>) {
    forall i, j :: 0 <= i < j < |entries| ==> entries[i].rel != entries[j].rel
  }

  function Listed(lines: seq<string>): set<string> {
    set i | 0 <= i < |lines| :: Strip(lines[i])
  }

  /** The regular file at a relative name, among the dump and the data files; an entry for any other
      file is refused when the names are compared. */
  function FileAt(b: Backup, rel: string): Option<Bytes> {
    if rel == DUMP then Some(b.dump) else if rel in b.files then Some(b.files[rel]) else None
  }

  predicate EntryHolds(hash: Hash, b: Backup, e: Entry) {
    SafePath(e.rel) && FileAt(b, e.rel).Some? && hash(FileAt(b, e.rel).value) == e.digest
  }

  /** What the file checks accept. */
  predicate Accepts(hash: Hash, b: Backup, inventory: Inventory) {
    var entries := Entries(Filled(Lines(inventory.sums)));
    && entries.Some? && entries.value != [] && DistinctRels(entries.value)
    && (forall i :: 0 <= i < |entries.value| ==> EntryHolds(hash, b, entries.value[i]))
    && Listed(Filled(Lines(inventory.files))) == b.files.Keys
    && Rels(entries.value) == {DUMP} + b.files.Keys
  }

  method ParseSums(lines: seq<string>) returns (entries: Option<seq<Entry>>)
    ensures entries == Entries(Filled(lines))
  {
    hide ParseChecksumLine, Strip;
    var parsed: seq<Entry> := [];
    for i := 0 to |lines|
      invariant Entries(Filled(lines[..i])) == Some(parsed)
    {
      assert lines[..i + 1][..i] == lines[..i];
      if Strip(lines[i]) != "" {
        var filled := Filled(lines[..i]);
        assert Filled(lines[..i + 1]) == filled + [lines[i]];
        assert (filled + [lines[i]])[..|filled|] == filled;
        var entry := ParseChecksumLine(lines[i]);
        if entry.None? {
          StaysInvalid(lines, i + 1);
          return None;
        }
        parsed := parsed + [entry.value];
      }
    }
    assert lines[..|lines|] == lines;
    return Some(parsed);
  }

  lemma {:induction false} StaysInvalid(lines: seq<string>, n: nat)
    requires n <= |lines| && Entries(Filled(lines[..n])).None?
    ensures Entries(Filled(lines)).None?
    decreases |lines| - n
  {
    if n < |lines| {
      assert lines[..n + 1][..n] == lines[..n];
      var filled := Filled(lines[..n]);
      assert (filled + [lines[n]])[..|filled|] == filled;
      StaysInvalid(lines, n + 1);
    } else {
      assert lines[..n] == lines;
    }
  }

  method VerifyFiles(hash: Hash, b: Backup, inventory: Inventory) returns (accepted: bool)
    ensures accepted <==> Accepts(hash, b, inventory)
  {
    hide Entries, Filled, Lines, EntryHolds, Strip;
    var entries := ParseSums(Lines(inventory.sums));
    if entries.None? || entries.value == [] {
      return false;
    }
    var es := entries.value;
    var seen: set<string> := {};
    for i := 0 to |es|
      invariant seen == Rels(es[..i]) && DistinctRels(es[..i])
    {
      if es[i].rel in seen {
        return false;
      }
      seen := seen + {es[i].rel};
    }
    assert es[..|es|] == es;
    for i := 0 to |es|
      invariant forall k :: 0 <= k < i ==> EntryHolds(hash, b, es[k])
    {
      if !EntryHolds(hash, b, es[i]) {
        return false;
      }
    }
    var listed: set<string> := {};
    var lines := Filled(Lines(inventory.files));
    for i := 0 to |lines|
      invariant listed == Listed(lines[..i])
    {
      listed := listed + {Strip(lines[i])};
    }
    assert lines[..|lines|] == lines;
    return listed == b.files.Keys && seen == {DUMP} + b.files.Keys;
  }

  // --- results --------------------------------------------------------------------------------------

  /** A name that survives being a line, being stripped and the path check. */
  predicate Clean(name: string) {
    NoBreak(name) && Strip(name) == name && SafePath(name)
  }

  ghost predicate AllClean(b: Backup) {
    forall name :: name in b.files ==> Clean(name)
  }

  lemma StripKeeps(s: string)
    ensures Strip(Strip(s)) == Strip(s) && (NoBreak(s) ==> NoBreak(Strip(s)))
  {
    var at := Text.TrimDropsOnlyEdges(s, Space);
    assert forall i :: 0 <= i < |Strip(s)| ==> Strip(s)[i] == s[at + i];
  }

  lemma StripFilled(s: string)
    requires s != "" && !Space(s[0])
    ensures Strip(s) != ""
  {
    var at := Text.TrimDropsOnlyEdges(s, Space);
  }

  lemma {:induction false} GapAfter(digest: string, rest: string)
    requires forall i :: 0 <= i < |digest| ==> digest[i] != ' '
    ensures Gap(digest + "  " + rest) == Some(|digest|)
  {
    var line := digest + "  " + rest;
    if digest == "" {
      assert line[..2] == "  ";
    } else {
      assert line[0] == digest[0] && line[1..] == digest[1..] + "  " + rest;
      assert line[..2][0] == digest[0];
      GapAfter(digest[1..], rest);
    }
  }

  lemma {:induction false} LoweredDigest(s: string)
    requires forall i :: 0 <= i < |s| ==> '0' <= s[i] <= '9' || 'a' <= s[i] <= 'f'
    ensures Lowered(s) == s
  {
    if s != "" {
      LoweredDigest(s[1..]);
      assert s == [s[0]] + s[1..];
    }
  }

  /** A checksum line parses to what was printed. */
  lemma SumLineParses(digest: string, name: string)
    requires IsDigest(digest) && Strip(name) == name
    ensures ParseChecksumLine(SumLine(digest, name)) == Some(Entry(digest, name))
  {
    var line := SumLine(digest, name);
    GapAfter(digest, name);
    assert line[..64] == digest && line[66..] == name;
    assert forall i :: 0 <= i < 64 ==> line[i] == digest[i];
    LoweredDigest(digest);
  }

  lemma SumLineIsLine(digest: string, name: string)
    requires IsDigest(digest) && NoBreak(name)
    ensures NoBreak(SumLine(digest, name)) && Strip(SumLine(digest, name)) != ""
  {
    var line := SumLine(digest, name);
    assert line[0] == digest[0];
    StripFilled(line);
    forall i | 0 <= i < |line|
      ensures !Break(line[i])
    {
      if i < 64 {
        assert line[i] == digest[i];
      } else if i >= 66 {
        assert line[i] == name[i - 66];
      }
    }
  }

  function EntriesOf(hash: Hash, b: Backup, order: seq<string>): (es: seq<Entry>)
    requires forall i :: 0 <= i < |order| ==> order[i] in b.files
    ensures |es| == |order| + 1 && es[0] == Entry(hash(b.dump), DUMP)
    ensures forall i :: 0 <= i < |order| ==> es[i + 1] == Entry(hash(b.files[order[i]]), order[i])
  {
    [Entry(hash(b.dump), DUMP)] + seq(|order|, i requires 0 <= i < |order| => Entry(hash(b.files[order[i]]), order[i]))
  }

  lemma {:induction false} EntriesParse(lines: seq<string>, es: seq<Entry>)
    requires |lines| == |es| && forall i :: 0 <= i < |es| ==> ParseChecksumLine(lines[i]) == Some(es[i])
    ensures Entries(lines) == Some(es)
  {
    hide ParseChecksumLine;
    if lines != [] {
      var n := |lines| - 1;
      EntriesParse(lines[..n], es[..n]);
      assert es == es[..n] + [es[n]];
    }
  }

  predicate Plain(c: char) {
    'a' <= c <= 'z' || c == '.'
  }

  lemma CleanDump()
    ensures Clean(DUMP)
  {
    assert forall i :: 0 <= i < |DUMP| ==> Plain(DUMP[i]);
    assert DUMP[0] != '.' && DUMP[|DUMP| - 1] != '.';
    PlainIsClean(DUMP);
  }

  lemma PlainIsClean(s: string)
    requires s != "" && (forall i :: 0 <= i < |s| ==> Plain(s[i])) && s[0] != '.' && s[|s| - 1] != '.'
    ensures Clean(s)
  {
    StripWhole(s);
    NoSlash(s);
  }

  lemma {:induction false} NoSlash(s: string)
    requires forall i :: 0 <= i < |s| ==> Plain(s[i])
    ensures !Contains(s, "/../")
  {
    assert !("/../" <= s) by { assert "/../"[0] == '/'; }
    if s != "" {
      NoSlash(s[1..]);
    }
  }

  lemma StripWhole(s: string)
    requires s != "" && !Space(s[0]) && !Space(s[|s| - 1])
    ensures Strip(s) == s
  {
  }

  /** The inventory of clean names reads back as its entries and its names. */
  lemma WrittenReadsBack(hash: Hash, b: Backup, order: seq<string>)
    requires Hashes(hash) && AllClean(b) && Enumerates(order, b)
    ensures var inventory := Written(hash, b, order);
            && Entries(Filled(Lines(inventory.sums))) == Some(EntriesOf(hash, b, order))
            && Filled(Lines(inventory.files)) == order && Listed(order) == b.files.Keys
  {
    hide Strip, NoBreak, SafePath, ParseChecksumLine, IsDigest, Filled, Lines, Printed, Entries, Covers;
    var lines, es := SumLines(hash, b, order), EntriesOf(hash, b, order);
    CleanDump();
    forall i | 0 <= i < |lines|
      ensures NoBreak(lines[i]) && Strip(lines[i]) != "" && ParseChecksumLine(lines[i]) == Some(es[i])
    {
      if i > 0 {
        assert Clean(order[i - 1]);
        assert lines[i] == SumLine(hash(b.files[order[i - 1]]), order[i - 1]);
      }
      SumLineParses(es[i].digest, es[i].rel);
      SumLineIsLine(es[i].digest, es[i].rel);
    }
    PrintedReadsBack(lines);
    EntriesParse(lines, es);
    forall i | 0 <= i < |order|
      ensures NoBreak(order[i]) && Strip(order[i]) == order[i] && Strip(order[i]) != ""
    {
      assert Clean(order[i]);
      assert order[i] != "" by { NotEmpty(order[i]); }
    }
    PrintedReadsBack(order);
    forall name | name in b.files
      ensures name in Listed(order)
    {
      var i := Position(order, b, name);
      assert Strip(order[i]) == name;
    }
  }

  lemma NotEmpty(s: string)
    requires SafePath(s)
    ensures s != ""
  {
  }

  lemma OwnEntryAt(hash: Hash, b: Backup, order: seq<string>, i: nat)
    requires Proper(b) && AllClean(b) && (forall k :: 0 <= k < |order| ==> order[k] in b.files) && i <= |order|
    ensures var e := EntriesOf(hash, b, order)[i];
            && e.rel == (if i == 0 then DUMP else order[i - 1]) && (i > 0 ==> e.rel != DUMP && e.rel in b.files)
            && EntryHolds(hash, b, e)
  {
    hide Strip, NoBreak, SafePath;
    CleanDump();
    DumpIsNoData();
    var es := EntriesOf(hash, b, order);
    if i > 0 {
      assert es[(i - 1) + 1] == Entry(hash(b.files[order[i - 1]]), order[i - 1]);
    }
  }

  lemma OwnEntriesHold(hash: Hash, b: Backup, order: seq<string>)
    requires Proper(b) && AllClean(b) && Enumerates(order, b)
    ensures var es := EntriesOf(hash, b, order);
            && DistinctRels(es) && Rels(es) == {DUMP} + b.files.Keys
            && forall i :: 0 <= i < |es| ==> EntryHolds(hash, b, es[i])
  {
    hide EntryHolds, Clean, Covers;
    var es := EntriesOf(hash, b, order);
    forall i | 0 <= i < |es|
      ensures es[i].rel == (if i == 0 then DUMP else order[i - 1])
      ensures (i > 0 ==> es[i].rel != DUMP && es[i].rel in b.files) && EntryHolds(hash, b, es[i])
    {
      OwnEntryAt(hash, b, order, i);
    }
    hide EntriesOf;
    forall name | name in b.files
      ensures name in Rels(es)
    {
      var i := Position(order, b, name);
      assert es[i + 1].rel == name;
    }
    assert es[0].rel == DUMP;
  }

  lemma DumpIsNoData()
    ensures !DataName(DUMP)
  {
    assert DUMP[0] == 'p' && "git/"[0] == 'g' && "artifacts/"[0] == 'a';
  }

  /** The same data files, and the dump and each file with an equal digest. */
  ghost predicate SameDigests(hash: Hash, b: Backup, later: Backup) {
    && later.files.Keys == b.files.Keys && hash(later.dump) == hash(b.dump)
    && forall name :: name in b.files ==> hash(later.files[name]) == hash(b.files[name])
  }

  /** Entries of one backup hold in another with the same names exactly when the digests are equal. */
  lemma EntriesCompare(hash: Hash, b: Backup, order: seq<string>, later: Backup)
    requires Proper(b) && AllClean(b) && Enumerates(order, b) && later.files.Keys == b.files.Keys
    ensures (forall i :: 0 <= i <= |order| ==> EntryHolds(hash, later, EntriesOf(hash, b, order)[i])) <==>
              SameDigests(hash, b, later)
  {
    hide SafePath, Clean, Covers;
    var es := EntriesOf(hash, b, order);
    forall i | 0 <= i <= |order|
      ensures EntryHolds(hash, later, es[i]) <==>
              if i == 0 then hash(later.dump) == hash(b.dump)
                else hash(later.files[order[i - 1]]) == hash(b.files[order[i - 1]])
    {
      OwnEntryAt(hash, b, order, i);
    }
    hide EntryHolds;
    if forall i :: 0 <= i <= |order| ==> EntryHolds(hash, later, es[i]) {
      assert EntryHolds(hash, later, es[0]);
      forall name | name in b.files
        ensures hash(later.files[name]) == hash(b.files[name])
      {
        var i := Position(order, b, name);
        assert EntryHolds(hash, later, es[i + 1]);
      }
    }
  }

  /** The inventory the writer printed for clean names is accepted for exactly the backups with the
      same names and digests: any file added or removed since is refused, and any change that the
      digest shows, to a file or to the dump. */
  lemma VerifiesExactly(hash: Hash, b: Backup, order: seq<string>, later: Backup)
    requires Hashes(hash) && Proper(b) && AllClean(b) && Enumerates(order, b)
    ensures Accepts(hash, later, Written(hash, b, order)) <==> SameDigests(hash, b, later)
  {
    hide EntryHolds, Clean, Covers, Filled, Lines, Printed, Entries, EntriesOf, DistinctRels, Rels, Listed;
    WrittenReadsBack(hash, b, order);
    OwnEntriesHold(hash, b, order);
    if later.files.Keys == b.files.Keys {
      EntriesCompare(hash, b, order, later);
    }
  }

  /** Some file has content `x` in one backup and `y` in the other. */
  predicate Changed(b: Backup, later: Backup, x: Bytes, y: Bytes) {
    exists name :: name in b.files && name in later.files && b.files[name] == x && later.files[name] == y
  }

  /** A changed backup that still passes exhibits a collision: two different contents with one digest. */
  lemma PassingChangeCollides(hash: Hash, b: Backup, order: seq<string>, later: Backup) returns (x: Bytes, y: Bytes)
    requires Hashes(hash) && Proper(b) && AllClean(b) && Enumerates(order, b)
    requires later != b && Accepts(hash, later, Written(hash, b, order))
    ensures x != y && hash(x) == hash(y)
    ensures (x, y) == (b.dump, later.dump) || Changed(b, later, x, y)
  {
    hide Accepts, Written, Clean;
    VerifiesExactly(hash, b, order, later);
    if later.dump != b.dump {
      return b.dump, later.dump;
    }
    assert later.files != b.files;
    var name :| name in b.files && later.files[name] != b.files[name];
    return b.files[name], later.files[name];
  }

  /** A backup passes with its own inventory exactly when all its data file names are clean. */
  lemma OwnInventoryPassesExactly(hash: Hash, b: Backup, order: seq<string>)
    requires Hashes(hash) && Proper(b) && Enumerates(order, b)
    ensures Accepts(hash, b, Written(hash, b, order)) <==> AllClean(b)
  {
    hide ParseChecksumLine, IsDigest, Printed, Strip, NoBreak, SafePath;
    var inventory := Written(hash, b, order);
    if AllClean(b) {
      hide Filled, Lines, Entries;
      WrittenReadsBack(hash, b, order);
      OwnEntriesHold(hash, b, order);
    } else if Accepts(hash, b, inventory) {
      hide Entries;
      forall name | name in b.files
        ensures Clean(name)
      {
        AcceptedIsClean(hash, b, inventory, name);
      }
    }
  }

  lemma AcceptedIsClean(hash: Hash, b: Backup, inventory: Inventory, name: string)
    requires Accepts(hash, b, inventory) && name in b.files
    ensures Clean(name)
  {
    hide ParseChecksumLine, Strip, NoBreak, SafePath, Entries, Lines, Filled;
    var lines := Filled(Lines(inventory.files));
    assert name in Listed(lines);
    var i :| 0 <= i < |lines| && Strip(lines[i]) == name;
    FilledComesFrom(Lines(inventory.files), lines[i]);
    StripKeeps(lines[i]);
    var es := Entries(Filled(Lines(inventory.sums))).value;
    assert name in Rels(es);
    var j :| 0 <= j < |es| && es[j].rel == name;
    assert EntryHolds(hash, b, es[j]);
  }
}
