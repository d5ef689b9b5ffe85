/**
 The letter on disk: the printer, the parser every reader uses, the stricter parser of the reply
 registry, and the one rewrite that stamps a thread.
 */
module LetterFormat {

  // ---- characters ----

  /** Where Python's splitlines breaks a line. */
  predicate LineEnd(c: char) {
    var n := c as int;
    0x0A <= n <= 0x0D || 0x1C <= n <= 0x1E || n == 0x85 || n == 0x2028 || n == 0x2029
  }

  /** What Python's strip removes. */
  predicate Space(c: char) {
    var n := c as int;
    LineEnd(c) || n == 0x09 || n == 0x1F || n == 0x20 || n == 0xA0 || n == 0x1680
    || 0x2000 <= n <= 0x200A || n == 0x202F || n == 0x205F || n == 0x3000
  }

  function StripLeft(s: string): (r: string)
    ensures |r| <= |s|
  {
    if s != "" && Space(s[0]) then StripLeft(s[1..]) else s
  }

  function StripRight(s: string): (r: string)
    ensures |r| <= |s|
  {
    if s != "" && Space(s[|s| - 1]) then StripRight(s[..|s| - 1]) else s
  }

  function Strip(s: string): (r: string)
    ensures |r| <= |s|
  {
    StripRight(StripLeft(s))
  }

  predicate Trimmed(s: string) {
    s == "" || (!Space(s[0]) && !Space(s[|s| - 1]))
  }

  lemma TrimmedIsFixed(s: string)
    requires Trimmed(s)
    ensures Strip(s) == s
  {
  }

  predicate SingleLine(s: string) {
    forall i :: 0 <= i < |s| ==> !LineEnd(s[i])
  }

  function StripNewlines(s: string): string {
    if s != "" && s[|s| - 1] == '\n' then StripNewlines(s[..|s| - 1]) else s
  }

  // ---- lines ----

  /** Python's "\n".join. */
  function JoinLines(lines: seq<string>): string
    requires lines != []
  {
    if |lines| == 1 then lines[0] else lines[0] + "\n" + JoinLines(lines[1..])
  }

  predicate Lacks(s: string, c: char) {
    forall k :: 0 <= k < |s| ==> s[k] != c
  }

  function FindChar(s: string, c: char): (i: int)
    ensures -1 <= i < |s|
    ensures i == -1 ==> Lacks(s, c)
    ensures i >= 0 ==> s[i] == c && forall k :: 0 <= k < i ==> s[k] != c
  {
    if s == "" then -1
    else if s[0] == c then 0
    else
      var j := FindChar(s[1..], c);
      assert forall k :: 0 < k < |s| ==> s[k] == s[1..][k - 1];
      if j == -1 then -1 else j + 1
  }

  /** Python's split("\n"). */
  function SplitLines(s: string): (lines: seq<string>)
    ensures lines != []
    decreases |s|
  {
    var i := FindChar(s, '\n');
    if i == -1 then [s] else [s[..i]] + SplitLines(s[i + 1..])
  }

  lemma SplitFirst(line: string, rest: string)
    requires Lacks(line, '\n')
    ensures SplitLines(line + "\n" + rest) == [line] + SplitLines(rest)
  {
    var s := line + "\n" + rest;
    assert forall k :: 0 <= k < |line| ==> s[k] == line[k];
    assert s[|line|] == '\n' && FindChar(s, '\n') == |line|;
    assert s[..|line|] == line && s[|line| + 1..] == rest;
  }

  lemma {:induction false} SplitOfJoin(lines: seq<string>, last: string)
    requires forall i :: 0 <= i < |lines| ==> Lacks(lines[i], '\n')
    ensures SplitLines(JoinLines(lines + [last])) == lines + SplitLines(last)
    decreases |lines|
  {
    hide SplitLines, Lacks;
    if lines == [] {
      assert lines + [last] == [last];
    } else {
      assert (lines + [last])[1..] == lines[1..] + [last];
      var rest := JoinLines(lines[1..] + [last]);
      assert JoinLines(lines + [last]) == lines[0] + "\n" + rest;
      SplitFirst(lines[0], rest);
      forall i | 0 <= i < |lines[1..]| ensures Lacks(lines[1..][i], '\n') { assert lines[1..][i] == lines[i + 1]; }
      SplitOfJoin(lines[1..], last);
      assert [lines[0]] + (lines[1..] + SplitLines(last)) == lines + SplitLines(last);
    }
  }

  lemma Rejoin(s: string, i: nat, c: char)
    requires i < |s| && s[i] == c
    ensures s == s[..i] + [c] + s[i + 1..]
  {
  }

  lemma {:induction false} JoinOfSplit(s: string)
    ensures JoinLines(SplitLines(s)) == s
    decreases |s|
  {
    hide FindChar, Lacks;
    var i := FindChar(s, '\n');
    if i == -1 {
      assert SplitLines(s) == [s];
    } else {
      var head, rest := s[..i], s[i + 1..];
      JoinOfSplit(rest);
      Rejoin(s, i, '\n');
      var tail := SplitLines(rest);
      assert SplitLines(s) == [head] + tail;
      hide SplitLines;
      assert ([head] + tail)[1..] == tail;
      assert JoinLines([head] + tail) == head + "\n" + JoinLines(tail);
    }
  }

  /** Python's splitlines. */
  function TextLines(s: string): seq<string>
    decreases |s|
  {
    if s == "" then []
    else
      var i := FindLineEnd(s);
      if i == -1 then [s]
      else if s[i] == '\r' && i + 1 < |s| && s[i + 1] == '\n' then [s[..i]] + TextLines(s[i + 2..])
      else [s[..i]] + TextLines(s[i + 1..])
  }

  function FindLineEnd(s: string): (i: int)
    ensures -1 <= i < |s|
    ensures i == -1 ==> SingleLine(s)
    ensures i >= 0 ==> LineEnd(s[i]) && forall k :: 0 <= k < i ==> !LineEnd(s[k])
  {
    if s == "" then -1
    else if LineEnd(s[0]) then 0
    else
      var j := FindLineEnd(s[1..]);
      assert forall k :: 0 < k < |s| ==> s[k] == s[1..][k - 1];
      if j == -1 then -1 else j + 1
  }

  // ---- the printer ----

  datatype Field = Field(key: string, value: string)

  type Meta = map<string, string>

  /** A dictionary in insertion order. */
  predicate Distinct(fields: seq<Field>) {
    forall i, j :: 0 <= i < j < |fields| ==> fields[i].key != fields[j].key
  }

  function ToMeta(fields: seq<Field>): Meta {
    if fields == [] then map[]
    else
      var last := fields[|fields| - 1];
      ToMeta(fields[..|fields| - 1])[last.key := last.value]
  }

  const ENVELOPE_ORDER: seq<string> :=
    ["id", "from", "to", "type", "re", "thread", "priority", "requires_ack", "deadline"]

  /** The envelope's keys first, in their order, then the rest as they came. */
  function Ordered(fields: seq<Field>): seq<Field> {
    Picked(fields, ENVELOPE_ORDER) + Others(fields, ENVELOPE_ORDER)
  }

  function Picked(fields: seq<Field>, keys: seq<string>): seq<Field> {
    if keys == [] then [] else
      var i := Find(fields, keys[0]);
      (if i == -1 then [] else [fields[i]]) + Picked(fields, keys[1..])
  }

  function Others(fields: seq<Field>, keys: seq<string>): seq<Field> {
    if fields == [] then []
    else (if fields[0].key in keys then [] else [fields[0]]) + Others(fields[1..], keys)
  }

  function Find(fields: seq<Field>, key: string): (i: int)
    ensures -1 <= i < |fields|
    ensures i >= 0 ==> fields[i].key == key
    ensures i == -1 ==> forall k :: 0 <= k < |fields| ==> fields[k].key != key
  {
    if fields == [] then -1
    else if fields[0].key == key then 0
    else
      var j := Find(fields[1..], key);
      if j == -1 then
        assert forall k :: 0 < k < |fields| ==> fields[k] == fields[1..][k - 1];
        -1
      else j + 1
  }

  function Line(f: Field): string {
    if f.value == "" then f.key + ":" else f.key + ": " + f.value
  }

  function Lines(fields: seq<Field>): seq<string> {
    seq(|fields|, i requires 0 <= i < |fields| => Line(fields[i]))
  }

  function Serialise(fields: seq<Field>, body: string): string {
    JoinLines(["---"] + Lines(Ordered(fields)) + ["---", body]) + "\n"
  }

  // ---- the parser ----

  const FENCE: string := "---\n"

  predicate FenceAt(s: string, j: nat) {
    j + 4 <= |s| && s[j..j + 4] == FENCE
  }

  lemma FenceInTail(s: string, j: nat)
    requires s != ""
    ensures FenceAt(s, j + 1) <==> FenceAt(s[1..], j)
  {
    if j + 5 <= |s| {
      assert s[1..][j..j + 4] == s[j + 1..j + 5];
    }
  }

  function FindFence(s: string): (i: int)
    ensures -1 <= i
  {
    if s == "" then -1
    else if FenceAt(s, 0) then 0
    else
      var k := FindFence(s[1..]);
      if k == -1 then -1 else k + 1
  }

  lemma {:induction false} FirstFence(s: string)
    ensures var i := FindFence(s);
            && (i >= 0 ==> FenceAt(s, i))
            && forall j: nat :: (i == -1 || j < i) ==> !FenceAt(s, j)
    decreases |s|
  {
    var i := FindFence(s);
    if s == "" {
      forall j: nat ensures !FenceAt(s, j) {}
    } else if FenceAt(s, 0) {
    } else {
      FirstFence(s[1..]);
      hide FenceAt;
      if i >= 0 { FenceInTail(s, i - 1); }
      forall j: nat | i == -1 || j < i ensures !FenceAt(s, j) {
        if j > 0 { FenceInTail(s, j - 1); }
      }
    }
  }

  /** Python's split("---\n") and "---\n".join. */
  function SplitFences(s: string): (parts: seq<string>)
    ensures parts != []
    decreases |s|
  {
    FirstFence(s);
    var i := FindFence(s);
    if i == -1 then [s] else [s[..i]] + SplitFences(s[i + 4..])
  }

  function JoinFences(parts: seq<string>): string {
    if parts == [] then "" else if |parts| == 1 then parts[0] else parts[0] + FENCE + JoinFences(parts[1..])
  }

  lemma {:induction false} FencesRoundTrip(s: string)
    ensures JoinFences(SplitFences(s)) == s
    decreases |s|
  {
    hide FindFence;
    var i := FindFence(s);
    FirstFence(s);
    if i != -1 {
      FencesRoundTrip(s[i + 4..]);
      assert SplitFences(s)[1..] == SplitFences(s[i + 4..]);
      assert s == s[..i] + FENCE + s[i + 4..];
    }
  }

  datatype Parsed = Malformed | Letter(meta: Meta, body: string)

  /** One line of the frontmatter: a later line with the same key wins. */
  function AddLine(meta: Meta, line: string): Meta {
    var i := FindChar(line, ':');
    if i == -1 then meta else meta[Strip(line[..i]) := Strip(line[i + 1..])]
  }

  function AddLines(meta: Meta, lines: seq<string>): Meta {
    if lines == [] then meta else AddLine(AddLines(meta, lines[..|lines| - 1]), lines[|lines| - 1])
  }

  /** Python's universal newlines on reading a text file. */
  function ReadText(s: string): string {
    if s == "" then ""
    else if s[0] == '\r' then "\n" + ReadText(if |s| > 1 && s[1] == '\n' then s[2..] else s[1..])
    else [s[0]] + ReadText(s[1..])
  }

  function Resolve(file: string): Parsed {
    var parts := SplitFences(ReadText(file));
    if |parts| < 3 || parts[0] != "" then Malformed
    else Letter(AddLines(map[], TextLines(parts[1])), StripNewlines(JoinFences(parts[2..])))
  }

  method ParseLetter(file: string) returns (r: Parsed)
    ensures r == Resolve(file)
  {
    hide ReadText, SplitFences, JoinFences, TextLines, StripNewlines, Strip, FindChar, Lacks;
    var parts := SplitFences(ReadText(file));
    if |parts| < 3 || parts[0] != "" { return Malformed; }
    var lines := TextLines(parts[1]);
    var meta: Meta := map[];
    for n := 0 to |lines|
      invariant meta == AddLines(map[], lines[..n])
    {
      assert lines[..n + 1][..n] == lines[..n];
      var i := FindChar(lines[n], ':');
      if i != -1 {
        meta := meta[Strip(lines[n][..i]) := Strip(lines[n][i + 1..])];
      }
    }
    assert lines[..|lines|] == lines;
    return Letter(meta, StripNewlines(JoinFences(parts[2..])));
  }

  // ---- print, then parse ----

  /**
   A field the letter format can carry: no colon or padding in the key, no line break, no padding
   around the value.
   */
  predicate Carried(f: Field) {
    Lacks(f.key, ':') && Trimmed(f.key) && SingleLine(f.key) && Trimmed(f.value) && SingleLine(f.value)
  }

  predicate EndsInDashes(s: string) {
    |s| >= 3 && s[|s| - 3..] == "---"
  }

  predicate AllCarried(fields: seq<Field>) {
    forall i :: 0 <= i < |fields| ==> Carried(fields[i])
  }

  predicate NoneEndsInDashes(fields: seq<Field>) {
    forall i :: 0 <= i < |fields| ==> !EndsInDashes(fields[i].value)
  }

  /** The frontmatter between the fences. */
  function Front(fields: seq<Field>): string {
    if fields == [] then "" else Line(fields[0]) + "\n" + Front(fields[1..])
  }

  /** Where a line splits and what stands on either side. */
  lemma LineParts(f: Field)
    requires Lacks(f.key, ':')
    ensures var line := Line(f);
            && FindChar(line, ':') == |f.key| && line[..|f.key|] == f.key
            && line[|f.key| + 1..] == (if f.value == "" then "" else " " + f.value)
  {
    var line := Line(f);
    assert forall k :: 0 <= k < |f.key| ==> line[k] == f.key[k];
    assert line[|f.key|] == ':';
    hide FindChar;
    assert FindChar(line, ':') == |f.key|;
  }

  lemma ValueStrips(value: string)
    requires Trimmed(value)
    ensures Strip(value) == value && Strip(" " + value) == value
  {
    TrimmedIsFixed(value);
    assert (" " + value)[1..] == value;
    assert StripLeft(" " + value) == StripLeft(value);
  }

  lemma LineIsSingle(f: Field)
    requires Carried(f)
    ensures SingleLine(Line(f)) && Lacks(Line(f), '\n') && Lacks(Line(f), '\r')
  {
    var line := Line(f);
    forall k | 0 <= k < |line| ensures !LineEnd(line[k]) {
      if k < |f.key| {
        assert line[k] == f.key[k];
      } else if k >= |f.key| + 2 {
        assert line[k] == f.value[k - |f.key| - 2];
      }
    }
  }

  lemma LineReads(f: Field, meta: Meta)
    requires Carried(f)
    ensures AddLine(meta, Line(f)) == meta[f.key := f.value]
    ensures SingleLine(Line(f)) && Lacks(Line(f), '\n') && Lacks(Line(f), '\r')
  {
    hide Line, FindChar, Strip, StripLeft, StripRight, SingleLine, Lacks, Trimmed, LineEnd, Space;
    LineIsSingle(f);
    LineParts(f);
    TrimmedIsFixed(f.key);
    ValueStrips(f.value);
    hide Carried;
    var line := Line(f);
    assert Strip(line[..|f.key|]) == f.key;
    assert Strip(line[|f.key| + 1..]) == f.value;
  }

  lemma FirstTextLine(line: string, rest: string)
    requires SingleLine(line)
    ensures TextLines(line + "\n" + rest) == [line] + TextLines(rest)
  {
    var s := line + "\n" + rest;
    assert forall k :: 0 <= k < |line| ==> s[k] == line[k];
    assert s[|line|] == '\n' && FindLineEnd(s) == |line|;
    assert s[..|line|] == line && s[|line| + 1..] == rest;
  }

  lemma {:induction false} FrontLines(fields: seq<Field>)
    requires AllCarried(fields)
    ensures TextLines(Front(fields)) == Lines(fields)
    decreases |fields|
  {
    hide Line, Carried, FindLineEnd, SingleLine, Lacks, AddLine;
    if fields != [] {
      LineReads(fields[0], map[]);
      FirstTextLine(Line(fields[0]), Front(fields[1..]));
      hide TextLines;
      FrontLines(fields[1..]);
      assert Lines(fields) == [Line(fields[0])] + Lines(fields[1..]);
    }
  }

  lemma {:induction false} LinesRead(fields: seq<Field>)
    requires AllCarried(fields)
    ensures AddLines(map[], Lines(fields)) == ToMeta(fields)
    decreases |fields|
  {
    if fields != [] {
      var n := |fields| - 1;
      LinesRead(fields[..n]);
      assert Lines(fields)[..n] == Lines(fields[..n]);
      LineReads(fields[n], AddLines(map[], Lines(fields)[..n]));
    }
  }

  lemma DashesOfLine(f: Field)
    ensures EndsInDashes(Line(f)) <==> EndsInDashes(f.value)
  {
    var line, v := Line(f), f.value;
    if v == "" {
      assert line[|line| - 1] == ':';
    } else {
      assert line == f.key + ": " + v && line[|f.key| + 1] == ' ';
      if |v| >= 3 {
        assert line[|line| - 3..] == v[|v| - 3..];
      } else if |line| >= 3 {
        assert line[|line| - |v| - 1] == ' ';
        assert line[|line| - 3..][2 - |v|] == ' ';
      }
    }
  }

  /** Inside one line and its line break there is a fence only where the line ends in dashes. */
  lemma FenceInLine(line: string, rest: string, j: nat)
    requires Lacks(line, '\n') && j <= |line|
    ensures FenceAt(line + "\n" + rest, j) <==> EndsInDashes(line) && j == |line| - 3
  {
    var s := line + "\n" + rest;
    assert s[|line|] == '\n';
    assert forall k :: 0 <= k < |line| ==> s[k] == line[k];
    if FenceAt(s, j) {
      assert s[j + 3] == s[j..j + 4][3] == '\n';
      assert s[j] == s[j..j + 4][0] == '-' && s[j + 1] == s[j..j + 4][1] == '-' && s[j + 2] == s[j..j + 4][2] == '-';
      assert line[|line| - 3..] == "---";
    }
    if EndsInDashes(line) && j == |line| - 3 {
      assert s[j..j + 4] == line[j..] + "\n";
    }
  }

  /** Without values that end in dashes, the first fence after the opening one closes the front. */
  lemma {:induction false} FrontHasNoFence(fields: seq<Field>, rest: string, j: nat)
    requires AllCarried(fields) && NoneEndsInDashes(fields)
    requires j < |Front(fields)|
    ensures !FenceAt(Front(fields) + rest, j)
    decreases |fields|
  {
    hide Line, Carried, EndsInDashes, FenceAt;
    var line, more := Line(fields[0]), Front(fields[1..]) + rest;
    LineReads(fields[0], map[]);
    DashesOfLine(fields[0]);
    assert Front(fields) + rest == line + "\n" + more;
    if j <= |line| {
      FenceInLine(line, more, j);
    } else {
      FrontHasNoFence(fields[1..], rest, j - |line| - 1);
      FenceShift(line + "\n", more, j - |line| - 1);
    }
  }

  lemma FenceShift(a: string, b: string, j: nat)
    ensures FenceAt(a + b, |a| + j) <==> FenceAt(b, j)
  {
    if |a| + j + 4 <= |a + b| {
      assert (a + b)[|a| + j..|a| + j + 4] == b[j..j + 4];
    }
  }

  /** Splitting at a first fence. */
  lemma SplitAtFence(a: string, b: string)
    requires forall j: nat :: j < |a| ==> !FenceAt(a + FENCE + b, j)
    ensures SplitFences(a + FENCE + b) == [a] + SplitFences(b)
  {
    var s := a + FENCE + b;
    assert s[|a|..|a| + 4] == FENCE;
    assert FenceAt(s, |a|);
    FirstFence(s);
    hide FindFence;
    assert FindFence(s) == |a|;
    assert s[..|a|] == a && s[|a| + 4..] == b;
  }

  lemma {:induction false} FrontOfLines(fields: seq<Field>, tail: seq<string>)
    requires tail != []
    ensures JoinLines(Lines(fields) + tail) == Front(fields) + JoinLines(tail)
    decreases |fields|
  {
    var all := Lines(fields) + tail;
    if fields == [] {
      assert all == tail;
    } else {
      assert all[1..] == Lines(fields[1..]) + tail;
      FrontOfLines(fields[1..], tail);
    }
  }

  /** The text of a letter whose fields already stand in their order. */
  function Sheet(fields: seq<Field>, rest: string): string {
    FENCE + (Front(fields) + FENCE + rest)
  }

  lemma Layout(fields: seq<Field>, body: string)
    ensures Serialise(fields, body) == Sheet(Ordered(fields), body + "\n")
  {
    hide Ordered, Front, Line;
    var tail := ["---", body];
    FrontOfLines(Ordered(fields), tail);
    assert tail[1..] == [body];
    assert JoinLines(tail) == "---" + "\n" + body;
    var all := ["---"] + Lines(Ordered(fields)) + tail;
    assert all[1..] == Lines(Ordered(fields)) + tail;
    assert JoinLines(all) == "---" + "\n" + JoinLines(all[1..]);
    assert "---" + "\n" == FENCE;
  }

  // ---- the order of the fields does not matter ----

  lemma {:induction false} MetaHolds(fields: seq<Field>)
    requires Distinct(fields)
    ensures forall f :: f in fields <==> f.key in ToMeta(fields) && ToMeta(fields)[f.key] == f.value
    decreases |fields|
  {
    if fields != [] {
      var n := |fields| - 1;
      MetaHolds(fields[..n]);
      assert fields == fields[..n] + [fields[n]];
      forall f ensures f in fields <==> f in fields[..n] || f == fields[n] {}
      forall f | f in fields[..n] ensures f.key != fields[n].key {
        var i :| 0 <= i < n && fields[i] == f;
      }
    }
  }

  lemma SameFieldsSameMeta(a: seq<Field>, b: seq<Field>)
    requires Distinct(a) && Distinct(b)
    requires forall f :: f in a <==> f in b
    ensures ToMeta(a) == ToMeta(b)
  {
    MetaHolds(a);
    MetaHolds(b);
    var m, n := ToMeta(a), ToMeta(b);
    forall k | k in m ensures k in n && n[k] == m[k] { assert Field(k, m[k]) in a; }
    forall k | k in n ensures k in m { assert Field(k, n[k]) in b; }
  }

  predicate DistinctKeys(keys: seq<string>) {
    forall i, j :: 0 <= i < j < |keys| ==> keys[i] != keys[j]
  }

  lemma {:induction false} OthersAre(fields: seq<Field>, keys: seq<string>)
    requires Distinct(fields)
    ensures forall f :: f in Others(fields, keys) <==> f in fields && f.key !in keys
    ensures Distinct(Others(fields, keys))
    decreases |fields|
  {
    if fields != [] {
      OthersAre(fields[1..], keys);
      assert fields == [fields[0]] + fields[1..];
      forall f | f in fields[1..] ensures f.key != fields[0].key {
        var i :| 0 <= i < |fields| - 1 && fields[1..][i] == f;
        assert fields[i + 1] == f;
      }
    }
  }

  lemma {:induction false} PickedAre(fields: seq<Field>, keys: seq<string>)
    requires Distinct(fields) && DistinctKeys(keys)
    ensures forall f :: f in Picked(fields, keys) <==> f in fields && f.key in keys
    ensures Distinct(Picked(fields, keys))
    decreases |keys|
  {
    if keys != [] {
      PickedAre(fields, keys[1..]);
      assert keys == [keys[0]] + keys[1..];
      assert keys[0] !in keys[1..];
      var i := Find(fields, keys[0]);
      if i >= 0 {
        forall f | f in fields && f.key == keys[0] ensures f == fields[i] {
          var j :| 0 <= j < |fields| && fields[j] == f;
        }
      }
    }
  }

  lemma OrderedIsSame(fields: seq<Field>)
    requires Distinct(fields)
    ensures Distinct(Ordered(fields)) && forall f :: f in Ordered(fields) <==> f in fields
    ensures ToMeta(Ordered(fields)) == ToMeta(fields)
  {
    assert DistinctKeys(ENVELOPE_ORDER);
    PickedAre(fields, ENVELOPE_ORDER);
    OthersAre(fields, ENVELOPE_ORDER);
    var a, b := Picked(fields, ENVELOPE_ORDER), Others(fields, ENVELOPE_ORDER);
    var all := a + b;
    forall i, j | 0 <= i < j < |all| ensures all[i].key != all[j].key {
      if i < |a| <= j {
        assert a[i] in a && b[j - |a|] in b;
      }
    }
    SameFieldsSameMeta(Ordered(fields), fields);
  }

  lemma {:induction false} ReadTextSplits(a: string, b: string)
    requires Lacks(a, '\r')
    ensures ReadText(a + b) == a + ReadText(b)
    decreases |a|
  {
    if a == "" {
      assert a + b == b;
    } else {
      assert (a + b)[1..] == a[1..] + b;
      assert (a + b)[0] == a[0];
      ReadTextSplits(a[1..], b);
    }
  }

  lemma {:induction false} ReadTextIsPlain(s: string)
    ensures Lacks(ReadText(s), '\r')
    ensures Lacks(s, '\r') ==> ReadText(s) == s
    decreases |s|
  {
    if s != "" {
      ReadTextIsPlain(s[1..]);
      if |s| > 1 {
        ReadTextIsPlain(s[2..]);
      }
    }
  }

  lemma StripOneNewline(s: string)
    ensures StripNewlines(s + "\n") == StripNewlines(s)
  {
    assert (s + "\n")[..|s|] == s;
  }

  /** The line break the printer adds is stripped again. */
  lemma {:induction false} LastNewline(body: string)
    ensures ReadText(body + "\n") == ReadText(body) || ReadText(body + "\n") == ReadText(body) + "\n"
    decreases |body|
  {
    var whole := body + "\n";
    if body != "" {
      assert whole[1..] == body[1..] + "\n";
      LastNewline(body[1..]);
      if |body| > 1 {
        assert whole[2..] == body[2..] + "\n";
        LastNewline(body[2..]);
      } else if body == "\r" {
        assert whole[2..] == "";
      }
    }
  }

  lemma {:induction false} FrontIsPlain(fields: seq<Field>)
    requires AllCarried(fields)
    ensures Lacks(Front(fields), '\r')
    decreases |fields|
  {
    hide Line, Carried;
    if fields != [] {
      FrontIsPlain(fields[1..]);
      LineReads(fields[0], map[]);
      hide AllCarried, AddLine;
    }
  }

  lemma LacksBoth(a: string, b: string, c: char)
    requires Lacks(a, c) && Lacks(b, c)
    ensures Lacks(a + b, c)
  {
  }

  lemma Regroup(a: string, b: string, c: string, d: string)
    ensures a + (b + c + d) == (a + b + c) + d
  {
  }

  lemma SheetIsRead(fields: seq<Field>, rest: string)
    requires AllCarried(fields)
    ensures ReadText(Sheet(fields, rest)) == Sheet(fields, ReadText(rest))
  {
    FrontIsPlain(fields);
    hide Front, ReadText, AllCarried;
    var front := Front(fields);
    assert Lacks(FENCE, '\r');
    hide Lacks;
    LacksBoth(FENCE, front, '\r');
    LacksBoth(FENCE + front, FENCE, '\r');
    Regroup(FENCE, front, FENCE, rest);
    Regroup(FENCE, front, FENCE, ReadText(rest));
    ReadTextSplits(FENCE + front + FENCE, rest);
  }

  lemma OpeningFence(rest: string)
    ensures SplitFences(FENCE + rest) == [""] + SplitFences(rest)
  {
    assert "" + FENCE + rest == FENCE + rest;
    SplitAtFence("", rest);
  }

  /** What a file resolves to, by its parts. */
  lemma ResolveParts(file: string, front: string, others: seq<string>)
    requires SplitFences(ReadText(file)) == [""] + ([front] + others) && others != []
    ensures Resolve(file) == Letter(AddLines(map[], TextLines(front)), StripNewlines(JoinFences(others)))
  {
    hide ReadText, SplitFences, AddLines, TextLines, StripNewlines, JoinFences;
    assert ([""] + ([front] + others))[2..] == others;
  }

  lemma ResolveSheet(fields: seq<Field>, rest: string)
    requires AllCarried(fields) && NoneEndsInDashes(fields)
    ensures Resolve(Sheet(fields, rest)) == Letter(ToMeta(fields), StripNewlines(ReadText(rest)))
  {
    hide SplitFences, JoinFences, Front, TextLines, AddLines, Lacks, ReadText, ToMeta, Resolve, StripNewlines;
    hide AllCarried, NoneEndsInDashes;
    var front, read := Front(fields), ReadText(rest);
    SheetIsRead(fields, rest);
    OpeningFence(front + FENCE + read);
    FirstFenceCloses(fields, read);
    FencesRoundTrip(read);
    FrontLines(fields);
    LinesRead(fields);
    ResolveParts(Sheet(fields, rest), front, SplitFences(read));
  }

  lemma FirstFenceCloses(fields: seq<Field>, rest: string)
    requires AllCarried(fields) && NoneEndsInDashes(fields)
    ensures SplitFences(Front(fields) + FENCE + rest) == [Front(fields)] + SplitFences(rest)
  {
    hide Front, FenceAt, Carried, EndsInDashes;
    var front := Front(fields);
    forall j: nat | j < |front| ensures !FenceAt(front + FENCE + rest, j) {
      assert front + FENCE + rest == front + (FENCE + rest);
      FrontHasNoFence(fields, FENCE + rest, j);
    }
    SplitAtFence(front, rest);
  }

  lemma CarriedInOrder(fields: seq<Field>)
    requires Distinct(fields) && AllCarried(fields)
    ensures AllCarried(Ordered(fields)) && (NoneEndsInDashes(fields) <==> NoneEndsInDashes(Ordered(fields)))
  {
    hide Carried, Ordered, EndsInDashes;
    OrderedIsSame(fields);
    var o := Ordered(fields);
    forall i | 0 <= i < |o| ensures Carried(o[i]) { assert o[i] in fields; }
    if NoneEndsInDashes(fields) {
      forall i | 0 <= i < |o| ensures !EndsInDashes(o[i].value) { assert o[i] in fields; }
    }
    if NoneEndsInDashes(o) {
      forall i | 0 <= i < |fields| ensures !EndsInDashes(fields[i].value) { assert fields[i] in o; }
    }
  }

  // ---- a value that ends in dashes breaks the letter ----

  lemma {:induction false} LinesThenOne(fields: seq<Field>, last: string)
    requires AllCarried(fields) && SingleLine(last) && last != ""
    ensures TextLines(Front(fields) + last) == Lines(fields) + [last]
    decreases |fields|
  {
    hide Line, Carried;
    if fields == [] {
      assert Front(fields) + last == last && Lines(fields) + [last] == [last];
      assert FindLineEnd(last) == -1;
    } else {
      LineReads(fields[0], map[]);
      assert Front(fields) + last == Line(fields[0]) + "\n" + (Front(fields[1..]) + last);
      FirstTextLine(Line(fields[0]), Front(fields[1..]) + last);
      hide TextLines;
      LinesThenOne(fields[1..], last);
      assert Lines(fields) + [last] == [Line(fields[0])] + (Lines(fields[1..]) + [last]);
    }
  }

  lemma {:induction false} FrontSplits(a: seq<Field>, b: seq<Field>)
    ensures Front(a + b) == Front(a) + Front(b)
    decreases |a|
  {
    if a == [] {
      assert a + b == b;
    } else {
      assert (a + b)[1..] == a[1..] + b;
      FrontSplits(a[1..], b);
    }
  }

  /** What is left of the first line that ends in dashes. */
  function CutLine(f: Field): string
    requires |f.value| >= 3
  {
    f.key + ": " + f.value[..|f.value| - 3]
  }

  lemma CutLineLooks(f: Field)
    requires Carried(f) && EndsInDashes(f.value)
    ensures CutLine(f) != "" && SingleLine(CutLine(f)) && Line(f) == CutLine(f) + "---"
  {
    var line, w := CutLine(f), f.value[..|f.value| - 3];
    assert f.value == w + "---";
    forall k | 0 <= k < |line| ensures !LineEnd(line[k]) {
      if k < |f.key| {
        assert line[k] == f.key[k];
      } else if k >= |f.key| + 2 {
        assert line[k] == f.value[k - |f.key| - 2];
      }
    }
  }

  lemma CutLineReads(f: Field, meta: Meta)
    requires Carried(f) && EndsInDashes(f.value)
    ensures var m := AddLine(meta, CutLine(f)); f.key in m && m[f.key] != f.value && m == meta[f.key := m[f.key]]
  {
    hide SingleLine;
    var line, w := CutLine(f), f.value[..|f.value| - 3];
    assert forall k :: 0 <= k < |f.key| ==> line[k] == f.key[k];
    assert line[|f.key|] == ':' && FindChar(line, ':') == |f.key|;
    assert line[..|f.key|] == f.key;
    TrimmedIsFixed(f.key);
    var v := line[|f.key| + 1..];
    assert v == " " + w && v[1..] == w;
    assert StripLeft(v) == StripLeft(w);
    assert |Strip(v)| <= |StripLeft(w)| <= |w|;
  }

  lemma NoEarlyFence(before: seq<Field>, f: Field, more: string, j: nat)
    requires AllCarried(before) && NoneEndsInDashes(before) && Carried(f) && EndsInDashes(f.value)
    requires |f.value| >= 3 && j < |Front(before) + CutLine(f)|
    ensures !FenceAt(Front(before) + (Line(f) + "\n" + more), j)
  {
    hide Front, Line, CutLine, Carried, EndsInDashes, FenceAt, AddLine;
    var head, tail := Front(before), Line(f) + "\n" + more;
    if j < |head| {
      FrontHasNoFence(before, tail, j);
    } else {
      LineReads(f, map[]);
      CutLineLooks(f);
      DashesOfLine(f);
      FenceShift(head, tail, j - |head|);
      FenceInLine(Line(f), more, j - |head|);
    }
  }

  /** The first fence after the opening one is the end of that line. */
  lemma SplitsEarly(before: seq<Field>, f: Field, more: string)
    requires AllCarried(before) && NoneEndsInDashes(before) && Carried(f) && EndsInDashes(f.value)
    ensures var a := Front(before) + CutLine(f);
            SplitFences(Front(before) + (Line(f) + "\n" + more)) == [a] + SplitFences(more)
  {
    assert |f.value| >= 3;
    hide Front, Line, CutLine, Carried, EndsInDashes, FenceAt, SplitFences;
    CutLineLooks(f);
    var head, cut := Front(before), CutLine(f);
    var whole := head + (Line(f) + "\n" + more);
    assert whole == (head + cut) + FENCE + more;
    forall j: nat | j < |head + cut| ensures !FenceAt(whole, j) {
      NoEarlyFence(before, f, more, j);
    }
    SplitAtFence(head + cut, more);
  }

  lemma SheetWithDashes(fields: seq<Field>, rest: string, n: nat)
    requires n < |fields| && EndsInDashes(fields[n].value)
    ensures Sheet(fields, rest) ==
              FENCE + (Front(fields[..n]) + (Line(fields[n]) + "\n" + (Front(fields[n + 1..]) + FENCE + rest)))
  {
    hide EndsInDashes, Line;
    var before, f, after := fields[..n], fields[n], fields[n + 1..];
    assert fields == before + ([f] + after);
    FrontSplits(before, [f] + after);
    assert ([f] + after)[1..] == after;
    assert Front([f] + after) == Line(f) + "\n" + Front(after);
    hide Front;
  }

  /** The fields read from a front that a value in dashes cut short. */
  lemma CutMeta(fields: seq<Field>, n: nat)
    requires AllCarried(fields) && Distinct(fields)
    requires n < |fields| && EndsInDashes(fields[n].value)
    ensures var m := AddLines(map[], TextLines(Front(fields[..n]) + CutLine(fields[n])));
            m != ToMeta(fields) && fields[n].key in m && m == ToMeta(fields[..n])[fields[n].key := m[fields[n].key]]
  {
    var before, f := fields[..n], fields[n];
    assert |f.value| >= 3;
    hide Carried, EndsInDashes, CutLine, TextLines, Front, AddLine, Line, ToMeta;
    CutLineLooks(f);
    CutLineReads(f, ToMeta(before));
    LinesThenOne(before, CutLine(f));
    LinesRead(before);
    var lines := Lines(before) + [CutLine(f)];
    assert lines[..n] == Lines(before);
    MetaHolds(fields);
    assert f in fields;
  }

  lemma DashesBreakSheet(fields: seq<Field>, rest: string, n: nat)
    requires AllCarried(fields) && Distinct(fields)
    requires n < |fields| && EndsInDashes(fields[n].value) && NoneEndsInDashes(fields[..n])
    ensures Resolve(Sheet(fields, rest)).Letter?
    ensures var m := Resolve(Sheet(fields, rest)).meta;
            m != ToMeta(fields) && fields[n].key in m && m == ToMeta(fields[..n])[fields[n].key := m[fields[n].key]]
  {
    var before, f, read := fields[..n], fields[n], ReadText(rest);
    var more := Front(fields[n + 1..]) + FENCE + read;
    assert |f.value| >= 3;
    SheetIsRead(fields, rest);
    SheetWithDashes(fields, read, n);
    hide EndsInDashes, Carried, SplitFences, JoinFences, Front, Line, CutLine, FenceAt, ReadText, TextLines, AddLines;
    hide ToMeta, Sheet, NoneEndsInDashes, Distinct, Resolve;
    OpeningFence(Front(before) + (Line(f) + "\n" + more));
    SplitsEarly(before, f, more);
    CutMeta(fields, n);
    ResolveParts(Sheet(fields, rest), Front(before) + CutLine(f), SplitFences(more));
  }

  /**
   Printing a letter and reading it back gives the same fields, and the body without trailing
   newlines, exactly when no value ends in three dashes. A value that does is not refused: the
   letter still reads, with other fields.
   */
  lemma PrintParse(fields: seq<Field>, body: string)
    requires Distinct(fields) && AllCarried(fields)
    ensures Resolve(Serialise(fields, body)).Letter?
    ensures Resolve(Serialise(fields, body)).meta == ToMeta(fields) <==> NoneEndsInDashes(fields)
    ensures NoneEndsInDashes(fields) ==> Resolve(Serialise(fields, body)).body == StripNewlines(ReadText(body))
    ensures Lacks(body, '\r') ==> ReadText(body) == body
  {
    hide Carried, EndsInDashes, Resolve, Ordered, ReadText;
    var o, rest := Ordered(fields), body + "\n";
    Layout(fields, body);
    OrderedIsSame(fields);
    CarriedInOrder(fields);
    ReadTextIsPlain(body);
    if NoneEndsInDashes(o) {
      ResolveSheet(o, rest);
      LastNewline(body);
      StripOneNewline(ReadText(body));
    } else {
      var n := FirstInDashes(o);
      DashesBreakSheet(o, rest, n);
    }
  }

  /**
   One field whose own value does not end in dashes: it reads back exactly when no field printed
   before it ends in dashes, and otherwise the letter has no such field.
   */
  lemma FieldReads(fields: seq<Field>, rest: string, i: nat)
    requires Distinct(fields) && AllCarried(fields) && i < |fields| && !EndsInDashes(fields[i].value)
    ensures Resolve(Sheet(fields, rest)).Letter?
    ensures var m := Resolve(Sheet(fields, rest)).meta;
            if NoneEndsInDashes(fields[..i]) then fields[i].key in m && m[fields[i].key] == fields[i].value
            else fields[i].key !in m
  {
    hide Carried, EndsInDashes, Resolve, Sheet, ToMeta;
    if NoneEndsInDashes(fields) {
      ResolveSheet(fields, rest);
      MetaHolds(fields);
      assert fields[i] in fields;
    } else {
      var n := FirstInDashes(fields);
      DashesBreakSheet(fields, rest, n);
      MetaHolds(fields[..n]);
      assert n != i && fields[n].key != fields[i].key;
      if i < n {
        assert fields[..n][i] == fields[i];
        assert fields[i] in fields[..n];
        assert NoneEndsInDashes(fields[..i]);
      } else {
        assert fields[..i][n] == fields[n];
        NotAmong(fields[..n], fields[i].key);
      }
    }
  }

  lemma {:induction false} NotAmong(fields: seq<Field>, key: string)
    requires forall j :: 0 <= j < |fields| ==> fields[j].key != key
    ensures key !in ToMeta(fields)
    decreases |fields|
  {
    if fields != [] {
      NotAmong(fields[..|fields| - 1], key);
    }
  }

  lemma FirstInDashes(fields: seq<Field>) returns (n: nat)
    requires !NoneEndsInDashes(fields)
    ensures n < |fields| && EndsInDashes(fields[n].value) && NoneEndsInDashes(fields[..n])
  {
    n := 0;
    while !EndsInDashes(fields[n].value)
      invariant n < |fields| && NoneEndsInDashes(fields[..n])
      decreases |fields| - n
    {
      n := n + 1;
    }
  }

  /** A text file as a writer with CRLF line ends leaves it. */
  function Crlf(s: string): string {
    if s == "" then "" else (if s[0] == '\n' then "\r\n" else [s[0]]) + Crlf(s[1..])
  }

  lemma {:induction false} ReadTextOfCrlf(s: string)
    requires Lacks(s, '\r')
    ensures ReadText(Crlf(s)) == s
    decreases |s|
  {
    if s != "" {
      ReadTextOfCrlf(s[1..]);
      var rest := Crlf(s[1..]);
      if s[0] == '\n' {
        assert Crlf(s) == "\r\n" + rest && Crlf(s)[2..] == rest;
      } else {
        assert Crlf(s) == [s[0]] + rest && Crlf(s)[1..] == rest;
      }
    }
  }

  /** A letter with CRLF line ends reads as the same letter. */
  lemma CrlfReadsTheSame(file: string)
    requires Lacks(file, '\r')
    ensures Resolve(Crlf(file)) == Resolve(file)
  {
    ReadTextOfCrlf(file);
    ReadTextIsPlain(file);
    hide Crlf, ReadText, SplitFences, TextLines, AddLines, JoinFences, StripNewlines;
  }
}
