/** The reply registry's own reader of a letter's envelope, stricter than the store's. */
module RegistryEnvelope {
  import opened LetterFormat
  import ThreadStamp

  datatype Envelope = NoEnvelope | NoClosingFence | MalformedLine | Repeated(key: string) | Fields(meta: Meta)

  function StripReturns(s: string): string {
    if s != "" && s[|s| - 1] == '\r' then StripReturns(s[..|s| - 1]) else s
  }

  predicate Letterlike(c: char) {
    'a' <= c <= 'z' || 'A' <= c <= 'Z'
  }

  predicate FieldName(s: string) {
    s != "" && Letterlike(s[0])
    && forall i :: 0 <= i < |s| ==> Letterlike(s[i]) || '0' <= s[i] <= '9' || s[i] == '_' || s[i] == '-'
  }

  function ReadFields(lines: seq<string>, fields: Meta): Envelope {
    if lines == [] then NoClosingFence
    else
      var line := StripReturns(lines[0]);
      if line == "---" then Fields(fields)
      else if Strip(line) == "" then ReadFields(lines[1..], fields)
      else
        var i := FindChar(line, ':');
        if i == -1 || !FieldName(line[..i]) then MalformedLine
        else if line[..i] in fields then Repeated(line[..i])
        else ReadFields(lines[1..], fields[line[..i] := Strip(line[i + 1..])])
  }

  function EnvelopeOf(file: string): Envelope {
    var lines := SplitLines(file);
    if StripReturns(lines[0]) != "---" then NoEnvelope else ReadFields(lines[1..], map[])
  }

  method ReadEnvelope(file: string) returns (r: Envelope)
    ensures r == EnvelopeOf(file)
  {
    var lines := SplitLines(file);
    if StripReturns(lines[0]) != "---" { return NoEnvelope; }
    var fields: Meta := map[];
    for n := 1 to |lines|
      invariant EnvelopeOf(file) == ReadFields(lines[n..], fields)
    {
      var line := StripReturns(lines[n]);
      assert lines[n..][1..] == lines[n + 1..];
      if line == "---" { return Fields(fields); }
      if Strip(line) == "" { continue; }
      var i := FindChar(line, ':');
      if i == -1 || !FieldName(line[..i]) { return MalformedLine; }
      if line[..i] in fields { return Repeated(line[..i]); }
      fields := fields[line[..i] := Strip(line[i + 1..])];
    }
    return NoClosingFence;
  }

  predicate AllNamed(fields: seq<Field>) {
    forall i :: 0 <= i < |fields| ==> FieldName(fields[i].key)
  }

  lemma PlainLine(s: string)
    requires Lacks(s, '\r')
    ensures StripReturns(s) == s
  {
  }

  /** The line of a field is not blank, not a fence, and holds the field. */
  lemma FieldLine(f: Field)
    requires Carried(f) && FieldName(f.key)
    ensures var line := Line(f); var i := FindChar(line, ':');
            && StripReturns(line) == line && line != "---" && Strip(line) != "" && Lacks(line, '\n')
            && i != -1 && line[..i] == f.key && Strip(line[i + 1..]) == f.value
  {
    var line := Line(f);
    LineReads(f, map[]);
    PlainLine(line);
    LineParts(f);
    ValueStrips(f.value);
    assert line[0] == f.key[0] && line[0] != '-' && !Space(line[0]);
    hide FindChar, Line, StripReturns, AddLine, Carried;
    StripFindsHead(line);
  }

  lemma {:induction false} StripFindsHead(s: string)
    requires s != "" && !Space(s[0])
    ensures StripRight(s) != "" && Strip(s) != ""
    decreases |s|
  {
    if Space(s[|s| - 1]) {
      StripFindsHead(s[..|s| - 1]);
    }
  }

  lemma {:induction false} ReadsFields(done: seq<Field>, fields: seq<Field>, rest: seq<string>)
    requires Distinct(done + fields) && AllCarried(fields) && AllNamed(fields)
    ensures ReadFields(Lines(fields) + ["---"] + rest, ToMeta(done)) == Fields(ToMeta(done + fields))
    decreases |fields|
  {
    hide Line, Carried, FieldName, Strip;
    var lines := Lines(fields) + ["---"] + rest;
    if fields == [] {
      assert done + fields == done && lines[0] == "---";
    } else {
      var f, more := fields[0], fields[1..];
      FieldLine(f);
      assert lines[0] == Line(f) && lines[1..] == Lines(more) + ["---"] + rest;
      assert (done + [f])[..|done|] == done && done + fields == (done + [f]) + more;
      NewKey(done, fields);
      ReadsFields(done + [f], more, rest);
    }
  }

  lemma KeyHasField(fields: seq<Field>, k: string)
    requires Distinct(fields)
    ensures k in ToMeta(fields) ==> Field(k, ToMeta(fields)[k]) in fields
  {
    MetaHolds(fields);
  }

  lemma NewKey(done: seq<Field>, fields: seq<Field>)
    requires fields != [] && Distinct(done + fields)
    ensures fields[0].key !in ToMeta(done)
  {
    var all := done + fields;
    assert Distinct(done) by {
      forall i, j | 0 <= i < j < |done| ensures done[i].key != done[j].key {
        assert all[i] == done[i] && all[j] == done[j];
      }
    }
    hide ToMeta;
    assert all[|done|] == fields[0];
    forall f | f in done ensures f.key != fields[0].key {
      var i :| 0 <= i < |done| && done[i] == f;
      assert all[i] == f;
    }
    KeyHasField(done, fields[0].key);
  }

  lemma Opened(file: string, lines: seq<string>)
    requires SplitLines(file) == ["---"] + lines
    ensures EnvelopeOf(file) == ReadFields(lines, map[])
  {
    hide SplitLines, ReadFields;
    assert (["---"] + lines)[1..] == lines;
    PlainLine("---");
  }

  /** Whatever the body and however the values end, the registry reads the printed fields. */
  lemma PrintedIsRead(fields: seq<Field>, body: string)
    requires Distinct(fields) && AllCarried(fields) && AllNamed(fields)
    ensures EnvelopeOf(Serialise(fields, body)) == Fields(ToMeta(fields))
  {
    hide Carried, FieldName, Line, Lacks, Ordered, Serialise, Sheet, EnvelopeOf, ReadFields, Lines;
    hide SplitLines, Distinct;
    var o, rest := Ordered(fields), SplitLines(body + "\n");
    Layout(fields, body);
    OrderedIsSame(fields);
    CarriedInOrder(fields);
    forall i | 0 <= i < |o| ensures FieldName(o[i].key) { assert o[i] in fields; }
    SheetSplits(o, body);
    assert ["---"] + Lines(o) + ["---"] + rest == ["---"] + (Lines(o) + ["---"] + rest);
    Opened(Sheet(o, body + "\n"), Lines(o) + ["---"] + rest);
    assert [] + o == o;
    ReadsFields([], o, rest);
  }

  lemma SheetSplits(fields: seq<Field>, body: string)
    requires AllCarried(fields)
    ensures SplitLines(Sheet(fields, body + "\n")) == ["---"] + Lines(fields) + ["---"] + SplitLines(body + "\n")
  {
    hide Carried, Line, SplitLines, AddLine;
    var head := ThreadStamp.Head(fields);
    ThreadStamp.SheetLines(fields, body + "\n");
    forall i | 0 <= i < |head| ensures Lacks(head[i], '\n') {
      if 1 <= i <= |fields| {
        LineReads(fields[i - 1], map[]);
      }
    }
    SplitOfJoin(head, body + "\n");
  }

  /** The store's parser and the registry's read the same fields exactly when no value ends in dashes. */
  lemma ParsersAgree(fields: seq<Field>, body: string)
    requires Distinct(fields) && AllCarried(fields) && AllNamed(fields)
    ensures var file := Serialise(fields, body);
            Resolve(file).Letter? && EnvelopeOf(file).Fields?
            && (Resolve(file).meta == EnvelopeOf(file).meta <==> NoneEndsInDashes(fields))
  {
    hide Serialise, Resolve, EnvelopeOf, Carried, FieldName, NoneEndsInDashes;
    PrintParse(fields, body);
    PrintedIsRead(fields, body);
  }
}
