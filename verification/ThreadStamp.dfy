/** The rewrite of a freshly published letter that gives it its thread. */
module ThreadStamp {
  import opened LetterFormat

  predicate ThreadLine(line: string) {
    line == "thread:" || (|line| >= 8 && line[..8] == "thread: ")
  }

  /** The first thread line, wherever it stands, is replaced. */
  function Stamped(lines: seq<string>, thread: string): seq<string> {
    if lines == [] then []
    else if ThreadLine(lines[0]) then ["thread: " + thread] + lines[1..]
    else [lines[0]] + Stamped(lines[1..], thread)
  }

  /** A letter without a thread line is left as it is. */
  function Stamp(file: string, thread: string): string {
    var lines := SplitLines(ReadText(file));
    if exists i :: 0 <= i < |lines| && ThreadLine(lines[i]) then
      assert |Stamped(lines, thread)| == |lines| by { StampedLength(lines, thread); }
      JoinLines(Stamped(lines, thread))
    else file
  }

  lemma {:induction false} StampedLength(lines: seq<string>, thread: string)
    ensures |Stamped(lines, thread)| == |lines|
    decreases |lines|
  {
    if lines != [] {
      StampedLength(lines[1..], thread);
    }
  }

  lemma {:induction false} StampedAt(lines: seq<string>, thread: string, n: nat)
    requires n < |lines| && ThreadLine(lines[n]) && forall i :: 0 <= i < n ==> !ThreadLine(lines[i])
    ensures Stamped(lines, thread) == lines[n := "thread: " + thread]
    decreases n
  {
    if n > 0 {
      forall i | 0 <= i < n - 1 ensures !ThreadLine(lines[1..][i]) { assert lines[1..][i] == lines[i + 1]; }
      StampedAt(lines[1..], thread, n - 1);
    }
  }

  method StampThread(file: string, thread: string) returns (written: string)
    ensures written == Stamp(file, thread)
  {
    hide ReadText, SplitLines, JoinLines, ThreadLine, Stamped;
    var lines := SplitLines(ReadText(file));
    for i := 0 to |lines|
      invariant forall k :: 0 <= k < i ==> !ThreadLine(lines[k])
    {
      if ThreadLine(lines[i]) {
        StampedAt(lines, thread, i);
        return JoinLines(lines[i := "thread: " + thread]);
      }
    }
    return file;
  }

  /** Only the line of the thread field looks like a thread line. */
  lemma ThreadLineIsField(f: Field)
    requires Carried(f)
    ensures ThreadLine(Line(f)) <==> f.key == "thread"
  {
    var line := Line(f);
    assert forall k :: 0 <= k < |f.key| ==> line[k] == f.key[k];
    assert line[|f.key|] == ':';
    assert line[..|f.key|] == f.key;
    if ThreadLine(line) {
      assert line[..7] == "thread:" && line[6] == ':';
      assert forall k :: 0 <= k < 6 ==> line[k] == line[..7][k] != ':';
      assert |f.key| == 6;
      assert line[..6] == "thread:"[..6] == "thread";
    }
    if f.key == "thread" && f.value != "" {
      assert line == "thread: " + f.value;
    }
  }

  lemma {:induction false} JoinTail(head: seq<string>, tail: string)
    ensures JoinLines(head + SplitLines(tail)) == JoinLines(head + [tail])
    decreases |head|
  {
    hide SplitLines;
    if head == [] {
      JoinOfSplit(tail);
      assert head + SplitLines(tail) == SplitLines(tail) && head + [tail] == [tail];
    } else {
      JoinTail(head[1..], tail);
      assert (head + SplitLines(tail))[1..] == head[1..] + SplitLines(tail);
      assert (head + [tail])[1..] == head[1..] + [tail];
    }
  }

  function Head(fields: seq<Field>): seq<string> {
    ["---"] + Lines(fields) + ["---"]
  }

  lemma SheetLines(fields: seq<Field>, rest: string)
    ensures Sheet(fields, rest) == JoinLines(Head(fields) + [rest])
  {
    hide Line, Front;
    var tail := ["---", rest];
    FrontOfLines(fields, tail);
    assert tail[1..] == [rest];
    assert JoinLines(tail) == "---" + "\n" + rest;
    var all := Head(fields) + [rest];
    assert all[1..] == Lines(fields) + tail;
    assert JoinLines(all) == "---" + "\n" + JoinLines(all[1..]);
    hide JoinLines, Lines, Head;
    assert "---" + "\n" == FENCE;
  }

  lemma HeadLines(fields: seq<Field>, n: nat)
    requires AllCarried(fields) && Distinct(fields)
    requires n < |fields| && fields[n].key == "thread"
    ensures forall i :: 0 <= i < |Head(fields)| ==>
              Lacks(Head(fields)[i], '\n') && (ThreadLine(Head(fields)[i]) <==> i == n + 1)
  {
    var head := Head(fields);
    hide Line, Carried;
    forall i | 0 <= i < |head| ensures Lacks(head[i], '\n') && (ThreadLine(head[i]) <==> i == n + 1) {
      if 1 <= i <= |fields| {
        assert head[i] == Line(fields[i - 1]);
        LineReads(fields[i - 1], map[]);
        ThreadLineIsField(fields[i - 1]);
      }
    }
  }

  lemma StampLines(head: seq<string>, last: string, file: string, thread: string, n: nat)
    requires n < |head|
    requires forall i :: 0 <= i < |head| ==> Lacks(head[i], '\n') && (ThreadLine(head[i]) <==> i == n)
    requires ReadText(file) == JoinLines(head + [last])
    ensures Stamp(file, thread) == JoinLines(head[n := "thread: " + thread] + [last])
  {
    hide ThreadLine, ReadText, Lacks, SplitLines, Stamped, JoinLines;
    SplitOfJoin(head, last);
    var lines := head + SplitLines(last);
    assert lines[n] == head[n];
    forall i | 0 <= i < n ensures !ThreadLine(lines[i]) { assert lines[i] == head[i]; }
    StampedAt(lines, thread, n);
    var after := head[n := "thread: " + thread];
    assert lines[n := "thread: " + thread] == after + SplitLines(last);
    JoinTail(after, last);
  }

  lemma StampSheet(fields: seq<Field>, rest: string, thread: string, n: nat)
    requires AllCarried(fields) && Distinct(fields)
    requires n < |fields| && fields[n].key == "thread" && thread != ""
    ensures Stamp(Sheet(fields, rest), thread) == Sheet(fields[n := Field("thread", thread)], ReadText(rest))
  {
    hide Sheet, ReadText, Lacks, AllCarried, Stamp, ThreadLine, Line;
    SheetIsRead(fields, rest);
    SheetLines(fields, ReadText(rest));
    HeadLines(fields, n);
    StampLines(Head(fields), ReadText(rest), Sheet(fields, rest), thread, n + 1);
    var after := fields[n := Field("thread", thread)];
    LineOfThread(thread);
    assert Head(after) == Head(fields)[n + 1 := "thread: " + thread];
    SheetLines(after, ReadText(rest));
  }

  lemma LineOfThread(thread: string)
    requires thread != ""
    ensures Line(Field("thread", thread)) == "thread: " + thread
  {
    assert "thread" + ": " == "thread: ";
  }

  // ---- the printer and one replaced value ----

  /** The same fields, with another value for one of them. */
  function With(fields: seq<Field>, key: string, value: string): seq<Field> {
    if fields == [] then []
    else [if fields[0].key == key then Field(key, value) else fields[0]] + With(fields[1..], key, value)
  }

  lemma {:induction false} WithAt(fields: seq<Field>, key: string, value: string)
    ensures |With(fields, key, value)| == |fields|
    ensures forall i :: 0 <= i < |fields| ==>
              With(fields, key, value)[i] == if fields[i].key == key then Field(key, value) else fields[i]
    decreases |fields|
  {
    if fields != [] {
      WithAt(fields[1..], key, value);
    }
  }

  lemma {:induction false} FindIn(fields: seq<Field>, others: seq<Field>, key: string)
    requires |fields| == |others| && forall i :: 0 <= i < |fields| ==> fields[i].key == others[i].key
    ensures Find(fields, key) == Find(others, key)
    decreases |fields|
  {
    if fields != [] {
      FindIn(fields[1..], others[1..], key);
    }
  }

  lemma {:induction false} WithSplits(a: seq<Field>, b: seq<Field>, key: string, value: string)
    ensures With(a + b, key, value) == With(a, key, value) + With(b, key, value)
    decreases |a|
  {
    if a == [] {
      assert a + b == b;
    } else {
      assert (a + b)[1..] == a[1..] + b;
      WithSplits(a[1..], b, key, value);
    }
  }

  lemma {:induction false} PickedWith(fields: seq<Field>, keys: seq<string>, key: string, value: string)
    ensures Picked(With(fields, key, value), keys) == With(Picked(fields, keys), key, value)
    decreases |keys|
  {
    if keys != [] {
      PickedWith(fields, keys[1..], key, value);
      WithAt(fields, key, value);
      FindIn(With(fields, key, value), fields, keys[0]);
      var i := Find(fields, keys[0]);
      WithSplits(if i == -1 then [] else [fields[i]], Picked(fields, keys[1..]), key, value);
    }
  }

  lemma {:induction false} OthersWith(fields: seq<Field>, keys: seq<string>, key: string, value: string)
    ensures Others(With(fields, key, value), keys) == With(Others(fields, keys), key, value)
    decreases |fields|
  {
    if fields != [] {
      OthersWith(fields[1..], keys, key, value);
      assert With(fields, key, value)[1..] == With(fields[1..], key, value);
      WithSplits(if fields[0].key in keys then [] else [fields[0]], Others(fields[1..], keys), key, value);
    }
  }

  /** Replacing a value does not move the field. */
  lemma OrderedWith(fields: seq<Field>, key: string, value: string)
    ensures Ordered(With(fields, key, value)) == With(Ordered(fields), key, value)
  {
    PickedWith(fields, ENVELOPE_ORDER, key, value);
    OthersWith(fields, ENVELOPE_ORDER, key, value);
    WithSplits(Picked(fields, ENVELOPE_ORDER), Others(fields, ENVELOPE_ORDER), key, value);
  }

  lemma WithReplaces(fields: seq<Field>, n: nat, value: string)
    requires Distinct(fields) && n < |fields|
    ensures With(fields, fields[n].key, value) == fields[n := Field(fields[n].key, value)]
    ensures Distinct(With(fields, fields[n].key, value))
    ensures ToMeta(With(fields, fields[n].key, value)) == ToMeta(fields)[fields[n].key := value]
  {
    WithAt(fields, fields[n].key, value);
    ReplacedMeta(fields, n, value);
  }

  lemma CarriedWith(fields: seq<Field>, key: string, value: string)
    requires AllCarried(fields) && Carried(Field(key, value))
    ensures AllCarried(With(fields, key, value))
  {
    WithAt(fields, key, value);
    hide Carried;
  }

  /** Reading a sheet does not depend on how the line ends after its front were written. */
  lemma ReadTwice(fields: seq<Field>, rest: string)
    requires AllCarried(fields)
    ensures Resolve(Sheet(fields, ReadText(rest))) == Resolve(Sheet(fields, rest))
  {
    hide Sheet, AllCarried, SplitFences, AddLines, TextLines, StripNewlines, JoinFences;
    SheetIsRead(fields, rest);
    SheetIsRead(fields, ReadText(rest));
    ReadTextIsPlain(rest);
    ReadTextIsPlain(ReadText(rest));
  }

  /**
   Stamping a printed letter changes its thread field and nothing else: it then reads exactly as the
   letter printed with that thread, whatever its fields, and even where a body line looks like a
   thread line.
   */
  lemma StampSetsThread(fields: seq<Field>, body: string, thread: string, n: nat)
    requires AllCarried(fields) && Distinct(fields) && n < |fields| && fields[n].key == "thread"
    requires thread != "" && Carried(Field("thread", thread))
    ensures Resolve(Stamp(Serialise(fields, body), thread)) == Resolve(Serialise(With(fields, "thread", thread), body))
  {
    hide Carried, EndsInDashes, Resolve, Stamp, Ordered, ToMeta, ReadText, With;
    var o, rest := Ordered(fields), body + "\n";
    Layout(fields, body);
    OrderedIsSame(fields);
    CarriedInOrder(fields);
    assert fields[n] in o;
    var i :| 0 <= i < |o| && o[i] == fields[n];
    StampSheet(o, rest, thread, i);
    WithReplaces(o, i, thread);
    OrderedWith(fields, "thread", thread);
    Layout(With(fields, "thread", thread), body);
    CarriedWith(o, "thread", thread);
    ReadTwice(With(o, "thread", thread), rest);
  }

  lemma ReplacedMeta(fields: seq<Field>, n: nat, value: string)
    requires Distinct(fields) && n < |fields|
    ensures ToMeta(fields[n := Field(fields[n].key, value)]) == ToMeta(fields)[fields[n].key := value]
  {
    var after := fields[n := Field(fields[n].key, value)];
    MetaHolds(fields);
    MetaHolds(after);
    hide ToMeta;
    var m, w := ToMeta(after), ToMeta(fields)[fields[n].key := value];
    assert after[n] in after;
    forall k | k in m ensures k in w && w[k] == m[k] {
      var i :| 0 <= i < |after| && after[i] == Field(k, m[k]);
      if i != n { assert fields[i] in fields; }
    }
    forall k | k in w ensures k in m {
      if k != fields[n].key {
        var i :| 0 <= i < |fields| && fields[i] == Field(k, w[k]);
        assert after[i] in after;
      }
    }
  }
}
