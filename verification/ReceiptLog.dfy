/**
 The receipts directories of one writer at a time: file names that number events, the history
 read back from them, and the startup pass over all letters.

 A directory refines an append-only log of events. Files whose name carries no number or no
 event may be there too.
 */
module ReceiptLog {
  import opened Collections
  import opened Receipts
  import opened Decimal

  // ---- file names ----

  function Word(e: Event): string {
    match e
    case Composed => "composed"
    case Sending => "sending"
    case Throttled => "throttled"
    case Sent => "sent"
    case Refused => "refused"
    case Ambiguous => "ambiguous"
    case Dead => "dead"
  }

  lemma WordsDiffer(e: Event, f: Event)
    requires Word(e) == Word(f)
    ensures e == f
  {
    assert |Word(e)| == |Word(f)| && Word(e)[0] == Word(f)[0] && Word(e)[2] == Word(f)[2];
  }

  function FirstDash(s: string): (i: nat)
    ensures i <= |s| && (i < |s| ==> s[i] == '-') && forall k :: 0 <= k < i ==> s[k] != '-'
  {
    if s == "" || s[0] == '-' then 0 else
      var i := FirstDash(s[1..]) + 1;
      assert forall k :: 0 < k < i ==> s[k] == s[1..][k - 1];
      i
  }

  /** The number a file name begins with; -1 when it does not parse. */
  function SeqOf(name: string): int {
    var prefix := name[..FirstDash(name)];
    if Numeral(prefix) then Read(prefix) else -1
  }

  const SUFFIX := ".json"

  function EventOf(name: string): string {
    var i := FirstDash(name);
    var rest := if i == |name| then "" else name[i + 1..];
    if |rest| >= 5 && rest[|rest| - 5..] == SUFFIX then rest[..|rest| - 5] else rest
  }

  /** Other names are skipped. */
  predicate Counts(name: string) {
    EventOf(name) != "" && SeqOf(name) >= 0
  }

  function FileName(n: nat, e: Event): string {
    Show(n) + "-" + Word(e) + SUFFIX
  }

  lemma FileNameReads(n: nat, e: Event)
    ensures SeqOf(FileName(n, e)) == n && EventOf(FileName(n, e)) == Word(e) && Counts(FileName(n, e))
  {
    hide Word;
    var name, digits := FileName(n, e), Show(n);
    assert forall k :: 0 <= k < |digits| ==> name[k] == digits[k] && IsDigit(digits[k]);
    assert name[|digits|] == '-';
    assert FirstDash(name) == |digits| && name[..|digits|] == digits;
    ReadShow(n);
    var rest := name[|digits| + 1..];
    assert rest == Word(e) + SUFFIX;
    assert rest[|rest| - 5..] == SUFFIX && rest[..|rest| - 5] == Word(e);
    WordIsSomething(e);
  }

  lemma WordIsSomething(e: Event)
    ensures Word(e) != ""
  {
  }

  // ---- a directory and its log ----

  datatype Entry = Entry(number: nat, event: Event)

  function Files(log: seq<Entry>): (s: set<string>)
    ensures forall i :: 0 <= i < |log| ==> FileName(log[i].number, log[i].event) in s
    ensures forall name :: name in s ==> exists i :: 0 <= i < |log| && name == FileName(log[i].number, log[i].event)
  {
    set i | 0 <= i < |log| :: FileName(log[i].number, log[i].event)
  }

  predicate Ascends(log: seq<Entry>) {
    forall i, j :: 0 <= i < j < |log| ==> log[i].number < log[j].number
  }

  /** The counted files are the log's, in ascending numbers that the number of files bounds. */
  ghost predicate Refines(names: set<string>, log: seq<Entry>) {
    && Ascends(log) && Files(log) <= names
    && (forall name :: name in names && name !in Files(log) ==> !Counts(name))
    && (forall i :: 0 <= i < |log| ==> log[i].number <= |names|)
  }

  function Words(log: seq<Entry>): seq<string> {
    seq(|log|, i requires 0 <= i < |log| => Word(log[i].event))
  }

  lemma FilesGrow(log: seq<Entry>, x: Entry)
    ensures Files(log + [x]) == Files(log) + {FileName(x.number, x.event)}
  {
    hide FileName;
    var more := log + [x];
    assert more[|log|] == x;
    forall f | f in Files(log) ensures f in Files(more) {
      var i :| 0 <= i < |log| && f == FileName(log[i].number, log[i].event);
      assert more[i] == log[i];
    }
  }

  /** Every counted file has a number no larger than the number of files. */
  lemma NumbersBounded(names: set<string>, log: seq<Entry>, name: string)
    requires Refines(names, log) && name in names && Counts(name)
    ensures SeqOf(name) <= |names|
  {
    hide FileName, Counts, SeqOf;
    var i :| 0 <= i < |log| && name == FileName(log[i].number, log[i].event);
    FileNameReads(log[i].number, log[i].event);
  }

  lemma AppendRefines(names: set<string>, log: seq<Entry>, x: Entry)
    requires Refines(names, log) && FileName(x.number, x.event) !in names && x.number == |names| + 1
    ensures Refines(names + {FileName(x.number, x.event)}, log + [x])
  {
    hide FileName, Counts, Files;
    FilesGrow(log, x);
    assert |names + {FileName(x.number, x.event)}| == |names| + 1;
  }

  /** The next name is new, its number is past every other, and the file appends its event. */
  lemma NextNameAppends(names: set<string>, log: seq<Entry>, e: Event)
    requires Refines(names, log)
    ensures FileName(|names| + 1, e) !in names
    ensures forall name :: name in names && Counts(name) ==> SeqOf(name) < |names| + 1
    ensures Refines(names + {FileName(|names| + 1, e)}, log + [Entry(|names| + 1, e)])
  {
    FileNameReads(|names| + 1, e);
    hide FileName, Counts, SeqOf, EventOf, Refines;
    forall other | other in names && Counts(other) ensures SeqOf(other) < |names| + 1 {
      NumbersBounded(names, log, other);
    }
    AppendRefines(names, log, Entry(|names| + 1, e));
  }

  /** A file that is not counted changes nothing. */
  lemma StrayIsIgnored(names: set<string>, log: seq<Entry>, stray: string)
    requires Refines(names, log) && !Counts(stray)
    ensures Refines(names + {stray}, log)
  {
    if stray !in names {
      assert |names + {stray}| == |names| + 1;
    } else {
      assert names + {stray} == names;
    }
  }

  // ---- what a history says ----

  datatype Verdict = StillThrottled | InDoubt | NotSent

  function Events(log: seq<Entry>): seq<Event> {
    seq(|log|, i requires 0 <= i < |log| => log[i].event)
  }

  /** What startup makes of a letter; nothing of one that has ended. */
  function VerdictOf(events: seq<Event>): Option<Verdict> {
    if exists i :: 0 <= i < |events| && Terminal(events[i]) then None
    else if events != [] && events[|events| - 1] == Throttled then Some(StillThrottled)
    else if Sending in events then Some(InDoubt)
    else Some(NotSent)
  }

  /** A letter's events after the startup pass. */
  function Settled(events: seq<Event>): seq<Event> {
    if VerdictOf(events) == Some(InDoubt) then events + [Dead] else events
  }

  /** A second pass finds nothing to do, and a letter that waits or was never sent is left alone. */
  lemma SettledTwice(events: seq<Event>)
    ensures Settled(Settled(events)) == Settled(events) && VerdictOf(Settled(events)) != Some(InDoubt)
    ensures VerdictOf(events) == Some(StillThrottled) || VerdictOf(events) == Some(NotSent) ==>
              Settled(events) == events
    ensures VerdictOf(events) == Some(InDoubt) ==> VerdictOf(Settled(events)) == None
  {
    if VerdictOf(events) == Some(InDoubt) {
      assert (events + [Dead])[|events|] == Dead;
    }
  }

  /** A letter whose receipts say composed and nothing more, or that has none, is unsent. */
  lemma ComposedIsUnsent(events: seq<Event>)
    requires forall i :: 0 <= i < |events| ==> events[i] == Composed
    ensures VerdictOf(events) == Some(NotSent)
  {
  }

  /** An event that ends a letter takes it off every later report; an attempt without an answer puts it in doubt. */
  lemma VerdictMoves(events: seq<Event>, e: Event)
    ensures Terminal(e) ==> VerdictOf(events + [e]) == None
    ensures VerdictOf(events) == None ==> VerdictOf(events + [e]) == None
    ensures VerdictOf(events) != None ==>
              && (e == Throttled ==> VerdictOf(events + [e]) == Some(StillThrottled))
              && (e == Sending ==> VerdictOf(events + [e]) == Some(InDoubt))
  {
    var more := events + [e];
    assert more[|events|] == e;
    forall i | 0 <= i < |events| ensures more[i] == events[i] {}
    if VerdictOf(events) == None {
      var i :| 0 <= i < |events| && Terminal(events[i]);
      assert Terminal(more[i]);
    }
  }

  /** The verdicts are those the sending protocols act on, read from the same directory. */
  lemma ProtocolReadsVerdicts(log: seq<Entry>)
    requires Ascends(log)
    ensures var d := Listed(log);
            && (WaitsOnThrottle(d) <==> VerdictOf(Events(log)) == Some(StillThrottled))
            && (DiedInFlight(d) <==> VerdictOf(Events(log)) == Some(InDoubt))
            && (HasTerminal(d) <==> VerdictOf(Events(log)) == None)
            && (Unsent(d) <==> VerdictOf(Events(log)) == Some(NotSent))
  {
    var d, events := Listed(log), Events(log);
    ListedTerminal(log);
    ListedSending(log);
    LastIsNewest(log);
    hide Listed, HasTerminal, HasEvent, Newest, Terminal, Events;
    if log != [] {
      var last := log[|log| - 1].event;
      assert events[|events| - 1] == last;
      assert Newest(d, last) && forall e :: Newest(d, e) ==> e == last;
    }
  }

  lemma ListedTerminal(log: seq<Entry>)
    ensures HasTerminal(Listed(log)) <==> exists i :: 0 <= i < |log| && Terminal(Events(log)[i])
  {
    var d := Listed(log);
    forall i | 0 <= i < |log| ensures Numbered(log[i].number, log[i].event) in d {}
    if HasTerminal(d) {
      var x :| x in d && x.Numbered? && Terminal(x.event);
      var i :| 0 <= i < |log| && x == Numbered(log[i].number, log[i].event);
      assert Terminal(Events(log)[i]);
    }
  }

  lemma ListedSending(log: seq<Entry>)
    ensures HasEvent(Listed(log), Sending) <==> Sending in Events(log)
  {
    var d := Listed(log);
    forall i | 0 <= i < |log| ensures Numbered(log[i].number, log[i].event) in d && Events(log)[i] == log[i].event {}
    if HasEvent(d, Sending) {
      var n :| Numbered(n, Sending) in d;
      var i :| 0 <= i < |log| && Numbered(n, Sending) == Numbered(log[i].number, log[i].event);
      assert Events(log)[i] == Sending;
    }
  }

  function Listed(log: seq<Entry>): (d: Dir)
    ensures forall x :: x in d <==> exists i :: 0 <= i < |log| && x == Numbered(log[i].number, log[i].event)
  {
    set i | 0 <= i < |log| :: Numbered(log[i].number, log[i].event)
  }

  lemma LastIsNewest(log: seq<Entry>)
    requires Ascends(log)
    ensures forall e :: Newest(Listed(log), e) <==> log != [] && log[|log| - 1].event == e
  {
    var d := Listed(log);
    forall i | 0 <= i < |log| ensures Numbered(log[i].number, log[i].event) in d {}
    if log != [] {
      var last := log[|log| - 1];
      assert Tops(d, last.number);
      forall e | Newest(d, e) ensures e == last.event {
        var n :| Numbered(n, e) in d && Tops(d, n);
        assert Numbered(last.number, last.event) in d;
      }
      assert Newest(d, last.event);
    }
  }

  const ENDED: set<string> := {"sent", "refused", "ambiguous", "dead"}

  lemma EndedWords(e: Event)
    ensures Word(e) in ENDED <==> Terminal(e)
    ensures (Word(e) == "throttled" <==> e == Throttled) && (Word(e) == "sending" <==> e == Sending)
  {
    if Word(e) == "throttled" { WordsDiffer(e, Throttled); }
    if Word(e) == "sending" { WordsDiffer(e, Sending); }
  }

  lemma WordsSay(log: seq<Entry>)
    ensures (exists i :: 0 <= i < |log| && Words(log)[i] in ENDED) <==>
              exists i :: 0 <= i < |log| && Terminal(Events(log)[i])
    ensures log != [] ==> (Words(log)[|log| - 1] == "throttled" <==> Events(log)[|log| - 1] == Throttled)
    ensures "sending" in Words(log) <==> Sending in Events(log)
  {
    hide Word;
    forall i | 0 <= i < |log|
      ensures (Words(log)[i] in ENDED <==> Terminal(Events(log)[i]))
              && (Words(log)[i] == "throttled" <==> Events(log)[i] == Throttled)
              && (Words(log)[i] == "sending" <==> Events(log)[i] == Sending)
    {
      EndedWords(log[i].event);
    }
  }

  // ---- reading and writing ----

  lemma LeastSeq(names: set<string>) returns (least: string)
    requires names != {}
    ensures least in names && forall name :: name in names ==> SeqOf(least) <= SeqOf(name)
    decreases |names|
  {
    hide SeqOf;
    least :| least in names;
    if names != {least} {
      var other := LeastSeq(names - {least});
      if SeqOf(other) < SeqOf(least) {
        least := other;
      }
    }
  }

  /** What is left to read after the first k events. */
  ghost predicate Remains(rest: set<string>, log: seq<Entry>, k: nat) {
    && k <= |log|
    && (forall name :: name in rest && Counts(name) ==>
         exists i :: k <= i < |log| && name == FileName(log[i].number, log[i].event))
    && (forall i :: k <= i < |log| ==> FileName(log[i].number, log[i].event) in rest)
  }

  lemma LeastIsNext(rest: set<string>, log: seq<Entry>, k: nat, least: string)
    requires Ascends(log) && Remains(rest, log, k) && least in rest
    requires forall name :: name in rest ==> SeqOf(least) <= SeqOf(name)
    ensures if Counts(least) then k < |log| && EventOf(least) == Word(log[k].event)
            && Remains(rest - {least}, log, k + 1)
            else Remains(rest - {least}, log, k)
  {
    hide FileName, SeqOf, EventOf, Word, Counts;
    forall i | k <= i < |log|
      ensures SeqOf(FileName(log[i].number, log[i].event)) == log[i].number
      ensures Counts(FileName(log[i].number, log[i].event))
    {
      FileNameReads(log[i].number, log[i].event);
    }
    if Counts(least) {
      var i :| k <= i < |log| && least == FileName(log[i].number, log[i].event);
      assert i == k by {
        assert SeqOf(least) <= SeqOf(FileName(log[k].number, log[k].event));
      }
      FileNameReads(log[k].number, log[k].event);
    }
  }

  lemma NothingRemains(rest: set<string>, log: seq<Entry>, k: nat)
    requires rest == {} && k <= |log|
    ensures k < |log| ==> !Remains(rest, log, k)
  {
    if k < |log| {
      assert FileName(log[k].number, log[k].event) !in rest;
    }
  }

  /** The events of a directory, oldest first. */
  method History(names: set<string>, ghost log: seq<Entry>) returns (events: seq<string>)
    requires Refines(names, log)
    ensures events == Words(log)
  {
    hide FileName, SeqOf, EventOf, Word, Counts;
    var rest := names;
    events := [];
    while rest != {}
      invariant Remains(rest, log, |events|)
      invariant events == Words(log)[..|events|]
      decreases |rest|
    {
      ghost var first := LeastSeq(rest);
      assert first in rest && forall name :: name in rest ==> SeqOf(first) <= SeqOf(name);
      var path :| path in rest && forall name :: name in rest ==> SeqOf(path) <= SeqOf(name);
      LeastIsNext(rest, log, |events|, path);
      rest := rest - {path};
      if Counts(path) {
        events := events + [EventOf(path)];
      }
    }
    NothingRemains(rest, log, |events|);
  }

  // ---- the state directory ----

  class Store {
    /** No write fails. */
    const quiet: bool
    /** receipts/<letter>, and the letters named under dead-letters. */
    var dirs: map<string, set<string>>
    var dead: set<string>
    /** The events each directory stands for. */
    ghost var logs: map<string, seq<Entry>>

    ghost predicate Valid()
      reads this
    {
      logs.Keys == dirs.Keys && forall l :: l in dirs ==> Refines(dirs[l], logs[l])
    }

    ghost function Log(letter: string): seq<Event>
      reads this
    {
      if letter in logs then Events(logs[letter]) else []
    }

    constructor (quiet: bool)
      ensures Valid() && dirs == map[] && dead == {} && this.quiet == quiet
    {
      dirs, dead, logs := map[], {}, map[];
      this.quiet := quiet;
    }

    /** Somebody leaves a file that is no receipt. */
    method Litter(letter: string, name: string)
      requires Valid() && letter in dirs && !Counts(name)
      modifies this
      ensures Valid() && logs == old(logs) && dead == old(dead)
      ensures dirs == old(dirs)[letter := old(dirs)[letter] + {name}]
    {
      StrayIsIgnored(dirs[letter], logs[letter], name);
      hide Refines, Counts;
      dirs := dirs[letter := dirs[letter] + {name}];
    }

    method MakeDirectory(letter: string)
      requires Valid()
      modifies this
      ensures Valid() && letter in dirs && dead == old(dead)
      ensures logs == if letter in old(logs) then old(logs) else old(logs)[letter := []]
    {
      EmptyRefines();
      hide Refines;
      if letter !in dirs {
        dirs, logs := dirs[letter := {}], logs[letter := []];
      }
    }

    lemma EmptyRefines()
      ensures Refines({}, [])
    {
    }

    method CreateFile(letter: string, e: Event) returns (ok: bool)
      requires Valid() && letter in dirs
      modifies this
      ensures Valid() && dead == old(dead) && dirs.Keys == old(dirs.Keys)
      ensures logs == if ok then old(logs)[letter := old(logs)[letter] + [Entry(|old(dirs)[letter]| + 1, e)]]
              else old(logs)
      ensures quiet ==> ok
    {
      hide Refines, FileName;
      var names := dirs[letter];
      NextNameAppends(names, logs[letter], e);
      var path := FileName(|names| + 1, e);
      var fails: bool := *;
      if (fails && !quiet) || path in names { return false; }
      dirs, logs := dirs[letter := names + {path}], logs[letter := logs[letter] + [Entry(|names| + 1, e)]];
      return true;
    }

    /** One more event at the end of a letter's log, or a directory and nothing in it. */
    method RecordEvent(letter: string, e: Event) returns (ok: bool)
      requires Valid()
      modifies this
      ensures Valid() && dirs.Keys == old(dirs.Keys) + {letter} && dead == old(dead)
      ensures forall l :: l != letter ==> Log(l) == old(Log(l))
      ensures Log(letter) == if ok then old(Log(letter)) + [e] else old(Log(letter))
      ensures quiet ==> ok
    {
      hide Refines;
      MakeDirectory(letter);
      ghost var before := logs[letter];
      assert Events(before) == old(Log(letter));
      ghost var n := |dirs[letter]| + 1;
      ok := CreateFile(letter, e);
      assert Events(before + [Entry(n, e)]) == Events(before) + [e];
    }

    /** The verdict on every letter that has not ended, and on claims without any receipt. */
    method Reconcile(outbox: Option<set<string>>) returns (verdicts: map<string, Verdict>)
      requires Valid()
      ensures forall l :: l in dirs ==> (if l in verdicts then Some(verdicts[l]) else None) == VerdictOf(Log(l))
      ensures forall l :: l !in dirs ==> (l in verdicts <==> outbox.Some? && l in outbox.value)
      ensures forall l :: l in verdicts && l !in dirs ==> verdicts[l] == NotSent
    {
      hide Refines, FileName, Words, Events, VerdictOf;
      verdicts := map[];
      var rest := dirs.Keys;
      while rest != {}
        invariant rest <= dirs.Keys
        invariant forall l :: l in verdicts ==> l in dirs && l !in rest
        invariant forall l :: l in dirs && l !in rest ==>
                    (if l in verdicts then Some(verdicts[l]) else None) == VerdictOf(Log(l))
        decreases |rest|
      {
        var l :| l in rest;
        rest := rest - {l};
        var events := History(dirs[l], logs[l]);
        var verdict := Judge(events, logs[l]);
        if verdict.Some? { verdicts := verdicts[l := verdict.value]; }
      }
      if outbox.Some? {
        verdicts := verdicts + map l | l in outbox.value && l !in dirs :: NotSent;
      }
    }

    /** Every log of before, settled where it was flagged. */
    ghost predicate SettledAre(flagged: set<string>, before: map<string, seq<Event>>)
      reads this
    {
      && dirs.Keys == before.Keys && flagged <= dead
      && forall l :: l in before ==> Log(l) == if l in flagged then Settled(before[l]) else before[l]
    }

    /** One letter in doubt: named for a human, then ended. */
    method Flag(letter: string, ghost flagged: set<string>, ghost before: map<string, seq<Event>>) returns (ok: bool)
      requires Valid() && SettledAre(flagged, before)
      requires letter in before && letter !in flagged && VerdictOf(before[letter]) == Some(InDoubt)
      modifies this
      ensures Valid() && SettledAre(if ok then flagged + {letter} else flagged, before)
      ensures quiet ==> ok
    {
      hide Valid, Events, VerdictOf;
      var fails: bool := *;
      if fails && !quiet { return false; }
      assert Log(letter) == before[letter];
      assert Settled(before[letter]) == before[letter] + [Dead];
      ghost var keys := dirs.Keys;
      assert keys + {letter} == keys;
      NameDead(letter);
      ok := RecordEvent(letter, Dead);
    }

    method NameDead(letter: string)
      requires Valid()
      modifies `dead
      ensures Valid() && dead == old(dead) + {letter}
    {
      hide Refines;
      dead := dead + {letter};
    }

    /**
     The pass over all letters when the bridge starts; it may die on the way. Letters flagged are in
     doubt and settled, each named under dead-letters; all others keep their log.
     */
    method ReconcileAtStartup(ghost before: map<string, seq<Event>>) returns (done: bool, flagged: set<string>)
      requires Valid() && before.Keys == dirs.Keys && forall l :: l in before ==> before[l] == Log(l)
      modifies this
      ensures Valid() && SettledAre(flagged, before)
      ensures forall l :: l in flagged ==> l in before && VerdictOf(before[l]) == Some(InDoubt)
      ensures done ==> forall l :: l in before ==> Log(l) == Settled(before[l])
      ensures quiet ==> done
    {
      hide Valid, Refines, Events, VerdictOf, SettledAre;
      var verdicts := Reconcile(None);
      var rest := set l | l in verdicts && verdicts[l] == InDoubt;
      flagged := {};
      assert SettledAre({}, before) by { NothingSettledYet(before); }
      while rest != {}
        invariant Valid() && SettledAre(flagged, before)
        invariant forall l :: l in rest ==> l in before && l !in flagged && VerdictOf(before[l]) == Some(InDoubt)
        invariant forall l :: l in before && VerdictOf(before[l]) == Some(InDoubt) ==> l in rest || l in flagged
        invariant forall l :: l in flagged ==> l in before && VerdictOf(before[l]) == Some(InDoubt)
        decreases |rest|
      {
        var l :| l in rest;
        rest := rest - {l};
        var ok := Flag(l, flagged, before);
        if !ok { return false, flagged; }
        flagged := flagged + {l};
      }
      AllSettled(flagged, before);
      return true, flagged;
    }

    lemma NothingSettledYet(before: map<string, seq<Event>>)
      requires before.Keys == dirs.Keys && forall l :: l in before ==> before[l] == Log(l)
      ensures SettledAre({}, before)
    {
    }

    lemma AllSettled(flagged: set<string>, before: map<string, seq<Event>>)
      requires SettledAre(flagged, before)
      requires forall l :: l in before && VerdictOf(before[l]) == Some(InDoubt) ==> l in flagged
      ensures forall l :: l in before ==> Log(l) == Settled(before[l])
    {
      hide VerdictOf;
    }
  }

  method Judge(events: seq<string>, ghost log: seq<Entry>) returns (v: Option<Verdict>)
    requires events == Words(log)
    ensures v == VerdictOf(Events(log))
  {
    WordsSay(log);
    hide Word;
    assert |events| == |log| == |Events(log)|;
    if exists i :: 0 <= i < |events| && events[i] in ENDED { return None; }
    if events != [] && events[|events| - 1] == "throttled" { return Some(StillThrottled); }
    return Some(if "sending" in events then InDoubt else NotSent);
  }
}
