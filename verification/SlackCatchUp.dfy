/**
 Slack's catch-up: which stretch of a conversation has been read, which of the messages read
 have been handled, and how far the stored markers may move.

 A marker belongs to a history, a conversation or one of its threads. A read of a history is a
 window of messages fixed when its first page is answered, walked page by page behind an opaque
 cursor, over as many cycles as it takes.
 */
module SlackCatchUp {
  import opened Collections

  /** A message is known by its conversation and its time stamp. */
  datatype Id = Id(conv: nat, ts: int)

  datatype Key = History(conv: nat) | Thread(conv: nat, root: nat)

  datatype Mark = Mark(id: Id, thread: Option<nat>)

  /** What the platform's cursor stands for: the window and how much of it has been served. */
  datatype Cursor = Cursor(window: seq<Id>, at: nat)

  datatype Saved = Saved(oldest: int, cursor: Cursor)

  datatype Status = Done | Partial | Skip | Lost | Raised

  datatype Reply = NoAnswer | Denied | BadCursor | Error | Page(messages: seq<Id>, next: Option<Cursor>)

  /** A message as one history shows it. */
  datatype Entry = Entry(key: Key, id: Id)

  type Markers = map<Key, int>

  /** What can excuse the adapter from messages it owes. */
  datatype Event =
    | Denial(key: Key)                        // the platform denied this history
    | Cap(lost: set<Key>)                     // threads lost their markers to the cap
    | Restart(untracked: set<nat>)            // a new process did not track these conversations
    | FirstWindow(key: Key, oldest: int)      // a first-run window began here

  predicate Covers(e: Event, d: Entry) {
    match e
    case Denial(k) => k == d.key || k == History(d.key.conv)
    case Cap(lost) => d.key in lost
    case Restart(untracked) => d.key.conv in untracked
    case FirstWindow(k, oldest) => k == d.key && d.id.ts <= oldest
  }

  const FIRST_RUN_WINDOW := 86400 * 1000000
  const MAX_PAGES := 10
  const MAX_THREADS := 200

  /** What has happened, fallen due and been settled so far. */
  datatype Log = Log(events: seq<Event>, due: map<Entry, nat>, settled: set<Id>)

  ghost predicate Continues(earlier: Log, later: Log) {
    && earlier.events <= later.events && earlier.settled <= later.settled
    && forall d :: d in earlier.due ==> d in later.due && earlier.due[d] <= later.due[d]
  }

  lemma ContinuesOn(a: Log, b: Log, c: Log)
    requires Continues(a, b) && Continues(b, c)
    ensures Continues(a, c)
  {
  }

  /** What a message is excused by covers it, and happened after it fell due. */
  ghost predicate Justified(due: map<Entry, nat>, excused: map<Entry, nat>, events: seq<Event>) {
    && (forall d :: d in due ==> due[d] <= |events|)
    && (forall d :: d in excused ==> d in due && due[d] <= excused[d] < |events| && Covers(events[excused[d]], d))
  }

  lemma ExcuseMore(due: map<Entry, nat>, excused: map<Entry, nat>, events: seq<Event>, e: Event, gone: set<Entry>)
    requires Justified(due, excused, events)
    requires forall d :: d in gone ==> d in due && Covers(e, d)
    ensures Justified(due, excused + map d | d in gone :: |events|, events + [e])
  {
    hide Covers;
  }

  lemma ForgottenCovered(gone: set<Entry>)
    ensures forall d :: d in gone ==> Covers(Restart(set g | g in gone :: g.key.conv), d)
  {
  }

  // ---- windows ----

  /** The part of a history after oldest. */
  function Window(posted: seq<Entry>, k: Key, oldest: int): (w: seq<Id>)
    ensures forall id :: id in w <==> Entry(k, id) in posted && id.ts > oldest
  {
    if posted == [] then []
    else
      var rest := Window(posted[..|posted| - 1], k, oldest);
      var last := posted[|posted| - 1];
      assert posted == posted[..|posted| - 1] + [last];
      if last.key == k && last.id.ts > oldest then rest + [last.id] else rest
  }

  function Entries(k: Key, w: seq<Id>): (s: set<Entry>)
    ensures forall d :: d in s <==> d.key == k && d.id in w
  {
    set id | id in w :: Entry(k, id)
  }

  // ---- markers ----

  function Max(current: Option<int>, candidate: int): int {
    if current.Some? && candidate < current.value then current.value else candidate
  }

  function MarkerOf(markers: Markers, k: Key): Option<int> {
    if k in markers then Some(markers[k]) else None
  }

  function Bump(markers: Markers, mark: Mark): Markers {
    var h := History(mark.id.conv);
    var all := markers[h := Max(MarkerOf(markers, h), mark.id.ts)];
    if mark.thread.None? then all
    else
      var t := Thread(mark.id.conv, mark.thread.value);
      all[t := Max(MarkerOf(all, t), mark.id.ts)]
  }

  ghost predicate Below(markers: Markers, d: Entry) {
    d.key in markers ==> markers[d.key] < d.id.ts
  }

  /** The conversation is watched, or a thread of it has a marker. */
  ghost predicate Tracks(watched: set<nat>, markers: Markers, conv: nat) {
    conv in watched || exists k :: k in markers && k.Thread? && k.conv == conv
  }

  /** Outside the given histories, what is due in a conversation has been handed on or is excused. */
  ghost predicate AllHandedOn(due: set<Entry>, handed: set<Id>, excused: set<Entry>, conv: nat, but: set<Key>) {
    forall d :: d in due && d !in excused && d.key.conv == conv && d.key !in but ==> d.id in handed
  }

  lemma HandedOnStays(
      due: set<Entry>, handed: set<Id>, excused: set<Entry>,
      more: set<Entry>, later: set<Id>, spared: set<Entry>, conv: nat, but: set<Key>)
    requires AllHandedOn(due, handed, excused, conv, but) && handed <= later
    requires forall d :: (d in more && d !in due) || (d in excused && d !in spared) ==> d.key in but
    ensures AllHandedOn(more, later, spared, conv, but)
  {
  }

  /** Of what was owed just this was given up, if reading began; else only this history is concerned. */
  ghost predicate GivenUp(
      k: Key, owed: set<Entry>, early: set<Entry>, began: bool, before: set<Entry>, due: set<Entry>, gone: set<Entry>,
      excused: set<Entry>) {
    && (forall d :: d in owed ==> (d in excused <==> began && d in early))
    && (forall d :: d in gone && d !in excused ==> d.key == k)
    && (forall d :: d in due && d !in before ==> d.key == k)
  }

  datatype Envelope = Envelope(id: Id, number: nat)

  /** How much of its window a history's saved cursor has behind it. */
  function Place(continuations: map<Key, Saved>, k: Key): nat {
    if k in continuations then continuations[k].cursor.at else 0
  }

  // ---- how far markers move ----

  /** What the marks of conversations that are not pending do to the markers. */
  function Advance(markers: Markers, all: seq<Mark>, pending: set<nat>): Markers {
    if all == [] then markers
    else
      var before := Advance(markers, all[..|all| - 1], pending);
      var last := all[|all| - 1];
      if last.id.conv in pending then before else Bump(before, last)
  }

  predicate Bears(mark: Mark, k: Key) {
    k == History(mark.id.conv) || (mark.thread.Some? && k == Thread(mark.id.conv, mark.thread.value))
  }

  lemma BumpSets(markers: Markers, mark: Mark)
    ensures var after := Bump(markers, mark);
            && (forall k :: k in markers ==> k in after && after[k] >= markers[k])
            && (forall k :: Bears(mark, k) ==> k in after && after[k] >= mark.id.ts)
            && (forall k :: k in after && !(k in markers && after[k] == markers[k]) ==>
                  Bears(mark, k) && after[k] == mark.id.ts)
  {
  }

  /**
   Only conversations that are not pending have their markers moved, and a marker ends at the
   largest of its own old place and the marks for it.
   */
  lemma {:induction false} AdvanceIsLargest(markers: Markers, all: seq<Mark>, pending: set<nat>)
    ensures var after := Advance(markers, all, pending);
            && (forall k :: k in markers ==> k in after && after[k] >= markers[k])
            && (forall k :: k in after && k.conv in pending ==> k in markers && after[k] == markers[k])
            && (forall m, k :: m in all && m.id.conv !in pending && Bears(m, k) ==> k in after && after[k] >= m.id.ts)
            && (forall k :: k in after && !(k in markers && after[k] == markers[k]) ==>
                  exists m :: m in all && m.id.conv !in pending && Bears(m, k) && m.id.ts == after[k])
    decreases |all|
  {
    if all != [] {
      var rest, last := all[..|all| - 1], all[|all| - 1];
      AdvanceIsLargest(markers, rest, pending);
      assert all == rest + [last];
      var before, after := Advance(markers, rest, pending), Advance(markers, all, pending);
      BumpSets(before, last);
      hide Bump, Max;
      assert forall k :: Bears(last, k) ==> k.conv == last.id.conv;
      forall k | k in after && !(k in markers && after[k] == markers[k])
        ensures exists m :: m in all && m.id.conv !in pending && Bears(m, k) && m.id.ts == after[k]
      {
        if k in before && before[k] == after[k] {
          var m :| m in rest && m.id.conv !in pending && Bears(m, k) && m.id.ts == after[k];
          assert m in all;
        } else {
          assert last in all && Bears(last, k) && last.id.ts == after[k];
        }
      }
    }
  }

  function Threads(markers: Markers): set<Key> {
    set k | k in markers && k.Thread?
  }

  /** The newest threads stay tracked. */
  method CapThreads(markers: Markers) returns (kept: Markers, ghost lost: set<Key>)
    ensures kept == markers - lost && lost <= Threads(markers)
    ensures |Threads(kept)| <= MAX_THREADS && (lost != {} ==> |Threads(kept)| == MAX_THREADS)
    ensures forall k, l :: k in Threads(kept) && l in lost ==> markers[l] <= markers[k]
  {
    var threads := map k | k in markers && k.Thread? :: markers[k];
    var oldest := Excess(threads, MAX_THREADS);
    kept, lost := markers - oldest, oldest;
    assert Threads(kept) == threads.Keys - oldest;
  }

  // ---- what a catch-up has to show since some moment ----

  /** What comes on the socket: a message, with its envelope's number, or what only shows life. */
  datatype Live = Message(id: Id, mail: bool, thread: Option<nat>, number: Option<nat>) | Life

  /** A call for one page of a history; answered is false where it failed or the cursor was refused. */
  datatype Call = Call(key: Key, answered: bool)

  datatype Moment = Moment(
    posted: seq<Entry>, handed: set<Id>, pending: set<nat>, continuations: map<Key, Saved>, markers: Markers,
    events: seq<Event>, calls: seq<Call>)

  /** How many pages of this history were answered from some moment on. */
  function PagesRead(calls: seq<Call>, from: nat, k: Key): nat {
    if |calls| <= from then 0
    else PagesRead(calls[..|calls| - 1], from, k) + if calls[|calls| - 1] == Call(k, true) then 1 else 0
  }

  lemma {:induction false} PagesMore(calls: seq<Call>, later: seq<Call>, from: nat, k: Key)
    requires calls <= later
    ensures PagesRead(calls, from, k) <= PagesRead(later, from, k)
    decreases |later|
  {
    if calls != later {
      PagesMore(calls, later[..|later| - 1], from, k);
    }
  }

  lemma {:induction false} PagesEarlier(calls: seq<Call>, from: nat, later: nat, k: Key)
    requires from <= later
    ensures PagesRead(calls, later, k) <= PagesRead(calls, from, k)
    decreases |calls|
  {
    if |calls| > from {
      PagesEarlier(calls[..|calls| - 1], from, later, k);
    }
  }

  lemma OneMorePage(calls: seq<Call>, a: Call, from: nat, k: Key)
    requires from <= |calls|
    ensures PagesRead(calls + [a], from, k) == PagesRead(calls, from, k) + if a == Call(k, true) then 1 else 0
  {
    assert (calls + [a])[..|calls|] == calls;
  }

  ghost predicate Since(was: Moment, now: Moment, e: Event) {
    exists i :: |was.events| <= i < |now.events| && now.events[i] == e
  }

  /** What the platform held then of a history after some time has been handed on, or is in hand. */
  ghost predicate InRange(was: Moment, k: Key, after: int, done: set<Id>) {
    forall d :: d in was.posted && d.key == k && d.id.ts > after ==> d.id in done
  }

  /** The rest of its window, if one was fixed then; or else all after its marker or a first-run window's start. */
  ghost predicate KeyRead(was: Moment, now: Moment, k: Key, done: set<Id>) {
    if k in was.continuations then
      var c := was.continuations[k].cursor;
      c.at <= |c.window| && forall id :: id in c.window[c.at..] ==> id in done
    else if k in was.markers then InRange(was, k, was.markers[k], done)
    else exists oldest :: Since(was, now, FirstWindow(k, oldest)) && InRange(was, k, oldest, done)
  }

  /** The history was read to its end, or the platform denies it. */
  ghost predicate KeyDone(was: Moment, now: Moment, k: Key) {
    || KeyRead(was, now, k, now.handed)
    || Since(was, now, Denial(k)) || Since(was, now, Denial(History(k.conv)))
  }

  /** A page of the conversation was not answered, or the platform had more than is read at once. */
  ghost predicate Stuck(was: Moment, now: Moment, conv: nat) {
    || (exists i :: |was.calls| <= i < |now.calls| && now.calls[i].key.conv == conv && !now.calls[i].answered)
    || (exists k: Key :: k.conv == conv && PagesRead(now.calls, |was.calls|, k) >= MAX_PAGES)
  }

  /** History and tracked threads were read to the end, or as far as the platform let them be. */
  ghost predicate Attended(was: Moment, now: Moment, conv: nat) {
    || (forall k :: k == History(conv) || (k in was.markers && k.Thread? && k.conv == conv) ==> KeyDone(was, now, k))
    || (conv in now.pending && Stuck(was, now, conv))
  }

  /** Only more was posted, handed on, said and asked. */
  ghost predicate Onward(was: Moment, now: Moment) {
    was.handed <= now.handed && was.events <= now.events && was.calls <= now.calls && was.posted <= now.posted
  }

  predicate SameSaved(was: Moment, now: Moment, k: Key) {
    (k in now.continuations <==> k in was.continuations)
    && (k in was.continuations ==> now.continuations[k] == was.continuations[k])
  }

  /** Of other histories nothing else has changed. */
  ghost predicate KeyOnly(was: Moment, now: Moment, k: Key) {
    && Onward(was, now) && was.markers == now.markers && was.pending == now.pending
    && forall j: Key :: j != k ==> SameSaved(was, now, j)
  }

  /** Of other conversations nothing else has changed. */
  ghost predicate OnlyIn(conv: nat, was: Moment, now: Moment) {
    && Onward(was, now) && was.markers == now.markers
    && (forall c :: c != conv ==> (c in now.pending <==> c in was.pending))
    && (forall k: Key :: k.conv != conv ==> SameSaved(was, now, k))
  }

  /** A call failed since then. */
  ghost predicate SomeFailed(was: Moment, now: Moment) {
    exists i :: |was.calls| <= i < |now.calls| && !now.calls[i].answered
  }

  /** What a catch-up of these conversations has to show: attended to, or pending still where a call failed. */
  ghost predicate CaughtUpSince(was: Moment, now: Moment, convs: set<nat>) {
    && (forall c :: c in convs ==> c in now.pending || Attended(was, now, c))
    && (SomeFailed(was, now) || forall c :: c in convs ==> Attended(was, now, c))
  }

  lemma CaughtUpLater(was: Moment, mid: Moment, now: Moment, convs: set<nat>)
    requires CaughtUpSince(was, mid, convs) && Onward(mid, now) && mid.pending <= now.pending
    ensures CaughtUpSince(was, now, convs)
  {
    hide Attended;
    forall c | c in convs && Attended(was, mid, c) ensures Attended(was, now, c) {
      AttendedLater(was, mid, now, c);
    }
    if SomeFailed(was, mid) {
      var i :| |was.calls| <= i < |mid.calls| && !mid.calls[i].answered;
      assert now.calls[i] == mid.calls[i];
    }
  }

  lemma OnwardOn(a: Moment, b: Moment, c: Moment)
    requires Onward(a, b) && Onward(b, c)
    ensures Onward(a, c)
  {
  }

  lemma LastEvent(was: Moment, now: Moment)
    requires |was.events| < |now.events|
    ensures Since(was, now, now.events[|now.events| - 1])
  {
  }

  lemma LastCall(was: Moment, now: Moment, conv: nat)
    requires |was.calls| < |now.calls|
    requires var c := now.calls[|now.calls| - 1]; c.key.conv == conv && !c.answered
    ensures Stuck(was, now, conv) && SomeFailed(was, now)
  {
  }

  /** These messages are the window from one place on. */
  ghost predicate Walked(found: seq<Id>, w: seq<Id>, at: nat) {
    at + |found| <= |w| && found == w[at..at + |found|]
  }

  lemma WalkOn(found: seq<Id>, w: seq<Id>, at: nat, more: seq<Id>)
    requires Walked(found, w, at) && at + |found| + |more| <= |w|
    requires more == w[at + |found|..at + |found| + |more|]
    ensures Walked(found + more, w, at)
  {
  }

  lemma SinceBetween(was: Moment, mid: Moment, now: Moment)
    requires Onward(was, mid) && Onward(mid, now)
    ensures forall e :: Since(mid, now, e) ==> Since(was, now, e)
    ensures forall e :: Since(was, mid, e) ==> Since(was, now, e)
  {
  }

  lemma KeyReadLater(was: Moment, mid: Moment, now: Moment, k: Key, done: set<Id>, more: set<Id>)
    requires Onward(mid, now) && KeyRead(was, mid, k, done) && done <= more
    ensures KeyRead(was, now, k, more)
  {
    assert forall e :: Since(was, mid, e) ==> Since(was, now, e);
    assert forall after :: InRange(was, k, after, done) ==> InRange(was, k, after, more);
  }

  lemma KeyReadEarlier(was: Moment, mid: Moment, now: Moment, k: Key, done: set<Id>)
    requires Onward(was, mid) && was.markers == mid.markers && SameSaved(was, mid, k) && KeyRead(mid, now, k, done)
    ensures KeyRead(was, now, k, done)
  {
    assert forall e :: Since(mid, now, e) ==> Since(was, now, e);
    assert forall after :: InRange(mid, k, after, done) ==> InRange(was, k, after, done);
  }

  lemma KeyDoneLater(was: Moment, mid: Moment, now: Moment, k: Key)
    requires Onward(mid, now) && KeyDone(was, mid, k)
    ensures KeyDone(was, now, k)
  {
    assert forall e :: Since(was, mid, e) ==> Since(was, now, e);
    if KeyRead(was, mid, k, mid.handed) { KeyReadLater(was, mid, now, k, mid.handed, now.handed); }
  }

  lemma KeyDoneEarlier(was: Moment, mid: Moment, now: Moment, k: Key)
    requires Onward(was, mid) && was.markers == mid.markers && SameSaved(was, mid, k) && KeyDone(mid, now, k)
    ensures KeyDone(was, now, k)
  {
    assert forall e :: Since(mid, now, e) ==> Since(was, now, e);
    if KeyRead(mid, now, k, now.handed) { KeyReadEarlier(was, mid, now, k, now.handed); }
  }

  lemma StuckLater(was: Moment, mid: Moment, now: Moment, conv: nat)
    requires Onward(mid, now) && Stuck(was, mid, conv)
    ensures Stuck(was, now, conv)
  {
    forall k: Key | k.conv == conv
      ensures PagesRead(mid.calls, |was.calls|, k) <= PagesRead(now.calls, |was.calls|, k)
    {
      PagesMore(mid.calls, now.calls, |was.calls|, k);
    }
  }

  lemma StuckEarlier(was: Moment, mid: Moment, now: Moment, conv: nat)
    requires Onward(was, mid) && Stuck(mid, now, conv)
    ensures Stuck(was, now, conv)
  {
    forall k: Key | k.conv == conv
      ensures PagesRead(now.calls, |mid.calls|, k) <= PagesRead(now.calls, |was.calls|, k)
    {
      PagesEarlier(now.calls, |was.calls|, |mid.calls|, k);
    }
  }

  lemma AttendedLater(was: Moment, mid: Moment, now: Moment, conv: nat)
    requires Attended(was, mid, conv) && Onward(mid, now) && (conv in mid.pending ==> conv in now.pending)
    ensures Attended(was, now, conv)
  {
    hide KeyDone, Stuck;
    if conv in mid.pending && Stuck(was, mid, conv) {
      StuckLater(was, mid, now, conv);
    } else {
      forall k | k == History(conv) || (k in was.markers && k.Thread? && k.conv == conv) ensures KeyDone(was, now, k) {
        KeyDoneLater(was, mid, now, k);
      }
    }
  }

  lemma AttendedEarlier(was: Moment, mid: Moment, now: Moment, conv: nat)
    requires Onward(was, mid) && was.markers == mid.markers && Attended(mid, now, conv)
    requires forall k: Key :: k.conv == conv ==> SameSaved(was, mid, k)
    ensures Attended(was, now, conv)
  {
    hide KeyDone, Stuck, SameSaved;
    if conv in now.pending && Stuck(mid, now, conv) {
      StuckEarlier(was, mid, now, conv);
    } else {
      forall k | k == History(conv) || (k in was.markers && k.Thread? && k.conv == conv) ensures KeyDone(was, now, k) {
        KeyDoneEarlier(was, mid, now, k);
      }
    }
  }

  class Slack {
    /** The conversations the allowlist names. */
    const watched: set<nat>
    /** No call fails, the connection stays, and the poller gets through. */
    const quiet: bool

    // what has been posted, and the clock
    var posted: seq<Entry>
    var now: int

    // the adapter's memory
    var open: bool
    var queue: seq<Id>
    var inflight: seq<Id>
    var seen: set<Id>
    var staged: seq<Id>
    var marks: map<Id, Mark>
    var droppedMarks: seq<Mark>
    var held: seq<Mark>
    var pending: set<nat>
    var continuations: map<Key, Saved>
    // envelopes of live events: waiting for their message, to be acknowledged, and acknowledged
    var envelopes: set<Envelope>
    var answerable: set<Envelope>
    var answered: set<Envelope>
    // the markers in memory and on disk
    var markers: Markers
    var saved: Markers

    /** The calls made for pages, how many of them raised, and how each connect went. */
    ghost var calls: seq<Call>
    ghost var thrown: nat
    ghost var dials: seq<bool>
    /** What came on the socket, and how often it was polled. */
    ghost var frames: seq<Live>
    ghost var polls: nat
    /** Whether this process has listed the conversations to catch up. */
    ghost var listed: bool
    /** What has happened that excuses the adapter from messages. */
    ghost var events: seq<Event>
    /** Every message some window held, with how much had happened when it last was in one. */
    ghost var due: map<Entry, nat>
    /** Messages the poller acked, or the adapter dropped as no mail. */
    ghost var settled: set<Id>
    /** Messages given up, each with the event that it was given up for. */
    ghost var excused: map<Entry, nat>
    /** Messages queued or dropped by this process. */
    ghost var handed: set<Id>

    ghost predicate Owes(d: Entry)
      reads `due, `settled, `excused
    {
      d in due && d.id !in settled && d !in excused
    }

    ghost predicate ExcusesReal()
      reads `due, `excused, `events
    {
      Justified(due, excused, events)
    }

    /** No marker has reached a message that is owed. */
    ghost predicate NothingPassed()
      reads `due, `settled, `excused, `markers
    {
      forall d :: Owes(d) ==> Below(markers, d)
    }

    /** Away from the conversations still being caught up, every owed message has been handed on. */
    ghost predicate CaughtUp()
      reads `due, `settled, `excused, `markers, `listed, `open, `pending, `handed
    {
      if listed then forall d :: Owes(d) && d.key.conv !in pending ==> d.id in handed
      else !open && pending == {} && forall d :: Owes(d) ==> Tracks(watched, markers, d.key.conv)
    }

    /** What was handed on and is not settled will be returned to the poller, or is with it. */
    ghost predicate NothingDropped()
      reads `handed, `settled, `queue, `inflight
    {
      forall id :: id in handed && id !in settled ==> id in queue || id in inflight
    }

    /** A message owed in a history with a saved cursor was handed on, is in hand, or lies beyond the cursor. */
    ghost predicate CursorsHold(inHand: set<Id>)
      reads `due, `settled, `excused, `continuations, `handed
    {
      forall k :: k in continuations ==> CursorHolds(k, continuations[k].cursor, inHand)
    }

    ghost predicate CursorHolds(k: Key, c: Cursor, inHand: set<Id>)
      reads `due, `settled, `excused, `handed
    {
      && c.at <= |c.window|
      && forall d :: Owes(d) && d.key == k && d.id !in handed && d.id !in inHand ==> d.id in c.window[c.at..]
    }

    ghost predicate EntriesReal()
      reads `due, `settled, `excused, `posted, `markers
    {
      && (forall d :: d in posted ==> d.key.conv == d.id.conv)
      && (forall d :: Owes(d) ==> d in posted && (d.key.Thread? ==> d.key in markers))
    }

    /** Marks and envelopes to be sent are of settled messages. */
    ghost predicate MarksReal()
      reads `settled, `marks, `held, `droppedMarks, `staged, `answerable, `answered
    {
      && (forall id :: id in marks ==> marks[id].id == id)
      && (forall m :: m in held ==> m.id in settled)
      && (forall m :: m in droppedMarks ==> m.id in settled)
      && (forall id :: id in staged ==> id in settled)
      && (forall e :: e in answerable ==> e.id in settled)
      && (forall e :: e in answered ==> e.id in settled)
    }

    /** inHand are messages a read has returned and the adapter has still to hand on. */
    ghost predicate Holding(inHand: set<Id>)
      reads `due, `settled, `excused, `posted, `markers, `marks, `held, `droppedMarks, `staged, `answerable, `answered
      reads `listed, `open, `pending, `handed, `queue, `inflight, `continuations, `events, `saved
    {
      && EntriesReal() && MarksReal() && ExcusesReal() && NothingPassed() && CaughtUp() && NothingDropped()
      && CursorsHold(inHand) && saved == markers
    }

    /** Handing on, settling and excusing messages keep what is said of those still owed. */
    twostate lemma OwingLess(inHand: set<Id>)
      requires old(NothingPassed() && CaughtUp() && CursorsHold(inHand))
      requires markers == old(markers) && pending == old(pending) && continuations == old(continuations)
      requires listed == old(listed) && (listed || open == old(open))
      requires forall d :: Owes(d) ==> old(Owes(d))
      requires old(handed) <= handed
      ensures NothingPassed() && CaughtUp() && CursorsHold(inHand)
    {
      hide Below;
      assert CursorsHold(inHand) by {
        forall k | k in continuations ensures CursorHolds(k, continuations[k].cursor, inHand) {
          assert old(CursorHolds(k, continuations[k].cursor, inHand));
        }
      }
    }

    ghost predicate Valid()
      reads `due, `settled, `excused, `posted, `markers, `marks, `held, `droppedMarks, `staged, `answerable, `answered
      reads `listed, `open, `pending, `handed, `queue, `inflight, `continuations, `events, `saved
    {
      Holding({})
    }

    /** What a new process relies on: it holds at every moment, and also after a write that failed. */
    ghost predicate Resumable()
      reads `due, `settled, `excused, `posted, `saved, `answered, `events
    {
      && ExcusesReal()
      && (forall d :: d in posted ==> d.key.conv == d.id.conv)
      && (forall d :: Owes(d) ==> d in posted && (d.key.Thread? ==> d.key in saved) && Below(saved, d))
      && (forall e :: e in answered ==> e.id in settled)
    }

    lemma HoldingIsResumable(inHand: set<Id>)
      requires Holding(inHand)
      ensures Resumable()
    {
      hide Below, Covers;
    }

    constructor (watched: set<nat>, now: int, quiet: bool)
      ensures Valid() && this.watched == watched && this.now == now && posted == [] && markers == map[]
      ensures !open && queue == [] && inflight == [] && seen == {} && staged == [] && marks == map[] && held == []
      ensures droppedMarks == [] && pending == {} && continuations == map[] && envelopes == {} && answerable == {}
      ensures !listed && events == [] && due == map[] && settled == {} && excused == map[] && handed == {}
      ensures calls == [] && thrown == 0 && dials == [] && frames == [] && polls == 0 && this.quiet == quiet
    {
      this.watched, this.now, this.quiet, posted, markers, saved := watched, now, quiet, [], map[], map[];
      open, queue, inflight, seen, staged, marks, droppedMarks, held := false, [], [], {}, [], map[], [], [];
      pending, continuations, envelopes, answerable, answered := {}, map[], {}, {}, {};
      listed, events, due, settled, excused, handed := false, [], map[], {}, map[], {};
      calls, thrown, dials, frames, polls := [], 0, [], [], 0;
    }

    /**
     A new process: only the markers on disk, and the letters written, are left of the one before. It
     gives up just what is owed in conversations that these markers and the allowlist do not name.
     */
    constructor Resume(dead: Slack)
      requires dead.Resumable()
      ensures Valid() && markers == dead.saved && due == dead.due && settled == dead.settled && watched == dead.watched
      ensures quiet == dead.quiet
      ensures Continues(dead.Past(), Past())
      ensures forall d :: d in excused && d !in dead.excused <==>
                dead.Owes(d) && !Tracks(dead.watched, dead.saved, d.key.conv)
    {
      watched, now, posted, markers, saved := dead.watched, dead.now, dead.posted, dead.saved, dead.saved;
      open, queue, inflight, seen, staged, marks, droppedMarks, held := false, [], [], {}, [], map[], [], [];
      pending, continuations, envelopes, answerable, answered := {}, map[], {}, {}, dead.answered;
      listed, due, settled, handed := false, dead.due, dead.settled, {};
      calls, thrown, dials, frames, polls, quiet := [], 0, [], [], 0, dead.quiet;
      ghost var gone := set d | d in dead.due && dead.Owes(d) && !Tracks(dead.watched, dead.saved, d.key.conv);
      ghost var restart := Restart(set g | g in gone :: g.key.conv);
      events := dead.events + [restart];
      excused := dead.excused + map d | d in gone :: |dead.events|;
      new;
      hide Valid, Resumable, Tracks, Owes;
      Resumed(dead, gone);
    }

    /** Nothing is listed yet, and what is still owed was owed before. */
    lemma Resumed(dead: Slack, gone: set<Entry>)
      requires dead.Resumable() && watched == dead.watched && markers == saved == dead.saved && posted == dead.posted
      requires due == dead.due && settled == dead.settled && answered == dead.answered && !listed && !open
      requires queue == inflight == staged == [] && droppedMarks == held == [] && handed == {} && answerable == {}
      requires marks == map[] && continuations == map[] && pending == {}
      requires forall d :: d in gone <==> dead.Owes(d) && !Tracks(watched, saved, d.key.conv)
      requires excused == dead.excused + map d | d in gone :: |dead.events|
      requires events == dead.events + [Restart(set g | g in gone :: g.key.conv)]
      ensures Valid() && Kept(dead.excused, excused)
      ensures forall d :: d in excused && d !in dead.excused <==> d in gone
    {
      hide Justified, Below, Tracks, Covers;
      ForgottenCovered(gone);
      ExcuseMore(dead.due, dead.excused, dead.events, Restart(set g | g in gone :: g.key.conv), gone);
      assert forall d :: Owes(d) <==> dead.Owes(d) && d !in gone;
    }

    ghost method Note(e: Event, inHand: set<Id>)
      requires Holding(inHand)
      modifies `events
      ensures Holding(inHand) && events == old(events) + [e] && forall d :: d in due ==> due[d] < |events|
    {
      hide NothingPassed, CaughtUp, CursorsHold, NothingDropped, EntriesReal, MarksReal, Covers;
      events := events + [e];
    }

    /** The last event excuses the adapter from these messages. */
    ghost method Excuse(more: set<Entry>, inHand: set<Id>)
      requires Holding(inHand) && events != []
      requires forall d :: d in more ==> Owes(d) && due[d] < |events| && Covers(events[|events| - 1], d)
      modifies `excused
      ensures Holding(inHand) && Kept(old(excused), excused) && excused.Keys == old(excused).Keys + more
    {
      hide NothingPassed, CaughtUp, CursorsHold, NothingDropped, Covers;
      excused := excused + map d | d in more :: |events| - 1;
      OwingLess(inHand);
    }

    method Pass(more: seq<Entry>, later: int, ghost inHand: set<Id>)
      requires Holding(inHand) && later >= now && forall d :: d in more ==> d.key.conv == d.id.conv
      modifies `posted, `now
      ensures Holding(inHand) && posted == old(posted) + more && now == later
    {
      posted, now := posted + more, later;
    }

    /** Time passes, and messages are posted. */
    method Elapse(ghost inHand: set<Id>)
      requires Holding(inHand)
      modifies `posted, `now
      ensures Holding(inHand) && old(posted) <= posted && now >= old(now)
    {
      hide Holding;
      var more: seq<Entry> := *;
      var later: int := *;
      if later >= now && forall i :: 0 <= i < |more| ==> more[i].key.conv == more[i].id.conv {
        Pass(more, later, inHand);
      }
    }

    ghost method Settle(id: Id, inHand: set<Id>)
      requires Holding(inHand)
      modifies `settled
      ensures Holding(inHand) && settled == old(settled) + {id}
    {
      hide ExcusesReal, NothingPassed, CaughtUp, CursorsHold;
      settled := settled + {id};
      OwingLess(inHand);
    }

    ghost method Hand(id: Id, inHand: set<Id>)
      requires Holding(inHand) && (id in settled || id in queue)
      modifies `handed
      ensures Holding(inHand) && handed == old(handed) + {id}
    {
      hide ExcusesReal, NothingPassed, CaughtUp, CursorsHold, MarksReal, EntriesReal;
      handed := handed + {id};
      OwingLess(inHand);
    }

    /** No mail: settled at once, its mark and envelope kept for the next confirm. */
    method Drop(id: Id, mark: Option<Mark>, envelope: Option<Envelope>, ghost inHand: set<Id>)
      requires Holding(inHand)
      requires (mark.Some? ==> mark.value.id == id) && (envelope.Some? ==> envelope.value.id == id)
      modifies `droppedMarks, `answerable, `settled
      ensures Holding(inHand) && settled == old(settled) + {id}
      ensures droppedMarks == old(droppedMarks) + if mark.Some? then [mark.value] else []
      ensures answerable == old(answerable) + if envelope.Some? then {envelope.value} else {}
    {
      hide Holding;
      Settle(id, inHand);
      Discard(id, mark, envelope, inHand);
    }

    method Discard(id: Id, mark: Option<Mark>, envelope: Option<Envelope>, ghost inHand: set<Id>)
      requires Holding(inHand) && id in settled
      requires (mark.Some? ==> mark.value.id == id) && (envelope.Some? ==> envelope.value.id == id)
      modifies `droppedMarks, `answerable
      ensures Holding(inHand)
      ensures droppedMarks == old(droppedMarks) + if mark.Some? then [mark.value] else []
      ensures answerable == old(answerable) + if envelope.Some? then {envelope.value} else {}
    {
      hide ExcusesReal, NothingPassed, CaughtUp, CursorsHold, EntriesReal, NothingDropped;
      answerable := answerable + if envelope.Some? then {envelope.value} else {};
      droppedMarks := droppedMarks + if mark.Some? then [mark.value] else [];
    }

    /** Mail waits in the queue, once in each fetch. */
    method Enqueue(id: Id, mark: Option<Mark>, envelope: Option<Envelope>, ghost inHand: set<Id>)
      requires Holding(inHand) && seen <= Elements(queue)
      requires (mark.Some? ==> mark.value.id == id) && (envelope.Some? ==> envelope.value.id == id)
      modifies `queue, `seen, `marks, `envelopes
      ensures Holding(inHand) && seen <= Elements(queue) && id in queue
      ensures queue == old(queue) + (if id in old(seen) then [] else [id]) && seen == old(seen) + {id}
      ensures marks == if mark.Some? then old(marks)[id := mark.value] else old(marks)
      ensures envelopes == old(envelopes) + if envelope.Some? then {envelope.value} else {}
    {
      NoteMark(id, mark, inHand);
      hide Holding, Elements;
      envelopes := if envelope.Some? then envelopes + {envelope.value} else envelopes;
      Push(id, inHand);
    }

    method Push(id: Id, ghost inHand: set<Id>)
      requires Holding(inHand) && seen <= Elements(queue)
      modifies `queue, `seen
      ensures Holding(inHand) && seen <= Elements(queue) && id in queue
      ensures queue == old(queue) + (if id in old(seen) then [] else [id]) && seen == old(seen) + {id}
    {
      hide ExcusesReal, NothingPassed, CaughtUp, CursorsHold, EntriesReal, MarksReal;
      if id !in seen {
        seen := seen + {id};
        queue := queue + [id];
      }
    }

    method NoteMark(id: Id, mark: Option<Mark>, ghost inHand: set<Id>)
      requires Holding(inHand) && (mark.Some? ==> mark.value.id == id)
      modifies `marks
      ensures Holding(inHand) && marks == if mark.Some? then old(marks)[id := mark.value] else old(marks)
    {
      hide ExcusesReal, NothingPassed, CaughtUp, CursorsHold, EntriesReal, NothingDropped;
      marks := if mark.Some? then marks[id := mark.value] else marks;
    }

    /** One message read, from a history or live. */
    method Remember(id: Id, mail: bool, mark: Option<Mark>, envelope: Option<Envelope>, ghost inHand: set<Id>)
      requires Holding(inHand) && seen <= Elements(queue)
      requires (mark.Some? ==> mark.value.id == id) && (envelope.Some? ==> envelope.value.id == id)
      modifies `queue, `seen, `marks, `droppedMarks, `envelopes, `answerable, `handed, `settled
      ensures Holding(inHand) && seen <= Elements(queue)
      ensures handed == old(handed) + {id}
      ensures mail ==> settled == old(settled) && id in queue
      ensures mail ==> queue == old(queue) + (if id in old(seen) then [] else [id]) && seen == old(seen) + {id}
      ensures mail ==> marks == (if mark.Some? then old(marks)[id := mark.value] else old(marks))
      ensures mail ==> droppedMarks == old(droppedMarks) && answerable == old(answerable)
      ensures !mail ==> settled == old(settled) + {id} && queue == old(queue) && seen == old(seen)
      ensures !mail ==> marks == old(marks) && envelopes == old(envelopes)
      ensures mail ==> envelopes == old(envelopes) + if envelope.Some? then {envelope.value} else {}
      ensures !mail ==> answerable == old(answerable) + if envelope.Some? then {envelope.value} else {}
      ensures !mail ==> droppedMarks == old(droppedMarks) + if mark.Some? then [mark.value] else []
    {
      hide Holding;
      if mail {
        Enqueue(id, mark, envelope, inHand);
      } else {
        Drop(id, mark, envelope, inHand);
      }
      Hand(id, inHand);
    }

    /**
     One page of a history. Without a cursor the platform fixes the window to be read; with one
     it goes on in the window the cursor stands for.
     */
    method Ask(k: Key, oldest: int, cursor: Option<Cursor>, ghost inHand: set<Id>)
      returns (r: Reply, ghost w: seq<Id>)
      requires Holding(inHand) && (cursor.Some? ==> cursor.value.at <= |cursor.value.window|)
      modifies `posted, `now, `events, `calls, `thrown
      ensures Holding(inHand) && now >= old(now) && old(posted) <= posted
      ensures calls == old(calls) + [Call(k, r.Page? || r.Denied?)]
      ensures thrown == old(thrown) + (if r.Error? then 1 else 0) && (quiet ==> r.Page? || r.Denied?)
      ensures events == old(events) + if r == Denied then [Denial(k)] else []
      ensures r == Denied ==> JustDenied(k)
      ensures r.Page? ==> w == if cursor.Some? then cursor.value.window else Window(posted, k, oldest)
      ensures r.Page? ==> var at := if cursor.Some? then cursor.value.at else 0;
                          var end := at + |r.messages|;
                          && end <= |w| && r.messages == w[at..end]
                          && if r.next.Some? then r.next.value == Cursor(w, end) else end == |w|
    {
      hide Holding;
      Elapse(inHand);
      w := [];
      if {
        case !quiet => r := NoAnswer;
        case true =>
          Note(Denial(k), inHand);
          r := Denied;
        case !quiet => r := BadCursor;
        case !quiet => r := Error;
        case true =>
          var window := if cursor.Some? then cursor.value.window else Window(posted, k, oldest);
          var at := if cursor.Some? then cursor.value.at else 0;
          var end: int := *;
          var last: bool := *;
          if !(at <= end <= |window|) { end := |window|; }
          r, w := Page(window[at..end], if end == |window| && last then None else Some(Cursor(window, end))), window;
      }
      calls := calls + [Call(k, r.Page? || r.Denied?)];
      if r.Error? { thrown := thrown + 1; }
    }

    ghost function Owed(): (s: set<Entry>)
      reads `due, `settled, `excused
      ensures forall d :: d in s <==> Owes(d)
    {
      set d | d in due && Owes(d)
    }

    /** What is owed in this history from before a first-run window that begins here. */
    ghost function Early(k: Key, oldest: int): (s: set<Entry>)
      reads `due, `excused, `settled, `markers
      ensures forall d :: d in s <==> Owes(d) && d.key == k && k !in markers && d.id.ts <= oldest
    {
      set d | d in due && Owes(d) && d.key == k && k !in markers && d.id.ts <= oldest
    }

    lemma WindowIsDue(k: Key, w: seq<Id>, oldest: int)
      requires EntriesReal() && NothingPassed() && w == Window(posted, k, oldest)
      requires (k in markers ==> oldest == markers[k]) && (k.Thread? ==> k in markers)
      ensures forall d :: Owes(d) && d.key == k ==> d.id in w || d in Early(k, oldest)
      ensures Entries(k, w) !! Early(k, oldest)
      ensures k !in continuations && k.conv in pending ==> Readable(Entries(k, w))
    {
    }

    ghost method GiveUp(k: Key, oldest: int)
      requires Valid()
      modifies `excused, `events
      ensures Valid() && events == old(events) + if k in markers then [] else [FirstWindow(k, oldest)]
      ensures Kept(old(excused), excused) && excused.Keys == old(excused).Keys + old(Early(k, oldest))
      ensures Continues(old(Past()), Past())
    {
      hide Holding;
      if k !in markers {
        ghost var none: set<Id> := {};
        Note(FirstWindow(k, oldest), none);
        Excuse(Early(k, oldest), none);
      }
    }

    /** What falls due, or falls due again, is owed whatever happened before. */
    lemma DueMore(more: set<Entry>)
      requires ExcusesReal() && more !! excused.Keys
      ensures Justified(due + map d | d in more :: |events|, excused, events)
      ensures Continues(Past(), Log(events, due + map d | d in more :: |events|, settled))
    {
      hide Covers;
    }

    /** These messages can be read: nothing has passed them, and their history is being read from the start. */
    ghost predicate Readable(more: set<Entry>)
      reads `posted, `markers, `pending, `continuations
    {
      forall d :: d in more ==>
        && d in posted && Below(markers, d) && (d.key.Thread? ==> d.key in markers)
        && d.key !in continuations && d.key.conv in pending
    }

    ghost method Restore(more: set<Entry>)
      requires Valid() && listed && Readable(more)
      modifies `excused
      ensures Valid() && excused == old(excused) - more
    {
      hide MarksReal, NothingDropped, CaughtUp, CursorsHold, NothingPassed, Below, Covers;
      excused := excused - more;
      OwingMore({});
    }

    ghost method Fall(more: set<Entry>)
      requires Valid() && listed && Readable(more) && more !! excused.Keys
      modifies `due
      ensures Valid() && Continues(old(Past()), Past()) && due.Keys == old(due).Keys + more
    {
      hide MarksReal, NothingDropped, CaughtUp, CursorsHold, NothingPassed, Justified, Below, Continues;
      DueMore(more);
      due := due + map d | d in more :: |events|;
      OwingMore({});
    }

    /**
     A window fixed afresh, and everything in it is owed, whatever was given up before. A first-run
     window is counted back from the clock, so one that begins again can begin later than before: of
     what is owed just that from before a window without a marker is given up.
     */
    ghost method Begin(k: Key, w: seq<Id>, oldest: int)
      requires Holding({}) && k !in continuations && k.conv in pending && listed
      requires w == Window(posted, k, oldest)
      requires (k in markers ==> oldest == markers[k]) && (k.Thread? ==> k in markers)
      modifies `due, `excused, `events
      ensures Holding({})
      ensures events == old(events) + if k in markers then [] else [FirstWindow(k, oldest)]
      ensures Continues(old(Past()), Past()) && due.Keys == old(due).Keys + Entries(k, w)
      ensures excused.Keys == old(excused).Keys + old(Early(k, oldest)) - Entries(k, w)
      ensures forall d :: old(Owes(d)) ==> (d in excused <==> d.key == k && k !in markers && d.id.ts <= oldest)
      ensures forall d :: Owes(d) && d.key == k ==> d.id in w
    {
      ValidIsHolding();
      OwedNotExcused();
      WindowIsDue(k, w, oldest);
      hide Holding, Valid, Window, Below, Early;
      hide Continues;
      GiveUp(k, oldest);
      ghost var more := Entries(k, w);
      Restore(more);
      ghost var before := Past();
      Fall(more);
      ContinuesOn(old(Past()), before, Past());
      ValidIsHolding();
    }

    twostate lemma OwingMore(inHand: set<Id>)
      requires old(NothingPassed() && CaughtUp() && CursorsHold(inHand))
      requires markers == old(markers) && pending == old(pending) && continuations == old(continuations)
      requires listed && old(listed)
      requires handed == old(handed)
      requires forall d :: Owes(d) ==>
                 old(Owes(d)) || (d.key !in continuations && d.key.conv in pending && Below(markers, d))
      ensures NothingPassed() && CaughtUp() && CursorsHold(inHand)
    {
      hide Below;
      assert CursorsHold(inHand) by {
        forall j | j in continuations ensures CursorHolds(j, continuations[j].cursor, inHand) {
          assert old(CursorHolds(j, continuations[j].cursor, inHand));
        }
      }
    }

    lemma InHandGrows(a: set<Id>, b: set<Id>)
      requires Holding(a) && a <= b
      ensures Holding(b)
    {
      hide ExcusesReal, NothingPassed, CaughtUp, NothingDropped, EntriesReal, MarksReal;
      forall k | k in continuations ensures CursorHolds(k, continuations[k].cursor, b) {
        assert CursorHolds(k, continuations[k].cursor, a);
      }
    }

    lemma AllHanded(inHand: set<Id>)
      requires Holding(inHand) && inHand <= handed
      ensures Valid()
    {
      hide ExcusesReal, NothingPassed, CaughtUp, NothingDropped, EntriesReal, MarksReal;
      forall k | k in continuations ensures CursorHolds(k, continuations[k].cursor, {}) {
        assert CursorHolds(k, continuations[k].cursor, inHand);
      }
    }

    ghost predicate Found(k: Key, found: seq<Id>)
      reads `due, `settled, `excused, `handed
    {
      forall d :: Owes(d) && d.key == k && d.id !in handed ==> d.id in found
    }

    method Forget(k: Key)
      requires Valid()
      modifies `continuations
      ensures Valid() && continuations == old(continuations) - {k}
    {
      hide ExcusesReal, NothingPassed, CaughtUp, NothingDropped, EntriesReal, MarksReal;
      continuations := continuations - {k};
      forall j | j in continuations ensures CursorHolds(j, continuations[j].cursor, {}) {
        assert old(CursorHolds(j, continuations[j].cursor, {}));
      }
    }

    method Save(k: Key, saved: Saved, ghost inHand: set<Id>)
      requires Holding(inHand) && CursorHolds(k, saved.cursor, inHand)
      modifies `continuations
      ensures Holding(inHand) && continuations == old(continuations)[k := saved]
    {
      hide ExcusesReal, NothingPassed, CaughtUp, NothingDropped, EntriesReal, MarksReal;
      continuations := continuations[k := saved];
      forall j | j in continuations ensures CursorHolds(j, continuations[j].cursor, inHand) {
        assert j != k ==> old(CursorHolds(j, continuations[j].cursor, inHand));
        assert j == k ==> old(CursorHolds(j, saved.cursor, inHand));
      }
    }

    /** The rest of a window after one more page. */
    lemma PageTurns(k: Key, c: Cursor, found: seq<Id>, messages: seq<Id>)
      requires CursorHolds(k, c, Elements(found))
      requires c.at + |messages| <= |c.window| && messages == c.window[c.at..c.at + |messages|]
      ensures CursorHolds(k, Cursor(c.window, c.at + |messages|), Elements(found + messages))
    {
      var rest := c.window[c.at + |messages|..];
      assert c.window[c.at..] == messages + rest;
      forall d | Owes(d) && d.key == k && d.id !in handed && d.id !in Elements(found + messages) ensures d.id in rest {
        assert d.id in c.window[c.at..];
      }
    }

    ghost function Now(): Moment
      reads `posted, `handed, `pending, `continuations, `markers, `events, `calls
    {
      Moment(posted, handed, pending, continuations, markers, events, calls)
    }

    ghost function Past(): Log
      reads `due, `settled, `events
    {
      Log(events, due, settled)
    }

    lemma OwedNotExcused()
      ensures forall d :: Owes(d) ==> d !in excused
    {
    }

    ghost predicate JustDenied(k: Key)
      reads `due, `events
    {
      events != [] && events[|events| - 1] == Denial(k) && forall d :: d in due ==> due[d] < |events|
    }

    method NextPage(k: Key, oldest: int, cursor: Option<Cursor>, ghost found: seq<Id>) 
      returns (r: Reply, ghost w: seq<Id>)
      requires Valid() && listed && k.conv in pending
      requires cursor.Some? ==> CursorHolds(k, cursor.value, Elements(found))
      requires cursor.None? ==> found == [] && k !in continuations
      requires cursor.None? ==> if k in markers then oldest == markers[k] else k.History?
      modifies `posted, `now, `due, `excused, `events, `calls, `thrown
      ensures Valid()
      ensures r.Page? && r.next.Some? ==> CursorHolds(k, r.next.value, Elements(found + r.messages))
      ensures r.Page? && r.next.None? ==> Found(k, found + r.messages)
      ensures r.Page? && r.next.Some? ==>
                r.next.value.at == (if cursor.Some? then cursor.value.at else 0) + |r.messages|
      ensures r.Page? && r.next.Some? && cursor.Some? ==> r.next.value.window == cursor.value.window
      ensures cursor.Some? ==> due == old(due) && excused == old(excused)
      ensures forall d :: old(Owes(d)) ==> (d in excused <==> r.Page? && cursor.None? && d in old(Early(k, oldest)))
      ensures forall d :: d in old(excused) && d !in excused ==> d.key == k
      ensures Continues(old(Past()), Past()) && (r == Denied ==> JustDenied(k))
      ensures forall d :: d in due && d !in old(due) ==> d.key == k
      ensures old(posted) <= posted && old(events) <= events && calls == old(calls) + [Call(k, r.Page? || r.Denied?)]
      ensures r.Page? ==> var at := if cursor.Some? then cursor.value.at else 0;
                          var end := at + |r.messages|;
                          && end <= |w| && r.messages == w[at..end]
                          && if r.next.Some? then r.next.value == Cursor(w, end) else end == |w|
      ensures r.Page? && cursor.Some? ==> w == cursor.value.window
      ensures r == Denied ==> events == old(events) + [Denial(k)]
      ensures r.Page? && cursor.None? ==> forall d :: d in old(posted) && d.key == k && d.id.ts > oldest ==> d.id in w
      ensures r.Page? && cursor.None? && k !in markers ==> events == old(events) + [FirstWindow(k, oldest)]
      ensures thrown == old(thrown) + (if r.Error? then 1 else 0) && (quiet ==> r.Page? || r.Denied?)
    {
      hide Valid, Holding, CursorHolds, Owes, Found, Elements, Window, Entries, Early;
      OwedNotExcused();
      NothingInHand();
      ValidIsHolding();
      if cursor.Some? { CursorInWindow(k, cursor.value, Elements(found)); }
      r, w := Ask(k, oldest, cursor, {});
      if r.Page? {
        if cursor.None? {
          Begin(k, w, oldest);
          Began(k, w);
          assert found == [];
        }
        var at := if cursor.Some? then cursor.value.at else 0;
        PageTurns(k, Cursor(w, at), found, r.messages);
        if r.next.None? { LastPage(k, w, found + r.messages); }
      }
      ValidIsHolding();
    }

    /**
     One history, at most MAX_PAGES pages a cycle. Done means that every message owed in it has
     been handed on or is among those returned; a failed read returns nothing and keeps the place
     it had reached before.
     */
    method AllPages(k: Key, oldest: int) returns (status: Status, found: seq<Id>, ghost began: bool)
      requires Valid() && listed && k.conv in pending
      requires if k in markers then oldest == markers[k] else k.History?
      modifies `posted, `now, `continuations, `due, `excused, `events, `calls, `thrown
      ensures Holding(Elements(found))
      ensures status == Done ==> Found(k, found)
      ensures status != Done && status != Partial ==> found == []
      ensures status == Partial ==>
                k in continuations && continuations[k].cursor.at == Place(old(continuations), k) + |found|
      ensures status == Partial && k in old(continuations) ==>
                continuations[k].cursor.window == old(continuations)[k].cursor.window
      ensures status != Partial ==> continuations == old(continuations) || continuations == old(continuations) - {k}
      ensures status == Done || status == Skip ==> k !in continuations
      ensures Continues(old(Past()), Past()) && (status == Skip ==> JustDenied(k))
      ensures began ==> k !in old(continuations)
      ensures GivenUp(k, old(Owed()), old(Early(k, oldest)), began,
                old(due).Keys, due.Keys, old(excused).Keys, excused.Keys)
      ensures Onward(old(Now()), Now()) && continuations - {k} == old(continuations) - {k}
      ensures status == Done ==> KeyRead(old(Now()), Now(), k, Elements(found))
      ensures status == Skip ==> Since(old(Now()), Now(), Denial(k))
      ensures status != Done && status != Skip ==> Stuck(old(Now()), Now(), k.conv)
      ensures status == Raised ==> SomeFailed(old(Now()), Now())
      ensures thrown == old(thrown) + (if status == Raised then 1 else 0)
      ensures quiet ==> status == Done || status == Skip || status == Partial
    {
      hide Holding, CursorHolds, Owes, Found, Continues, Elements, JustDenied, Early, RunSoFar, KeyRead;
      hide Stuck, Since, Onward, SomeFailed;
      hide Past, Window, GivenUp, Owed;
      NothingInHand();
      ValidIsHolding();
      var resumed := if k in continuations then Some(continuations[k]) else None;
      var cursor := if resumed.Some? then Some(resumed.value.cursor) else None;
      var start := if resumed.Some? then resumed.value.oldest else oldest;
      SavedHolds(k);
      if cursor.Some? { CursorInWindow(k, cursor.value, {}); }
      RunBegins(Now(), k, oldest, cursor);
      var r;
      r, cursor, found, began := Walk(k, start, cursor, Now(), oldest);
      ghost var mid := Now();
      ValidIsHolding();
      if !r.Page? {
        status := EndRun(r, k);
        found := [];
        ValidIsHolding();
      } else {
        EndsWith(k, r.next, start, found);
        status := if r.next.None? then Done else Partial;
      }
      SaidStill(old(Now()), mid, Now(), k);
    }

    /** The pages of a run, one after the other, until there is no more, or enough, or no page. */
    method Walk(k: Key, start: int, first: Option<Cursor>, ghost was: Moment, ghost oldest: int)
      returns (r: Reply, cursor: Option<Cursor>, found: seq<Id>, ghost began: bool)
      requires Valid() && listed && k.conv in pending && was == Now()
      requires first == if k in continuations then Some(continuations[k].cursor) else None
      requires first.Some? ==> CursorHolds(k, first.value, {})
      requires first.None? ==> start == oldest && if k in markers then oldest == markers[k] else k.History?
      requires RunSoFar(was, Now(), k, oldest, first, [], 0) && (k in markers ==> oldest == markers[k])
      modifies `posted, `now, `due, `excused, `events, `calls, `thrown
      ensures Valid() && Continues(old(Past()), Past()) && Onward(was, Now())
      ensures GivenUp(k, old(Owed()), old(Early(k, oldest)), began,
                old(due).Keys, due.Keys, old(excused).Keys, excused.Keys)
      ensures began ==> first.None?
      ensures if r.Denied? then JustDenied(k) && Since(was, Now(), Denial(k))
              else r.Page? && r.next.None? ==> Found(k, found) && KeyRead(was, Now(), k, Elements(found))
      ensures r.Page? && r.next.Some? ==>
                CursorHolds(k, r.next.value, Elements(found)) && RunStops(was, k, found, r.next)
      ensures !(r.Denied? || (r.Page? && r.next.None?)) ==> Stuck(was, Now(), k.conv)
      ensures r.Error? ==> SomeFailed(was, Now())
      ensures thrown == old(thrown) + (if r.Error? then 1 else 0) && (quiet ==> r.Page? || r.Denied?)
    {
      hide Valid, CursorHolds, Owes, Found, Continues, Elements, JustDenied, Early, RunSoFar, KeyRead, Stuck;
      hide Since, Onward, SomeFailed;
      hide Past, GivenUp, Owed, RunStops;
      cursor, found, began := first, [], false;
      NothingInHand();
      Unchanged();
      NothingGivenUp(k, oldest);
      assert was.markers == markers;
      hide Now;
      r := NoAnswer;
      for page := 0 to MAX_PAGES
        invariant Valid() && listed && k.conv in pending && Continues(old(Past()), Past())
        invariant cursor.Some? ==> CursorHolds(k, cursor.value, Elements(found))
        invariant cursor.None? ==> page == 0 && found == [] && first.None? && Unread(old(due), old(excused), began)
        invariant began ==> first.None?
        invariant GivenUp(k, old(Owed()), old(Early(k, oldest)), began,
                    old(due).Keys, due.Keys, old(excused).Keys, excused.Keys)
        invariant RunSoFar(was, Now(), k, oldest, cursor, found, page) && thrown == old(thrown)
        invariant page > 0 ==> r.Page? && r.next.Some? && r.next == cursor
      {
        ghost var before := Past();
        r := Turn(k, start, cursor, found, was, oldest, page);
        ContinuesOn(old(Past()), before, Past());
        if !r.Page? { return; }
        began := began || cursor.None?;
        found := found + r.messages;
        cursor := r.next;
        if cursor.None? { return; }
      }
      RunIsLong(was, Now(), k, oldest, cursor, found);
    }

    ghost predicate Unread(due: map<Entry, nat>, excused: map<Entry, nat>, began: bool)
      reads `due, `excused
    {
      this.due == due && this.excused == excused && !began
    }

    /** One more page, or the reply that ends the run, with what the run has to show. */
    method Turn(
        k: Key, start: int, cursor: Option<Cursor>, found: seq<Id>, ghost was: Moment, ghost oldest: int,
        ghost page: nat)
      returns (r: Reply)
      requires Valid() && listed && k.conv in pending
      requires cursor.Some? ==> CursorHolds(k, cursor.value, Elements(found))
      requires cursor.None? ==> found == [] && k !in continuations && start == oldest
      requires cursor.None? ==> if k in markers then oldest == markers[k] else k.History?
      requires RunSoFar(was, Now(), k, oldest, cursor, found, page) && (k in was.markers ==> oldest == was.markers[k])
      modifies `posted, `now, `due, `excused, `events, `calls, `thrown
      ensures Valid()
      ensures r.Page? && r.next.Some? ==> CursorHolds(k, r.next.value, Elements(found + r.messages))
      ensures r.Page? && r.next.None? ==> Found(k, found + r.messages)
      ensures cursor.Some? ==> due == old(due) && excused == old(excused)
      ensures GivenUp(k, old(Owed()), old(Early(k, start)), r.Page? && cursor.None?,
                old(due).Keys, due.Keys, old(excused).Keys, excused.Keys)
      ensures Continues(old(Past()), Past()) && (r == Denied ==> JustDenied(k))
      ensures r.Page? && r.next.Some? ==> RunSoFar(was, Now(), k, oldest, r.next, found + r.messages, page + 1)
      ensures r.Page? && r.next.None? ==> KeyRead(was, Now(), k, Elements(found + r.messages))
      ensures !r.Page? ==> if r.Denied? then Since(was, Now(), Denial(k)) else Stuck(was, Now(), k.conv)
      ensures r.Error? ==> SomeFailed(was, Now())
      ensures thrown == old(thrown) + (if r.Error? then 1 else 0) && (quiet ==> r.Page? || r.Denied?)
      ensures Onward(was, Now())
    {
      hide Valid, CursorHolds, Owes, Found, Continues, Elements, JustDenied, Early, RunSoFar, KeyRead, Stuck;
      hide Since, SomeFailed;
      ghost var mid := Now();
      ghost var w;
      r, w := NextPage(k, start, cursor, found);
      if r.Page? {
        SameMarkers(was, mid, k, oldest, cursor, found, page);
        PageTaken(was, mid, Now(), k, oldest, cursor, found, page, w, r.messages, r.next);
      } else {
        NoPage(was, mid, Now(), k, oldest, cursor, found, page);
      }
    }

    lemma NothingGivenUp(k: Key, oldest: int)
      ensures GivenUp(k, Owed(), Early(k, oldest), false, due.Keys, due.Keys, excused.Keys, excused.Keys)
    {
    }

    lemma SameMarkers(
        was: Moment, mid: Moment, k: Key, oldest: int, cursor: Option<Cursor>, found: seq<Id>, page: nat)
      requires RunSoFar(was, mid, k, oldest, cursor, found, page)
      ensures was.markers == mid.markers && was.continuations == mid.continuations
    {
    }

    lemma SaidStill(was: Moment, mid: Moment, now: Moment, k: Key)
      requires now == mid.(continuations := now.continuations) && Onward(was, mid)
      ensures Onward(was, now) && (Since(was, mid, Denial(k)) ==> Since(was, now, Denial(k)))
      ensures Stuck(was, mid, k.conv) ==> Stuck(was, now, k.conv)
      ensures SomeFailed(was, mid) ==> SomeFailed(was, now)
      ensures forall done :: KeyRead(was, mid, k, done) ==> KeyRead(was, now, k, done)
    {
      assert forall e :: Since(was, mid, e) ==> Since(was, now, e);
    }

    /** The run ends with these messages in hand; where there is more, its place is saved. */
    method EndsWith(k: Key, cursor: Option<Cursor>, start: int, found: seq<Id>)
      requires Valid() && (cursor.Some? ==> CursorHolds(k, cursor.value, Elements(found)))
      modifies `continuations
      ensures Holding(Elements(found)) && continuations - {k} == old(continuations) - {k}
      ensures Now() == old(Now()).(continuations := continuations)
      ensures cursor.None? ==> continuations == old(continuations) - {k}
      ensures cursor.Some? ==> continuations == old(continuations)[k := Saved(start, cursor.value)]
    {
      hide Holding, CursorHolds, Elements;
      ValidIsHolding();
      if cursor.None? { Forget(k); }
      ValidIsHolding();
      InHandGrows({}, Elements(found));
      if cursor.Some? { Save(k, Saved(start, cursor.value), Elements(found)); }
    }

    /** A reply that is no page ends the run; the place it had reached goes only where it is of no use. */
    method EndRun(r: Reply, k: Key) returns (status: Status)
      requires Valid() && !r.Page?
      modifies `continuations
      ensures Now() == old(Now()).(continuations := continuations)
      ensures Valid() && status == match r case Error => Raised case Denied => Skip case _ => Lost
      ensures continuations == if r == Denied || r == BadCursor then old(continuations) - {k} else old(continuations)
    {
      hide Valid;
      if r.Error? { return Raised; }
      if r.NoAnswer? { return Lost; }
      Forget(k);
      return if r.Denied? then Skip else Lost;
    }

    /** What a run has read: the window it walks, from where it stood, and the pages it was given. */
    ghost predicate RunSoFar(
        was: Moment, now: Moment, k: Key, oldest: int, cursor: Option<Cursor>, found: seq<Id>, page: nat) {
      && Onward(was, now) && now.markers == was.markers
      && now.continuations == was.continuations && PagesRead(now.calls, |was.calls|, k) == page
      && if cursor.None? then found == [] && k !in was.continuations
         else
           var w, at := cursor.value.window, Place(was.continuations, k);
           && cursor.value.at == at + |found| && Walked(found, w, at)
           && if k in was.continuations then w == was.continuations[k].cursor.window
              else WindowFrom(was, now, k, oldest, w)
    }

    lemma RunBegins(was: Moment, k: Key, oldest: int, cursor: Option<Cursor>)
      requires cursor == if k in was.continuations then Some(was.continuations[k].cursor) else None
      requires cursor.Some? ==> cursor.value.at <= |cursor.value.window|
      ensures RunSoFar(was, was, k, oldest, cursor, [], 0)
    {
    }

    lemma NoPage(
        was: Moment, mid: Moment, now: Moment, k: Key, oldest: int, cursor: Option<Cursor>, found: seq<Id>, page: nat)
      requires RunSoFar(was, mid, k, oldest, cursor, found, page) && Onward(mid, now)
      requires |now.calls| == |mid.calls| + 1 && now.calls[|mid.calls|].key == k
      ensures !now.calls[|mid.calls|].answered ==> Stuck(was, now, k.conv) && SomeFailed(was, now)
      ensures now.events == mid.events + [Denial(k)] ==> Since(was, now, Denial(k))
      ensures Onward(was, now)
    {
      if !now.calls[|mid.calls|].answered { LastCall(was, now, k.conv); }
      if now.events == mid.events + [Denial(k)] { LastEvent(was, now); }
    }

    lemma PageTaken(
        was: Moment, mid: Moment, now: Moment, k: Key, oldest: int, cursor: Option<Cursor>, found: seq<Id>, page: nat,
        w: seq<Id>, messages: seq<Id>, next: Option<Cursor>)
      requires RunSoFar(was, mid, k, oldest, cursor, found, page) && Onward(mid, now)
      requires now.markers == mid.markers
      requires now.continuations == mid.continuations && now.calls == mid.calls + [Call(k, true)]
      requires var at := if cursor.Some? then cursor.value.at else 0;
               && at + |messages| <= |w| && messages == w[at..at + |messages|]
               && if next.Some? then next.value == Cursor(w, at + |messages|) else at + |messages| == |w|
      requires cursor.Some? ==> w == cursor.value.window
      requires cursor.None? ==> forall d :: d in mid.posted && d.key == k && d.id.ts > oldest ==> d.id in w
      requires cursor.None? && k !in mid.markers ==> now.events == mid.events + [FirstWindow(k, oldest)]
      requires k in was.markers ==> oldest == was.markers[k]
      ensures next.Some? ==> RunSoFar(was, now, k, oldest, next, found + messages, page + 1)
      ensures next.None? ==> KeyRead(was, now, k, Elements(found + messages))
      ensures Onward(was, now)
    {
      OneMorePage(mid.calls, Call(k, true), |was.calls|, k);
      SinceBetween(was, mid, now);
      var at := Place(was.continuations, k);
      if cursor.None? && k !in was.markers { LastEvent(was, now); }
      WalkOn(found, w, at, messages);
      if next.None? { WholeWindow(was, now, k, oldest, w, at, found + messages); }
    }

    /** A run that stopped at its limit goes on from there, in the window it walks. */
    ghost predicate RunStops(was: Moment, k: Key, found: seq<Id>, next: Option<Cursor>) {
      && next.Some? && next.value.at == Place(was.continuations, k) + |found|
      && (k in was.continuations ==> next.value.window == was.continuations[k].cursor.window)
    }

    lemma RunIsLong(was: Moment, now: Moment, k: Key, oldest: int, cursor: Option<Cursor>, found: seq<Id>)
      requires RunSoFar(was, now, k, oldest, cursor, found, MAX_PAGES) && cursor.Some?
      ensures Stuck(was, now, k.conv) && Onward(was, now) && RunStops(was, k, found, cursor)
    {
    }

    /** A window fixed afresh: it holds all that the platform held of the history after its start. */
    ghost predicate WindowFrom(was: Moment, now: Moment, k: Key, oldest: int, w: seq<Id>) {
      && (forall d :: d in was.posted && d.key == k && d.id.ts > oldest ==> d.id in w)
      && (k !in was.markers ==> Since(was, now, FirstWindow(k, oldest)))
    }

    lemma WholeWindow(was: Moment, now: Moment, k: Key, oldest: int, w: seq<Id>, at: nat, found: seq<Id>)
      requires Walked(found, w, at) && at + |found| == |w|
      requires if k in was.continuations
               then w == was.continuations[k].cursor.window && at == was.continuations[k].cursor.at
               else at == 0 && WindowFrom(was, now, k, oldest, w)
      requires k in was.markers ==> oldest == was.markers[k]
      ensures KeyRead(was, now, k, Elements(found))
    {
      assert found == w[at..];
    }

    lemma SavedHolds(k: Key)
      requires Valid()
      ensures k in continuations ==> CursorHolds(k, continuations[k].cursor, {})
    {
    }

    lemma CursorInWindow(k: Key, c: Cursor, inHand: set<Id>)
      requires CursorHolds(k, c, inHand)
      ensures c.at <= |c.window|
    {
    }

    lemma Began(k: Key, w: seq<Id>)
      requires forall d :: Owes(d) && d.key == k ==> d.id in w
      ensures CursorHolds(k, Cursor(w, 0), Elements([]))
    {
      assert w[0..] == w;
    }

    lemma LastPage(k: Key, w: seq<Id>, found: seq<Id>)
      requires CursorHolds(k, Cursor(w, |w|), Elements(found))
      ensures Found(k, found)
    {
    }

    lemma OneMoreElement(rows: seq<Id>, i: nat)
      requires i < |rows|
      ensures Elements(rows[..i + 1]) == Elements(rows[..i]) + {rows[i]}
    {
      assert rows[..i + 1] == rows[..i] + [rows[i]];
    }

    lemma SameElements(a: seq<Id>, b: seq<Id>)
      requires forall id :: id in a <==> id in b
      ensures Elements(a) == Elements(b)
    {
    }

    /** A batch goes on in the order of its time stamps. */
    method QueueHistory(found: seq<Id>)
      requires Holding(Elements(found)) && seen <= Elements(queue)
      modifies `queue, `seen, `marks, `droppedMarks, `envelopes, `answerable, `handed, `settled
      ensures Valid() && seen <= Elements(queue)
      ensures handed == old(handed) + Elements(found) && old(settled) <= settled
    {
      hide Holding, Elements, SortedBy, InOrder;
      var rows := InOrder(found, (id: Id) => id.ts);
      assert rows[..0] == [];
      NothingInHand();
      for i := 0 to |rows|
        invariant Holding(Elements(found)) && seen <= Elements(queue)
        invariant handed == old(handed) + Elements(rows[..i]) && old(settled) <= settled
      {
        var mail: bool, thread: Option<nat> :| true;
        Remember(rows[i], mail, Some(Mark(rows[i], thread)), None, Elements(found));
        OneMoreElement(rows, i);
      }
      assert rows[..|rows|] == rows;
      SameElements(rows, found);
      AllHanded(Elements(found));
    }

    function OldestConversation(conv: nat): int
      reads `markers, `now
    {
      if History(conv) in markers then markers[History(conv)] else now - FIRST_RUN_WINDOW
    }

    ghost predicate Read(conv: nat, but: set<Key>)
      reads `due, `settled, `excused, `handed
    {
      AllHandedOn(due.Keys, settled + handed, excused.Keys, conv, but)
    }

    method Leave(conv: nat)
      requires Valid() && listed && Read(conv, {})
      modifies `pending
      ensures Valid() && pending == old(pending) - {conv}
    {
      hide ExcusesReal, NothingPassed, NothingDropped, EntriesReal, MarksReal, CursorsHold;
      pending := pending - {conv};
    }

    method Enter(conv: nat)
      requires Valid() && listed
      modifies `pending
      ensures Valid() && pending == old(pending) + {conv}
    {
      hide ExcusesReal, NothingPassed, NothingDropped, EntriesReal, MarksReal, CursorsHold;
      pending := pending + {conv};
    }

    /** Every owed message of a conversation is in its history or in a thread with a marker. */
    lemma KeysOf(conv: nat, threads: set<Key>)
      requires EntriesReal() && forall k :: k in markers && k.Thread? && k.conv == conv ==> k in threads
      ensures Read(conv, {History(conv)} + threads)
    {
    }

    lemma KeyIsRead(k: Key, found: seq<Id>, but: set<Key>)
      requires Read(k.conv, but) && Found(k, found) && Elements(found) <= handed
      ensures Read(k.conv, but - {k})
    {
    }

    /** What a run has found goes on, and nothing of a history read to its end is left. */
    method HandOnRun(k: Key, found: seq<Id>, ghost all: bool, ghost but: set<Key>)
      requires Holding(Elements(found)) && seen <= Elements(queue) && Read(k.conv, but) && (all ==> Found(k, found))
      modifies `queue, `seen, `marks, `droppedMarks, `envelopes, `answerable, `handed, `settled
      ensures Valid() && seen <= Elements(queue) && Now() == old(Now()).(handed := handed)
      ensures handed == old(handed) + Elements(found) && Continues(old(Past()), Past())
      ensures Read(k.conv, if all then but - {k} else but)
    {
      hide Valid, Holding, AllHandedOn, Elements;
      ghost var done := settled + handed;
      QueueHistory(found);
      HandedOnStays(due.Keys, done, excused.Keys, due.Keys, settled + handed, excused.Keys, k.conv, but);
      if all {
        assert Found(k, found) by {
          forall d | Owes(d) && d.key == k && d.id !in handed ensures d.id in found { assert old(Owes(d)); }
        }
        KeyIsRead(k, found, but);
      }
    }

    /** One history of a conversation: its pages, handed on. */
    method ReadKey(k: Key, oldest: int, ghost but: set<Key>) returns (status: Status)
      requires Valid() && listed && seen <= Elements(queue) && k.conv in pending
      requires if k in markers then oldest == markers[k] else k.History?
      requires k in but && Read(k.conv, but)
      modifies `calls, `thrown, `posted, `now, `continuations, `due, `excused, `events
      modifies `queue, `seen, `marks, `droppedMarks, `envelopes, `answerable, `handed, `settled
      ensures Valid() && seen <= Elements(queue)
      ensures Read(k.conv, if status == Done then but - {k} else but)
      ensures Continues(old(Past()), Past()) && old(handed) <= handed && (status == Skip ==> JustDenied(k))
      ensures KeyOnly(old(Now()), Now(), k)
      ensures status == Done || status == Skip ==> KeyDone(old(Now()), Now(), k)
      ensures status == Skip ==> Since(old(Now()), Now(), Denial(k))
      ensures status != Done && status != Skip ==> Stuck(old(Now()), Now(), k.conv)
      ensures status == Raised ==> SomeFailed(old(Now()), Now())
      ensures thrown == old(thrown) + (if status == Raised then 1 else 0)
      ensures quiet ==> status == Done || status == Skip || status == Partial
    {
      hide Valid, Holding, AllHandedOn, Elements, KeyRead, KeyDone, Stuck, Since, SomeFailed, KeyOnly, Onward;
      hide Continues;
      hide Found;
      var found;
      ghost var began;
      status, found, began := AllPages(k, oldest);
      ghost var done := settled + handed;
      HandedOnStays(old(due).Keys, done, old(excused).Keys, due.Keys, done, excused.Keys, k.conv, but);
      if status == Done || status == Partial {
        ghost var mid, past := Now(), Past();
        HandOnRun(k, found, status == Done, but);
        HandedStill(old(Now()), mid, Now(), k, found);
        ContinuesOn(old(Past()), past, Past());
      } else {
        assert Elements(found) == {} by { NothingInHand(); }
        assert Valid() by { ValidIsHolding(); }
      }
      KeyOnlyFrom(old(Now()), Now(), k);
      if status == Skip { DeniedIsDone(old(Now()), Now(), k); }
    }

    lemma DeniedIsDone(was: Moment, now: Moment, k: Key)
      requires Since(was, now, Denial(k)) || Since(was, now, Denial(History(k.conv)))
      ensures KeyDone(was, now, k)
    {
    }

    lemma HandedStill(was: Moment, mid: Moment, now: Moment, k: Key, found: seq<Id>)
      requires Onward(was, mid) && now == mid.(handed := now.handed) && mid.handed + Elements(found) <= now.handed
      ensures Onward(was, now)
      ensures KeyRead(was, mid, k, Elements(found)) ==> KeyDone(was, now, k)
      ensures Stuck(was, mid, k.conv) ==> Stuck(was, now, k.conv)
      ensures SomeFailed(was, mid) ==> SomeFailed(was, now)
    {
      if KeyRead(was, mid, k, Elements(found)) { KeyReadLater(was, mid, now, k, Elements(found), now.handed); }
    }

    lemma KeyOnlyFrom(was: Moment, now: Moment, k: Key)
      requires Onward(was, now) && was.markers == now.markers && was.pending == now.pending
      requires now.continuations - {k} == was.continuations - {k}
      ensures KeyOnly(was, now, k)
    {
      forall j: Key | j != k ensures SameSaved(was, now, j) {
        assert j in now.continuations <==> j in now.continuations - {k};
        assert j in was.continuations <==> j in was.continuations - {k};
        if j in now.continuations { assert (now.continuations - {k})[j] == (was.continuations - {k})[j]; }
      }
    }


    lemma NothingInHand()
      ensures Elements<Id>([]) == {}
    {
    }

    lemma ValidIsHolding()
      ensures Valid() == Holding({})
    {
    }

    /** What is owed in these histories is given up: the platform has just denied them. */
    ghost method Deny(keys: set<Key>, denied: Key, but: set<Key>)
      requires Valid() && Read(denied.conv, but) && JustDenied(denied)
      requires keys == {denied} || (denied.History? && forall k :: k in keys ==> k.conv == denied.conv)
      modifies `excused
      ensures Valid() && Read(denied.conv, but - keys)
      ensures Continues(old(Past()), Past())
      ensures excused.Keys == old(excused).Keys + set d | d in due && old(Owes(d)) && d.key in keys
    {
      hide Holding;
      Excuse(set d | d in due && Owes(d) && d.key in keys, {});
    }

    /**
     History and known threads of a conversation, pending until both have been read. It leaves
     pending only if every message owed in it has been handed on, or the platform denies it.
     */
    method ReadConversation(conv: nat) returns (raised: bool)
      requires Valid() && listed && seen <= Elements(queue)
      modifies `calls, `thrown, `posted, `now, `continuations, `due, `excused, `pending, `events
      modifies `queue, `seen, `marks, `droppedMarks, `envelopes, `answerable, `handed, `settled
      ensures Valid() && seen <= Elements(queue)
      ensures pending == old(pending) + {conv} || pending == old(pending) - {conv}
      ensures conv !in pending ==> Read(conv, {})
      ensures Continues(old(Past()), Past()) && old(handed) <= handed
      ensures Attended(old(Now()), Now(), conv) && OnlyIn(conv, old(Now()), Now())
      ensures raised ==> SomeFailed(old(Now()), Now())
      ensures thrown == old(thrown) + (if raised then 1 else 0) && (quiet ==> !raised)
    {
      hide Valid, AllHandedOn, Continues, Attended, OnlyIn, SomeFailed, Onward, KeyOnly, KeyDone, Since, Stuck;
      Unchanged();
      Enter(conv);
      ghost var was, past := Now(), Past();
      raised := ReadEntered(conv);
      assert past == old(Past());
      Entered(old(Now()), was, Now(), conv);
    }

    lemma Entered(was: Moment, mid: Moment, now: Moment, conv: nat)
      requires mid == was.(pending := was.pending + {conv}) && Attended(mid, now, conv) && OnlyIn(conv, mid, now)
      ensures Attended(was, now, conv) && OnlyIn(conv, was, now)
      ensures SomeFailed(mid, now) ==> SomeFailed(was, now)
    {
      hide KeyDone, Stuck;
      AttendedEarlier(was, mid, now, conv);
    }

    /** History and threads of a conversation that is pending. */
    method ReadEntered(conv: nat) returns (raised: bool)
      requires Valid() && listed && seen <= Elements(queue) && conv in pending
      modifies `calls, `thrown, `posted, `now, `continuations, `due, `excused, `pending, `events
      modifies `queue, `seen, `marks, `droppedMarks, `envelopes, `answerable, `handed, `settled
      ensures Valid() && seen <= Elements(queue)
      ensures pending == old(pending) || pending == old(pending) - {conv}
      ensures conv !in pending ==> Read(conv, {})
      ensures Continues(old(Past()), Past()) && old(handed) <= handed
      ensures Attended(old(Now()), Now(), conv) && OnlyIn(conv, old(Now()), Now())
      ensures raised ==> SomeFailed(old(Now()), Now())
      ensures thrown == old(thrown) + (if raised then 1 else 0) && (quiet ==> !raised)
    {
      hide Valid, AllHandedOn, Continues, Attended, OnlyIn, SomeFailed, Onward, KeyOnly, KeyDone, Since, Stuck;
      var rest := set k | k in markers && k.Thread? && k.conv == conv;
      AllKeys(conv, rest);
      var status := ReadKey(History(conv), OldestConversation(conv), {History(conv)} + rest);
      if status == Skip {
        ghost var mid := Now();
        GiveUpConversation(conv, rest);
        Leave(conv);
        ConversationDenied(old(Now()), mid, Now(), conv);
        return false;
      }
      if status != Done {
        HistoryStuck(old(Now()), Now(), conv);
        return status == Raised;
      }
      ghost var before, mid := Past(), Now();
      var done;
      done, raised := ReadThreads(conv, rest);
      ContinuesOn(old(Past()), before, Past());
      ghost var last := Now();
      if done { Leave(conv); }
      ThreadsRead(old(Now()), mid, last, Now(), conv, rest, done);
    }

    ghost method GiveUpConversation(conv: nat, threads: set<Key>)
      requires Valid() && Read(conv, {History(conv)} + threads) && JustDenied(History(conv))
      requires forall k :: k in threads ==> k.conv == conv
      modifies `excused
      ensures Valid() && Read(conv, {}) && Continues(old(Past()), Past())
    {
      hide Valid, AllHandedOn, Continues;
      var all := {History(conv)} + threads;
      Deny(all, History(conv), all);
      assert all - all == {};
    }

    lemma ConversationDenied(was: Moment, mid: Moment, now: Moment, conv: nat)
      requires KeyOnly(was, mid, History(conv)) && Since(was, mid, Denial(History(conv)))
      requires now == mid.(pending := mid.pending - {conv})
      ensures Attended(was, now, conv) && OnlyIn(conv, was, now)
    {
      assert Since(was, now, Denial(History(conv)));
      forall k: Key | k.conv == conv ensures KeyDone(was, now, k) { DeniedIsDone(was, now, k); }
      forall k: Key | k.conv != conv ensures SameSaved(was, now, k) { assert SameSaved(was, mid, k); }
    }

    lemma HistoryStuck(was: Moment, now: Moment, conv: nat)
      requires KeyOnly(was, now, History(conv)) && Stuck(was, now, conv) && conv in now.pending
      ensures Attended(was, now, conv) && OnlyIn(conv, was, now)
    {
      hide Stuck;
    }

    lemma ThreadsRead(
        was: Moment, mid: Moment, last: Moment, now: Moment, conv: nat, threads: set<Key>, done: bool)
      requires KeyOnly(was, mid, History(conv)) && KeyDone(was, mid, History(conv))
      requires threads == set k | k in was.markers && k.Thread? && k.conv == conv
      requires ThreadsSoFar(mid, last, conv)
      requires if done then forall k :: k in threads ==> KeyDone(mid, last, k) else Stuck(mid, last, conv)
      requires now == if done then last.(pending := last.pending - {conv}) else last
      requires conv in was.pending
      ensures Attended(was, now, conv) && OnlyIn(conv, was, now)
      ensures SomeFailed(mid, last) ==> SomeFailed(was, now)
    {
      hide KeyDone, Stuck;
      OnwardOn(was, mid, now);
      if done {
        forall k | k == History(conv) || (k in was.markers && k.Thread? && k.conv == conv)
          ensures KeyDone(was, now, k)
        {
          if k == History(conv) {
            KeyDoneLater(was, mid, now, k);
          } else {
            KeyDoneEarlier(was, mid, last, k);
            KeyDoneLater(was, last, now, k);
          }
        }
      } else {
        StuckEarlier(was, mid, now, conv);
      }
      forall k: Key | k.conv != conv ensures SameSaved(was, now, k) { SavedOn(was, mid, now, k); }
    }

    lemma SavedOn(was: Moment, mid: Moment, now: Moment, k: Key)
      requires SameSaved(was, mid, k) && SameSaved(mid, now, k)
      ensures SameSaved(was, now, k)
    {
    }

    /** Only histories of this conversation have been read. */
    ghost predicate ThreadsSoFar(was: Moment, now: Moment, conv: nat) {
      && Onward(was, now) && was.markers == now.markers && was.pending == now.pending
      && forall j: Key :: j.conv != conv ==> SameSaved(was, now, j)
    }

    /** The known threads of a conversation, until one of them has more than a cycle reads, or fails. */
    method ReadThreads(conv: nat, threads: set<Key>) returns (done: bool, raised: bool)
      requires Valid() && listed && seen <= Elements(queue) && conv in pending && Read(conv, threads)
      requires forall k :: k in threads ==> k in markers && k.Thread? && k.conv == conv
      modifies `calls, `thrown, `posted, `now, `continuations, `due, `excused, `events
      modifies `queue, `seen, `marks, `droppedMarks, `envelopes, `answerable, `handed, `settled
      ensures Valid() && seen <= Elements(queue)
      ensures Continues(old(Past()), Past()) && old(handed) <= handed
      ensures done ==> Read(conv, {}) && !raised
      ensures ThreadsSoFar(old(Now()), Now(), conv)
      ensures if done then forall k :: k in threads ==> KeyDone(old(Now()), Now(), k)
              else Stuck(old(Now()), Now(), conv)
      ensures raised ==> SomeFailed(old(Now()), Now())
      ensures thrown == old(thrown) + (if raised then 1 else 0) && (quiet ==> !raised)
    {
      hide Valid, AllHandedOn, Continues, Elements, Onward, KeyOnly, KeyDone, Since, Stuck, SomeFailed, SameSaved;
      hide ThreadsSoFar, ThreadsDone;
      Unchanged();
      NoThreadYet(Now(), conv, threads);
      var rest := threads;
      while rest != {}
        invariant Valid() && seen <= Elements(queue) && rest <= threads
        invariant forall k :: k in rest ==> k in markers && k.Thread? && k.conv == conv
        invariant Read(conv, rest) && ThreadsDone(old(Now()), Now(), conv, threads, rest)
        invariant Continues(old(Past()), Past()) && old(handed) <= handed && thrown == old(thrown)
        decreases rest
      {
        var k :| k in rest;
        ghost var before, mid := Past(), Now();
        var status := ReadKey(k, markers[k], rest);
        ContinuesOn(old(Past()), before, Past());
        if status == Skip {
          before := Past();
          Deny({k}, k, rest);
          ContinuesOn(old(Past()), before, Past());
        } else if status != Done {
          ThreadStuck(old(Now()), mid, Now(), conv, threads, rest, k);
          return false, status == Raised;
        }
        OneMoreThread(old(Now()), mid, Now(), conv, threads, rest, k);
        rest := rest - {k};
      }
      AllThreads(old(Now()), Now(), conv, threads);
      return true, false;
    }

    ghost predicate ThreadsDone(was: Moment, now: Moment, conv: nat, threads: set<Key>, rest: set<Key>) {
      && ThreadsSoFar(was, now, conv)
      && (forall k :: k in rest ==> SameSaved(was, now, k))
      && (forall k :: k in threads && k !in rest ==> KeyDone(was, now, k))
    }

    lemma NoThreadYet(was: Moment, conv: nat, threads: set<Key>)
      ensures ThreadsDone(was, was, conv, threads, threads)
    {
    }

    lemma ThreadStuck(was: Moment, mid: Moment, now: Moment, conv: nat, threads: set<Key>, rest: set<Key>, k: Key)
      requires ThreadsDone(was, mid, conv, threads, rest) && k.conv == conv
      requires KeyOnly(mid, now, k) && Stuck(mid, now, conv)
      ensures ThreadsSoFar(was, now, conv) && Stuck(was, now, conv)
      ensures SomeFailed(mid, now) ==> SomeFailed(was, now)
    {
      hide Stuck, SameSaved, KeyDone;
      OnwardOn(was, mid, now);
      StuckEarlier(was, mid, now, conv);
      forall j: Key | j.conv != conv ensures SameSaved(was, now, j) { SavedOn(was, mid, now, j); }
    }

    lemma OneMoreThread(was: Moment, mid: Moment, now: Moment, conv: nat, threads: set<Key>, rest: set<Key>, k: Key)
      requires ThreadsDone(was, mid, conv, threads, rest) && k in rest && k.conv == conv
      requires KeyOnly(mid, now, k) && KeyDone(mid, now, k)
      ensures ThreadsDone(was, now, conv, threads, rest - {k})
    {
      hide KeyDone, SameSaved;
      OnwardOn(was, mid, now);
      KeyDoneEarlier(was, mid, now, k);
      forall j: Key | j != k && SameSaved(was, mid, j) ensures SameSaved(was, now, j) { SavedOn(was, mid, now, j); }
      forall j | j in threads && j !in rest ensures KeyDone(was, now, j) { KeyDoneLater(was, mid, now, j); }
    }

    lemma AllThreads(was: Moment, now: Moment, conv: nat, threads: set<Key>)
      requires ThreadsDone(was, now, conv, threads, {})
      ensures ThreadsSoFar(was, now, conv) && forall k :: k in threads ==> KeyDone(was, now, k)
    {
    }

    lemma Unchanged()
      ensures Continues(Past(), Past())
    {
    }

    lemma AllKeys(conv: nat, threads: set<Key>)
      requires Valid() && forall k :: k in markers && k.Thread? && k.conv == conv ==> k in threads
      ensures Read(conv, {History(conv)} + threads)
    {
      KeysOf(conv, threads);
    }

    /** The allowlist's conversations and those with a tracked thread. */
    function Conversations(): set<nat>
      reads `markers
    {
      watched + set k | k in markers && k.Thread? :: k.conv
    }

    /** Every conversation is marked pending before the first is read. */
    method ListConversations()
      requires Valid()
      modifies `open, `pending, `listed
      ensures Valid() && listed && open && pending == old(pending) + Conversations()
    {
      hide ExcusesReal, NothingPassed, NothingDropped, EntriesReal, MarksReal, CursorsHold, Owes;
      open := true;
      pending := pending + Conversations();
      listed := true;
    }

    method Close()
      requires Valid()
      modifies `open
      ensures Valid() && !open
    {
      hide ExcusesReal, NothingPassed, NothingDropped, EntriesReal, MarksReal, CursorsHold, Owes;
      open := false;
    }

    method ReadConversations(convs: set<nat>) returns (raised: bool)
      requires Valid() && listed && seen <= Elements(queue) && convs <= pending
      modifies `calls, `thrown, `posted, `now, `continuations, `due, `excused, `pending, `events
      modifies `queue, `seen, `marks, `droppedMarks, `envelopes, `answerable, `handed, `settled
      ensures Valid() && seen <= Elements(queue)
      ensures Continues(old(Past()), Past()) && Onward(old(Now()), Now())
      ensures CaughtUpSince(old(Now()), Now(), convs) && (raised ==> SomeFailed(old(Now()), Now()))
      ensures thrown == old(thrown) + (if raised then 1 else 0) && (quiet ==> !raised)
    {
      hide Valid, AllHandedOn, Elements, Continues, OnlyIn, Attended, Onward, SomeFailed, SameSaved;
      Unchanged();
      NoneRead(Now(), convs);
      var rest := convs;
      while rest != {}
        invariant Valid() && listed && seen <= Elements(queue) && rest <= convs
        invariant Continues(old(Past()), Past()) && ReadSoFar(old(Now()), Now(), convs, rest)
        invariant thrown == old(thrown)
        decreases rest
      {
        var conv :| conv in rest;
        ghost var before, mid := Past(), Now();
        raised := ReadConversation(conv);
        ContinuesOn(old(Past()), before, Past());
        OneMoreRead(old(Now()), mid, Now(), convs, rest, conv);
        rest := rest - {conv};
        if raised {
          SomeRead(old(Now()), Now(), convs, rest);
          return;
        }
      }
      SomeRead(old(Now()), Now(), convs, rest);
      return false;
    }

    /** These conversations have been attended to, and the rest are pending as they were. */
    ghost predicate ReadSoFar(was: Moment, now: Moment, convs: set<nat>, rest: set<nat>) {
      && Onward(was, now) && was.markers == now.markers
      && (forall c :: c in convs && c !in rest ==> Attended(was, now, c))
      && (forall c :: c in rest ==> c in now.pending)
      && (forall k: Key :: k.conv in rest ==> SameSaved(was, now, k))
    }

    lemma NoneRead(was: Moment, convs: set<nat>)
      requires convs <= was.pending
      ensures ReadSoFar(was, was, convs, convs)
    {
    }

    lemma OneMoreRead(was: Moment, mid: Moment, now: Moment, convs: set<nat>, rest: set<nat>, conv: nat)
      requires ReadSoFar(was, mid, convs, rest) && conv in rest && OnlyIn(conv, mid, now) && Attended(mid, now, conv)
      ensures ReadSoFar(was, now, convs, rest - {conv})
      ensures SomeFailed(mid, now) ==> SomeFailed(was, now)
    {
      hide Attended, SameSaved;
      OnwardOn(was, mid, now);
      AttendedEarlier(was, mid, now, conv);
      forall c | c in convs && c !in rest ensures Attended(was, now, c) { AttendedLater(was, mid, now, c); }
      forall k: Key | k.conv in rest - {conv} ensures SameSaved(was, now, k) { SavedOn(was, mid, now, k); }
    }

    lemma SomeRead(was: Moment, now: Moment, convs: set<nat>, rest: set<nat>)
      requires ReadSoFar(was, now, convs, rest) && (rest == {} || SomeFailed(was, now))
      ensures CaughtUpSince(was, now, convs) && Onward(was, now)
    {
      hide Attended, SomeFailed;
    }

    /** Items of a fetch whose cycle never reached confirm go again, each once and in their order. */
    method RequeueInflight()
      requires Valid() && seen == {}
      modifies `queue, `seen, `inflight
      ensures Valid() && seen <= Elements(queue) && inflight == []
      ensures queue == old(queue) + Distinct(old(inflight)) && seen == Elements(old(inflight))
    {
      hide Valid, Distinct;
      assert inflight[..0] == [] && Distinct<Id>([]) == [] by { NothingTwice(); }
      for i := 0 to |inflight|
        invariant Valid() && inflight == old(inflight)
        invariant queue == old(queue) + Distinct(inflight[..i]) && seen == Elements(inflight[..i])
      {
        assert inflight[..i + 1] == inflight[..i] + [inflight[i]];
        OneMoreDistinct(inflight[..i], inflight[i]);
        Requeue(inflight[i]);
      }
      assert inflight[..|inflight|] == inflight;
      InflightQueued(old(queue));
      ForgetInflight();
    }

    lemma NothingTwice()
      ensures Distinct<Id>([]) == []
    {
    }

    method Requeue(id: Id)
      requires Valid()
      modifies `queue, `seen
      ensures Valid() && queue == old(queue) + (if id in old(seen) then [] else [id]) && seen == old(seen) + {id}
    {
      hide ExcusesReal, NothingPassed, EntriesReal, MarksReal, CursorsHold, CaughtUp, Owes;
      if id !in seen {
        seen := seen + {id};
        queue := queue + [id];
      }
    }

    lemma InflightQueued(before: seq<Id>)
      requires queue == before + Distinct(inflight)
      ensures forall id :: id in inflight ==> id in queue
      ensures Elements(inflight) <= Elements(queue)
    {
      forall id | id in inflight ensures id in queue {
        assert id in Elements(inflight) && id in Elements(Distinct(inflight));
      }
    }

    method ForgetInflight()
      requires Valid() && forall id :: id in inflight ==> id in queue
      modifies `inflight
      ensures Valid() && inflight == []
    {
      hide ExcusesReal, NothingPassed, EntriesReal, MarksReal, CursorsHold, CaughtUp, Owes;
      inflight := [];
    }

    /** The next thing on the socket. */
    method Hear() returns (f: Live)
      requires Holding({}) && open
      modifies `posted, `now, `frames
      ensures Holding({}) && old(posted) <= posted && frames == old(frames) + [f]
    {
      hide Holding;
      Elapse({});
      f := *;
      frames := frames + [f];
    }

    /** A live message was handed on: mail with its envelope is queued, anything else is settled. */
    ghost predicate Taken(f: Live)
      reads `queue, `settled, `handed, `envelopes, `answerable
    {
      f.Message? ==>
        && f.id in handed && (if f.mail then f.id in queue else f.id in settled)
        && (f.number.Some? ==> Envelope(f.id, f.number.value) in if f.mail then envelopes else answerable)
    }

    /** What came since is taken. */
    ghost predicate AllTaken(n: nat)
      reads `queue, `settled, `handed, `envelopes, `answerable, `frames
    {
      n <= |frames| && forall i :: n <= i < |frames| ==> Taken(frames[i])
    }

    method TakeFrame(f: Live)
      requires Holding({}) && seen <= Elements(queue)
      modifies `queue, `seen, `marks, `droppedMarks, `envelopes, `answerable, `handed, `settled
      ensures Holding({}) && seen <= Elements(queue) && Taken(f)
      ensures old(settled) <= settled && old(handed) <= handed && old(queue) <= queue
      ensures old(envelopes) <= envelopes && old(answerable) <= answerable
    {
      hide Holding, Elements;
      if f.Message? {
        var envelope := if f.number.Some? then Some(Envelope(f.id, f.number.value)) else None;
        Remember(f.id, f.mail, Some(Mark(f.id, f.thread)), envelope, {});
      }
    }

    /** A frame, and what is to be done about it. */
    method ReadFrame(ghost n: nat)
      requires Holding({}) && seen <= Elements(queue) && open && AllTaken(n)
      modifies `posted, `now, `frames
      modifies `queue, `seen, `marks, `droppedMarks, `envelopes, `answerable, `handed, `settled
      ensures Holding({}) && seen <= Elements(queue) && AllTaken(n) && |frames| == |old(frames)| + 1
      ensures old(settled) <= settled && old(posted) <= posted && old(handed) <= handed
    {
      hide Holding, Elements;
      var f := Hear();
      ghost var there := queue;
      TakeFrame(f);
      assert forall id :: id in there ==> id in queue;
    }

    /** Live frames until the socket is quiet, closes or fails. */
    method ReadLive(ghost n: nat) returns (raised: bool, saw: bool)
      requires Valid() && seen <= Elements(queue) && AllTaken(n)
      modifies `posted, `now, `open, `frames, `polls
      modifies `queue, `seen, `marks, `droppedMarks, `envelopes, `answerable, `handed, `settled
      ensures Valid() && seen <= Elements(queue) && Continues(old(Past()), Past()) && Onward(old(Now()), Now())
      ensures AllTaken(n) && |frames| >= |old(frames)| && (saw <==> |frames| > |old(frames)|)
      ensures (raised ==> !open) && (quiet ==> !raised && open == old(open))
      ensures polls == old(polls) + 1
    {
      hide Valid, Holding, Elements, Taken, AllTaken;
      ValidIsHolding();
      polls := polls + 1;
      var more: nat :| true;
      raised, saw := false, false;
      for i := 0 to more
        invariant Holding({}) && seen <= Elements(queue) && old(settled) <= settled && open == old(open)
        invariant old(posted) <= posted && old(handed) <= handed && AllTaken(n)
        invariant polls == old(polls) + 1
        invariant |frames| >= |old(frames)| && (saw <==> |frames| > |old(frames)|)
      {
        if !open { break; }
        ReadFrame(n);
        saw := true;
      }
      ValidIsHolding();
      var closes: bool, fails: bool := *, *;
      if (closes || fails) && open && !quiet {
        Close();
        raised := fails;
      }
    }

    /** A quiet socket has to answer a ping; whatever else arrives first is read. */
    method RequirePong(ghost n: nat) returns (ok: bool)
      requires Valid() && seen <= Elements(queue) && AllTaken(n)
      modifies `posted, `now, `open, `frames
      modifies `queue, `seen, `marks, `droppedMarks, `envelopes, `answerable, `handed, `settled
      ensures Valid() && seen <= Elements(queue) && Continues(old(Past()), Past()) && Onward(old(Now()), Now())
      ensures AllTaken(n) && (if ok then |frames| > |old(frames)| else !open)
      ensures quiet && old(open) ==> ok && open
    {
      hide Valid, Holding, Elements, Taken, AllTaken;
      Unchanged();
      if !open { return false; }
      var silent: bool, closes: bool := *, *;
      if silent && !quiet {
        Close();
        return false;
      }
      ValidIsHolding();
      ReadFrame(n);
      ValidIsHolding();
      if closes && !quiet { Close(); }
      return true;
    }

    /**
     One fetch. An error of the catch-up is held back while the socket is read, and raised only
     when nothing is queued. On an open connection what was pending has been read as far as the platform
     let it be; on a new one, every conversation, from a moment since. It returns nothing only where no
     call raised and the socket was heard.
     */
    method Fetch() returns (ok: bool, items: seq<Id>, ghost since: Moment)
      requires Valid()
      modifies this
      ensures Valid() && markers == old(markers) && answered == old(answered)
      ensures Continues(old(Past()), Past())
      ensures ok ==> queue == [] && items == inflight
      ensures ok && items == [] ==> thrown == old(thrown) && |frames| > |old(frames)|
      ensures quiet ==> ok && open
      ensures old(open) ==> dials == old(dials) && CaughtUpSince(old(Now()), Now(), old(pending))
      ensures !old(open) ==> |dials| == |old(dials)| + 1 || (dials == old(dials) && SomeFailed(old(Now()), Now()))
      ensures |dials| > |old(dials)| && Dialled() ==>
                listed && Onward(old(Now()), since) && CaughtUpSince(since, Now(), old(Conversations()))
    {
      hide Valid, AllHandedOn, Elements, Conversations, Continues, CaughtUpSince, Onward, SomeFailed;
      var deferred;
      deferred, since := Start();
      ghost var before, mid := Past(), Now();
      ok, items := Listen(deferred);
      ContinuesOn(old(Past()), before, Past());
      if old(open) { CaughtUpLater(old(Now()), mid, Now(), old(pending)); }
      if |dials| > |old(dials)| && Dialled() { CaughtUpLater(since, mid, Now(), old(Conversations())); }
      if SomeFailed(old(Now()), mid) { FailedStill(old(Now()), mid, Now()); }
    }

    lemma FailedStill(was: Moment, mid: Moment, now: Moment)
      requires SomeFailed(was, mid) && Onward(mid, now)
      ensures SomeFailed(was, now)
    {
    }

    /** What the last cycle did not confirm is queued again, and the catch-up begins. */
    method Start() returns (deferred: bool, ghost since: Moment)
      requires Valid()
      modifies `calls, `thrown, `posted, `now, `continuations, `due, `excused, `pending, `open, `listed, `events, `dials
      modifies `queue, `seen, `marks, `droppedMarks, `envelopes, `answerable, `handed, `settled, `inflight
      ensures Valid() && seen <= Elements(queue) && inflight == [] && Continues(old(Past()), Past())
      ensures old(open) ==> dials == old(dials) && CaughtUpSince(old(Now()), Now(), old(pending))
      ensures !old(open) ==> |dials| == |old(dials)| + 1 || (dials == old(dials) && SomeFailed(old(Now()), Now()))
      ensures |dials| > |old(dials)| && Dialled() ==>
                listed && Onward(old(Now()), since) && CaughtUpSince(since, Now(), old(Conversations()))
      ensures deferred <==> thrown > old(thrown) || (|dials| > |old(dials)| && !Dialled())
      ensures old(thrown) <= thrown
      ensures (!deferred ==> open) && (quiet ==> !deferred)
    {
      hide Valid, Elements, Conversations, Continues, CaughtUpSince, Onward, SomeFailed;
      seen := {};
      RequeueInflight();
      assert Now() == old(Now()) && Past() == old(Past());
      deferred, since := Reconnect();
    }

    /**
     What arrives live, and all that is queued; or the error that was held back. Everything that came is
     taken, and a fetch that returns nothing has heard from the socket and holds no error back.
     */
    method Listen(deferred: bool) returns (ok: bool, items: seq<Id>)
      requires Valid() && seen <= Elements(queue) && inflight == []
      modifies `posted, `now, `open, `inflight, `frames, `polls
      modifies `queue, `seen, `marks, `droppedMarks, `envelopes, `answerable, `handed, `settled
      ensures Valid() && Continues(old(Past()), Past()) && Onward(old(Now()), Now())
      ensures ok ==> queue == [] && items == inflight && (items == [] ==> !deferred && |frames| > |old(frames)|)
      ensures forall i :: |old(frames)| <= i < |frames| && frames[i].Message? ==>
                frames[i].id in handed
                  && if frames[i].mail then frames[i].id in queue + inflight else frames[i].id in settled
      ensures quiet && !deferred && old(open) ==> ok && open
      ensures ok ==> polls == old(polls) + 1
    {
      hide Valid, AllHandedOn, Elements, Continues, Taken, AllTaken, Onward;
      ghost var n := |frames|;
      ok := Attend(deferred);
      TakenIsKnown(n);
      if !ok { return false, []; }
      items := TakeQueue();
      return true, items;
    }

    /** The socket is read, unless the error is fatal; a quiet one has to answer. */
    method Attend(deferred: bool) returns (ok: bool)
      requires Valid() && seen <= Elements(queue)
      modifies `posted, `now, `open, `frames, `polls
      modifies `queue, `seen, `marks, `droppedMarks, `envelopes, `answerable, `handed, `settled
      ensures Valid() && Continues(old(Past()), Past()) && Onward(old(Now()), Now()) && AllTaken(|old(frames)|)
      ensures ok && queue == [] ==> !deferred && |frames| > |old(frames)|
      ensures quiet && !deferred && old(open) ==> ok && open
      ensures ok ==> polls == old(polls) + 1
    {
      hide Valid, AllHandedOn, Elements, Continues, Taken, AllTaken, Onward;
      Unchanged();
      ghost var n, was := |frames|, Now();
      NothingToTake();
      var fatal: bool := *;
      if deferred && fatal { return false; }
      var raised, saw := ReadLive(n);
      if raised || (deferred && queue == []) { return false; }
      ok := true;
      if queue == [] && !saw {
        ghost var before, mid := Past(), Now();
        ok := RequirePong(n);
        ContinuesOn(old(Past()), before, Past());
        OnwardOn(was, mid, Now());
      }
    }

    lemma NothingToTake()
      ensures AllTaken(|frames|) && Onward(Now(), Now())
    {
    }

    lemma TakenIsKnown(n: nat)
      requires AllTaken(n)
      ensures forall i :: n <= i < |frames| && frames[i].Message? ==>
                frames[i].id in handed && if frames[i].mail then frames[i].id in queue else frames[i].id in settled
    {
    }

    /** A connect that fails leaves no socket. */
    method Connect() returns (ok: bool)
      modifies `dials
      ensures dials == old(dials) + [ok] && (quiet ==> ok)
    {
      var fails: bool := *;
      ok := quiet || !fails;
      dials := dials + [ok];
    }

    /** The last connect went through. */
    ghost predicate Dialled()
      reads `dials
    {
      dials != [] && dials[|dials| - 1]
    }

    /** What is pending is read again; a new connection lists and reads every conversation. */
    method Reconnect() returns (deferred: bool, ghost since: Moment)
      requires Valid() && seen <= Elements(queue)
      modifies `calls, `thrown, `posted, `now, `continuations, `due, `excused, `pending, `open, `listed, `events, `dials
      modifies `queue, `seen, `marks, `droppedMarks, `envelopes, `answerable, `handed, `settled
      ensures Valid() && seen <= Elements(queue)
      ensures Continues(old(Past()), Past())
      ensures old(open) ==> dials == old(dials) && CaughtUpSince(old(Now()), Now(), old(pending))
      ensures !old(open) ==> |dials| == |old(dials)| + 1 || (dials == old(dials) && SomeFailed(old(Now()), Now()))
      ensures |dials| > |old(dials)| && Dialled() ==>
                listed && Onward(old(Now()), since) && CaughtUpSince(since, Now(), old(Conversations()))
      ensures deferred <==> thrown > old(thrown) || (|dials| > |old(dials)| && !Dialled())
      ensures old(thrown) <= thrown
      ensures (!deferred ==> open) && (quiet ==> !deferred)
    {
      hide Valid, AllHandedOn, Elements, Conversations, Continues, CaughtUpSince, Onward, SomeFailed;
      deferred := RetryPending();
      since := Now();
      if !deferred && !open {
        var ok := Connect();
        if !ok { return true, since; }
        ghost var before, mid := Past(), Now();
        deferred, since := CatchUp();
        ContinuesOn(old(Past()), before, Past());
        OnwardOn(old(Now()), mid, since);
      }
    }

    /** A conversation that was not read to the end is read again. */
    method RetryPending() returns (deferred: bool)
      requires Valid() && seen <= Elements(queue)
      modifies `calls, `thrown, `posted, `now, `continuations, `due, `excused, `pending, `events
      modifies `queue, `seen, `marks, `droppedMarks, `envelopes, `answerable, `handed, `settled
      ensures Valid() && seen <= Elements(queue)
      ensures Continues(old(Past()), Past()) && Onward(old(Now()), Now())
      ensures CaughtUpSince(old(Now()), Now(), old(pending)) && (deferred ==> SomeFailed(old(Now()), Now()))
      ensures thrown == old(thrown) + (if deferred then 1 else 0) && (quiet ==> !deferred)
    {
      hide Valid, Elements, Continues, Attended;
      Unchanged();
      deferred := false;
      if pending != {} {
        PendingIsListed();
        deferred := ReadConversations(pending);
      }
    }

    /** On a new connection: everything is listed, and then read. */
    method CatchUp() returns (raised: bool, ghost since: Moment)
      requires Valid() && seen <= Elements(queue)
      modifies `calls, `thrown, `posted, `now, `continuations, `due, `excused, `pending, `open, `listed, `events
      modifies `queue, `seen, `marks, `droppedMarks, `envelopes, `answerable, `handed, `settled
      ensures Valid() && seen <= Elements(queue) && Continues(old(Past()), Past())
      ensures listed && open && Onward(old(Now()), since) && CaughtUpSince(since, Now(), old(Conversations()))
      ensures thrown == old(thrown) + (if raised then 1 else 0) && (quiet ==> !raised)
    {
      hide Valid, Elements, Conversations, Continues, CaughtUpSince, SomeFailed;
      ListConversations();
      since := Now();
      assert Past() == old(Past());
      raised := ReadConversations(Conversations());
    }

    lemma PendingIsListed()
      requires Valid() && pending != {}
      ensures listed
    {
    }

    method TakeQueue() returns (items: seq<Id>)
      requires Valid() && inflight == []
      modifies `queue, `inflight
      ensures Valid() && queue == [] && items == inflight == old(queue)
    {
      hide ExcusesReal, NothingPassed, EntriesReal, MarksReal, CursorsHold, CaughtUp, Owes;
      items := queue;
      queue, inflight := [], items;
    }

    /** The poller has a letter for this message, or turned it away. */
    method Ack(id: Id)
      requires Valid() && id in inflight
      modifies `staged, `envelopes, `answerable, `settled
      ensures Valid() && settled == old(settled) + {id} && staged == old(staged) + [id]
      ensures answerable == old(answerable) + set e | e in old(envelopes) && e.id == id
      ensures envelopes == set e | e in old(envelopes) && e.id != id
    {
      hide Holding;
      ghost var none: set<Id> := {};
      Settle(id, none);
      Stage(id);
    }

    method Stage(id: Id)
      requires Valid() && id in settled
      modifies `staged, `envelopes, `answerable
      ensures Valid() && staged == old(staged) + [id]
      ensures answerable == old(answerable) + set e | e in old(envelopes) && e.id == id
      ensures envelopes == set e | e in old(envelopes) && e.id != id
    {
      hide ExcusesReal, NothingPassed, CaughtUp, NothingDropped, EntriesReal, CursorsHold, Owes;
      staged := staged + [id];
      answerable := answerable + set e | e in envelopes && e.id == id;
      envelopes := set e | e in envelopes && e.id != id;
    }

    function MarksOf(ids: seq<Id>): (r: seq<Mark>)
      reads `marks
      ensures forall m :: m in r ==> exists id :: id in ids && id in marks && m == marks[id]
    {
      if ids == [] then []
      else
        assert ids == ids[..|ids| - 1] + [ids[|ids| - 1]];
        MarksOf(ids[..|ids| - 1]) + if ids[|ids| - 1] in marks then [marks[ids[|ids| - 1]]] else []
    }

    /** With nothing queued and everything returned acked, every message handed on is settled. */
    lemma EverythingSettled()
      requires Valid() && queue == [] && forall id :: id in inflight ==> id in settled
      ensures handed <= settled
      ensures open ==> forall d :: Owes(d) ==> d.key.conv in pending
    {
    }

    /** Marks of conversations still being caught up are held; the others move their markers. */
    method AdvanceMarkers(all: seq<Mark>) returns (advanced: Markers, kept: seq<Mark>)
      ensures advanced == Advance(markers, all, pending)
      ensures forall m :: m in kept <==> m in all && m.id.conv in pending
    {
      advanced, kept := markers, [];
      for i := 0 to |all|
        invariant advanced == Advance(markers, all[..i], pending)
        invariant forall m :: m in kept <==> m in all[..i] && m.id.conv in pending
      {
        assert all[..i + 1][..i] == all[..i] && all[..i + 1] == all[..i] + [all[i]];
        if all[i].id.conv in pending {
          kept := kept + [all[i]];
        } else {
          advanced := Bump(advanced, all[i]);
        }
      }
      assert all[..|all|] == all;
    }

    /** The whole effect on the markers of a confirm that gets through. */
    method WriteMarkers(next: Markers, ghost lost: set<Key>)
      requires Valid() && (forall d :: Owes(d) ==> d.key.conv in pending)
      requires forall k :: k in next && k.conv in pending ==> k in markers && next[k] == markers[k]
      requires forall k :: k in markers && k !in lost ==> k in next
      modifies `markers, `saved, `excused, `events
      ensures Valid() && markers == saved == next && events == old(events) + [Cap(lost)]
      ensures Continues(old(Past()), Past())
      ensures excused.Keys == old(excused).Keys + set d | d in due && old(Owes(d)) && d.key in lost
    {
      hide Holding;
      ghost var none: set<Id> := {};
      Note(Cap(lost), none);
      ghost var gone := set d | d in due && Owes(d) && d.key in lost;
      Excuse(gone, none);
      assert forall d :: Owes(d) ==> old(Owes(d)) && d.key !in lost;
      SetMarkers(next);
    }

    method SetMarkers(next: Markers)
      requires Valid() && (forall d :: Owes(d) ==> d.key.conv in pending && (d.key in markers ==> d.key in next))
      requires forall k :: k in next && k.conv in pending ==> k in markers && next[k] == markers[k]
      modifies `markers, `saved
      ensures Valid() && markers == saved == next
    {
      hide ExcusesReal, MarksReal, NothingDropped, CursorsHold;
      PendingListed();
      markers, saved := next, next;
    }

    lemma PendingListed()
      requires Valid() && forall d :: Owes(d) ==> d.key.conv in pending
      ensures listed || (!open && pending == {} && forall d :: !Owes(d))
    {
    }

    method AcksSent()
      requires Valid()
      modifies `answered, `answerable, `staged
      ensures Valid() && answered == old(answered + answerable) && answerable == {} && staged == []
    {
      hide ExcusesReal, NothingPassed, CaughtUp, NothingDropped, EntriesReal, CursorsHold, Owes;
      answered, answerable, staged := answered + answerable, {}, [];
    }

    method SomeAcksSent(sent: set<Envelope>)
      requires Valid()
      modifies `answered
      ensures Valid() && answered == old(answered) + sent * answerable
    {
      hide ExcusesReal, NothingPassed, CaughtUp, NothingDropped, EntriesReal, CursorsHold, Owes;
      answered := answered + sent * answerable;
    }

    /** Envelopes are answered only here, and only those of settled messages. */
    method SendEnvelopeAcks() returns (ok: bool)
      requires Valid()
      modifies `answered, `answerable, `staged
      ensures Valid() && old(answered) <= answered <= old(answered + answerable)
      ensures ok ==> answered == old(answered + answerable) && answerable == {} && staged == []
      ensures !ok ==> staged == old(staged) && answerable == old(answerable) && !quiet
    {
      hide *;
      var fails: bool := *;
      if fails && !quiet {
        var sent: set<Envelope> := *;
        SomeAcksSent(sent);
        return false;
      }
      AcksSent();
      return true;
    }

    method ClearMarks(acked: seq<Id>, kept: seq<Mark>)
      requires Valid() && forall m :: m in kept ==> m.id in settled
      modifies `held, `marks, `droppedMarks
      ensures Valid() && held == kept && droppedMarks == [] && marks == old(marks) - Elements(acked)
    {
      hide ExcusesReal, NothingPassed, CaughtUp, EntriesReal, CursorsHold, NothingDropped, Owes;
      held, marks, droppedMarks := kept, marks - Elements(acked), [];
    }

    method ClearInflight()
      requires Valid() && handed <= settled
      modifies `inflight
      ensures Valid() && inflight == []
    {
      hide ExcusesReal, NothingPassed, CaughtUp, EntriesReal, CursorsHold, MarksReal, Owes;
      inflight := [];
    }

    /** The new markers are written, and the cycle is done; or the write fails, with the markers moved in memory. */
    method Persist(next: Markers, ghost lost: set<Key>, acked: seq<Id>, kept: seq<Mark>) returns (died: bool)
      requires Valid() && handed <= settled && (forall d :: Owes(d) ==> d.key.conv in pending)
      requires forall k :: k in next && k.conv in pending ==> k in markers && next[k] == markers[k]
      requires forall k :: k in markers && k !in lost ==> k in next
      requires forall m :: m in kept ==> m.id in settled
      modifies `markers, `saved, `excused, `events, `held, `marks, `droppedMarks, `inflight
      ensures markers == next && Continues(old(Past()), Past())
      ensures Resumable() && if died then saved == old(saved) else Valid() && saved == markers && inflight == []
      ensures !died ==> held == kept && droppedMarks == [] && marks == old(marks) - Elements(acked)
      ensures quiet ==> !died
    {
      hide Holding, Valid, Resumable, Continues, Owes;
      var fails: bool := *;
      if fails && !quiet {
        MoveInMemory(next, kept);
        Unchanged();
        return true;
      }
      WriteMarkers(next, lost);
      ClearMarks(acked, kept);
      ClearInflight();
      ValidIsResumable();
      return false;
    }

    method MoveInMemory(next: Markers, kept: seq<Mark>)
      requires Valid()
      modifies `markers, `held
      ensures Resumable() && markers == next
    {
      ValidIsResumable();
      hide Valid, Owes, Covers, Below, Justified;
      markers, held := next, kept;
    }

    /**
     The end of a cycle. Markers of pending conversations stay where they are; a marker that moves
     moves forward, to the time of a settled message, and only when everything this process has
     handed on is settled. A thread loses its marker only to the cap. When the write fails the
     markers have moved in memory only, and nobody catches the error: the process ends.
     */
    method Confirm() returns (ok: bool, died: bool)
      requires Valid() && queue == [] && forall id :: id in inflight ==> id in settled
      modifies `answered, `answerable, `staged
      modifies `markers, `saved, `excused, `events, `held, `marks, `droppedMarks, `inflight
      ensures Resumable() && (!died ==> Valid()) && (died ==> !ok && saved == old(markers))
      ensures Continues(old(Past()), Past()) && due == old(due) && settled == old(settled) && pending == old(pending)
      ensures handed == old(handed) && queue == []
      ensures !ok && !died ==> markers == old(markers)
      ensures ok || died ==> handed <= settled
      ensures ok ==> inflight == []
      ensures forall k :: k in markers && k.conv in pending ==> k in old(markers) && markers[k] == old(markers)[k]
      ensures forall k :: k in markers && k in old(markers) ==> markers[k] >= old(markers)[k]
      ensures forall k :: k in markers && !(k in old(markers) && markers[k] == old(markers)[k]) ==>
                MovedBy(k, markers[k], settled)
      ensures forall k :: k in old(markers) && k !in markers ==> k.Thread? && |Threads(markers)| == MAX_THREADS
      ensures ok ==> forall m, k :: old(Awaits(m)) && m.id.conv !in pending && Bears(m, k) ==>
                (k in markers && markers[k] >= m.id.ts)
                || (k.Thread? && k !in markers && |Threads(markers)| == MAX_THREADS)
      ensures ok ==> forall m :: m in held <==> old(Awaits(m)) && m.id.conv in pending
      ensures ok ==> saved == markers && staged == [] && droppedMarks == []
                     && marks == old(marks) - Elements(old(staged))
      ensures forall k :: k in markers && !(k in old(markers) && markers[k] == old(markers)[k]) ==>
                exists m :: old(Awaits(m)) && m.id.conv !in pending && Bears(m, k) && m.id.ts == markers[k]
      ensures (quiet ==> !died && ok == old(open)) && (!old(open) ==> !ok && !died)
      ensures !ok && !died ==>
                held == old(held) && marks == old(marks) && droppedMarks == old(droppedMarks) && staged == old(staged)
    {
      hide *;
      ok, died := false, false;
      ValidIsResumable();
      Unchanged();
      if !open { return; }
      EverythingSettled();
      var acked := staged;
      var next, kept, lost := NextMarkers();
      ok := SendEnvelopeAcks();
      ValidIsResumable();
      if ok {
        died := Persist(next, lost, acked, kept);
        ok := !died;
      }
    }

    lemma ValidIsResumable()
      requires Valid()
      ensures Resumable() && saved == markers
    {
      HoldingIsResumable({});
    }

    /** A mark waits to be applied: it was held back, or its message was acked, or dropped as no mail. */
    ghost predicate Awaits(m: Mark)
      reads `held, `staged, `marks, `droppedMarks
    {
      m in held || m in droppedMarks || exists id :: id in staged && id in marks && marks[id] == m
    }

    lemma AwaitedMarks()
      ensures forall m :: m in held + MarksOf(staged) + droppedMarks <==> Awaits(m)
    {
      MarksAre(staged);
    }

    lemma {:induction false} MarksAre(ids: seq<Id>)
      ensures forall m :: m in MarksOf(ids) <==> exists id :: id in ids && id in marks && marks[id] == m
      decreases |ids|
    {
      if ids != [] {
        var rest, last := ids[..|ids| - 1], ids[|ids| - 1];
        MarksAre(rest);
        assert ids == rest + [last];
        forall m ensures m in MarksOf(ids) <==> exists id :: id in ids && id in marks && marks[id] == m {
          if m in MarksOf(rest) {
            var id :| id in rest && id in marks && marks[id] == m;
            assert id in ids;
          } else if last in marks && marks[last] == m {
            assert last in ids;
          }
        }
      }
    }

    /** The markers after this cycle, and the marks held back. */
    method NextMarkers() returns (next: Markers, kept: seq<Mark>, ghost lost: set<Key>)
      requires Valid()
      ensures forall k :: k in markers && k !in lost ==> k in next
      ensures forall k :: k in next && k.conv in pending ==> k in markers && next[k] == markers[k]
      ensures forall k :: k in next && k in markers ==> next[k] >= markers[k]
      ensures forall k :: k in next && !(k in markers && next[k] == markers[k]) ==> MovedBy(k, next[k], settled)
      ensures forall k :: k in markers && k !in next ==> k.Thread? && |Threads(next)| == MAX_THREADS
      ensures forall m :: m in kept ==> m.id in settled
      ensures forall m, k :: Awaits(m) && m.id.conv !in pending && Bears(m, k) ==>
                (k in next && next[k] >= m.id.ts) || (k.Thread? && k !in next && |Threads(next)| == MAX_THREADS)
      ensures forall k :: k in next && !(k in markers && next[k] == markers[k]) ==>
                exists m :: Awaits(m) && m.id.conv !in pending && Bears(m, k) && m.id.ts == next[k]
      ensures forall m :: m in kept <==> Awaits(m) && m.id.conv in pending
    {
      hide Bears, Advance, MovedBy, Awaits;
      StagedMarks(staged);
      AwaitedMarks();
      var all := held + MarksOf(staged) + droppedMarks;
      hide Valid;
      var advanced;
      advanced, kept := AdvanceMarkers(all);
      AdvanceIsLargest(markers, all, pending);
      next, lost := CapThreads(advanced);
      forall k | k in next && !(k in markers && next[k] == markers[k])
        ensures MovedBy(k, next[k], settled)
        ensures exists m :: Awaits(m) && m.id.conv !in pending && Bears(m, k) && m.id.ts == next[k]
      {
        var m :| m in all && m.id.conv !in pending && Bears(m, k) && m.id.ts == next[k];
        BearsConv(m, k);
        assert m.id in settled;
        MarkMoves(m, k, settled);
        assert Awaits(m);
      }
    }

    lemma StagedMarks(acked: seq<Id>)
      requires Valid() && acked == staged
      ensures forall m :: m in held + MarksOf(acked) + droppedMarks ==> m.id in settled
    {
    }

    /** Fetch, the poller's acks as far as it gets, and confirm when it got through. */
    method Cycle() returns (died: bool, ghost since: Moment)
      requires Valid()
      modifies this
      ensures Resumable() && (!died ==> Valid()) && Continues(old(Past()), Past())
      ensures quiet ==> !died && saved == markers && queue == [] && inflight == [] && handed <= settled
      ensures old(open) ==> dials == old(dials) && CaughtUpSince(old(Now()), Now(), old(pending))
      ensures !old(open) ==> |dials| == |old(dials)| + 1 || (dials == old(dials) && SomeFailed(old(Now()), Now()))
      ensures |dials| > |old(dials)| && Dialled() ==>
                listed && Onward(old(Now()), since) && CaughtUpSince(since, Now(), old(Conversations()))
    {
      hide Valid, Resumable, Conversations, CaughtUpSince, Onward, SomeFailed, Continues;
      died := false;
      var ok, items;
      ok, items, since := Fetch();
      ValidIsResumable();
      if !ok { return; }
      ghost var before, mid := Past(), Now();
      died := Handle(items);
      ContinuesOn(old(Past()), before, Past());
      if old(open) { CaughtUpLater(old(Now()), mid, Now(), old(pending)); }
      if |dials| > |old(dials)| && Dialled() { CaughtUpLater(since, mid, Now(), old(Conversations())); }
      if SomeFailed(old(Now()), mid) { FailedStill(old(Now()), mid, Now()); }
    }

    /** The poller acks one after the other; it may stop anywhere. */
    method Handle(items: seq<Id>) returns (died: bool)
      requires Valid() && queue == [] && items == inflight
      modifies `envelopes, `settled, `answered, `answerable, `staged
      modifies `markers, `saved, `excused, `events, `held, `marks, `droppedMarks, `inflight
      ensures Resumable() && (!died ==> Valid()) && Continues(old(Past()), Past()) && Onward(old(Now()), Now())
      ensures quiet && open ==> !died && saved == markers && queue == [] && inflight == [] && handed <= settled
      ensures died ==> forall id :: id in items ==> id in settled
    {
      hide Valid, Resumable;
      for i := 0 to |items|
        invariant Valid() && queue == [] && inflight == items
        invariant forall j :: 0 <= j < i ==> items[j] in settled
        invariant Continues(old(Past()), Past())
        modifies `staged, `envelopes, `answerable, `settled
      {
        var stops: bool := *;
        if stops && !quiet {
          ValidIsResumable();
          return false;
        }
        Ack(items[i]);
      }
      var ok;
      ok, died := Confirm();
    }

    /**
     A message that some window held, and that its history's marker has reached, has a letter or was
     turned away, or it was given up for something that happened after it was last in a window: the
     platform denied its history, the cap took its thread's marker, a new process tracked its
     conversation no more, or a first-run window began after it. What happened before, a denial of the
     history long ago say, excuses nothing. An envelope is answered only for a message that has a
     letter or was turned away.
     */
    lemma NothingSkipped(d: Entry, e: Envelope)
      requires Valid()
      ensures d in due && d.key in markers && d.id.ts <= markers[d.key] ==> d.id in settled || d in excused
      ensures d in excused ==> d in due && due[d] <= excused[d] < |events| && Covers(events[excused[d]], d)
      ensures e in answered ==> e.id in settled
    {
      assert Owes(d) ==> Below(markers, d);
    }
  }

  /** Any number of cycles and restarts; a process that died in a confirm is always followed by another. */
  method Lifetime(start: Slack, cycles: nat) returns (s: Slack)
    requires start.Valid()
    modifies start
    ensures s.Valid() && (s == start || fresh(s))
    ensures Continues(old(start.Past()), s.Past())
  {
    s := start;
    for c := 0 to cycles
      invariant s.Valid() && (s == start || fresh(s))
      invariant Continues(old(start.Past()), s.Past())
    {
      var died;
      ghost var since;
      died, since := s.Cycle();
      var killed: bool := *;
      if died || killed {
        s := new Slack.Resume(s);
      }
    }
  }

  /** The marker of this history stands at the time of a settled message. */
  ghost predicate MovedBy(k: Key, at: int, settled: set<Id>) {
    exists id :: id in settled && id.conv == k.conv && id.ts == at
  }

  lemma MarkMoves(m: Mark, k: Key, settled: set<Id>)
    requires m.id in settled && m.id.conv == k.conv
    ensures MovedBy(k, m.id.ts, settled)
  {
  }

  lemma BearsConv(m: Mark, k: Key)
    requires Bears(m, k)
    ensures k.conv == m.id.conv
  {
  }

  // ---- a first-run window that moves on ----

  lemma OnlyWatched(s: Slack)
    requires s.markers == map[]
    ensures s.Conversations() == s.watched
  {
  }

  lemma NothingOwed(s: Slack)
    requires s.due == map[]
    ensures forall d :: !s.Owes(d)
  {
  }

  lemma OneOwed(s: Slack, m: Entry)
    requires s.due.Keys == {m} && s.settled == {} && s.excused == map[]
    ensures forall d :: s.Owes(d) <==> d == m
  {
  }

  const EARLY := Entry(History(0), Id(0, 0))
  const LATE := Entry(History(0), Id(0, FIRST_RUN_WINDOW + 1))

  lemma FirstWindows()
    ensures Entries(History(0), Window([EARLY], History(0), 0 - FIRST_RUN_WINDOW)) == {EARLY}
    ensures Entries(History(0), Window([EARLY, LATE], History(0), 1)) == {LATE}
    ensures EARLY.key == LATE.key == History(0) && EARLY.id.conv == LATE.id.conv == 0
    ensures EARLY.id.ts == 0 && LATE.id.ts == FIRST_RUN_WINDOW + 1 > 1
  {
  }

  /** A message is posted, and a new process lists its conversation. */
  method Listed() returns (s: Slack)
    ensures fresh(s) && s.Valid() && s.watched == {0} && s.posted == [EARLY] && s.now == 0
    ensures s.listed && s.open && s.pending == {0} && s.markers == map[] && s.continuations == map[]
    ensures s.queue == [] && s.inflight == [] && s.seen == {} && s.staged == [] && s.marks == map[]
    ensures s.held == [] && s.droppedMarks == [] && s.settled == {} && s.handed == {} && s.excused == map[]
    ensures s.due == map[]
  {
    hide *;
    s := new Slack({0}, 0, false);
    s.ValidIsHolding();
    FirstWindows();
    s.Pass([EARLY], 0, {});
    s.ValidIsHolding();
    OnlyWatched(s);
    s.ListConversations();
  }

  /** Its read begins, the first page is answered, and the second is turned away: nothing is handed on. */
  method FirstReadFails() returns (s: Slack)
    ensures fresh(s) && s.Valid() && s.watched == {0} && s.posted == [EARLY] && s.now == 0
    ensures s.listed && s.open && s.pending == {0} && s.markers == map[] && s.continuations == map[]
    ensures s.queue == [] && s.inflight == [] && s.seen == {} && s.staged == [] && s.marks == map[]
    ensures s.held == [] && s.droppedMarks == [] && s.settled == {} && s.handed == {} && s.excused == map[]
    ensures s.due.Keys == {EARLY}
  {
    hide *;
    s := Listed();
    s.Enter(0);
    s.ValidIsHolding();
    FirstWindows();
    NothingOwed(s);
    s.Begin(History(0), Window(s.posted, History(0), 0 - FIRST_RUN_WINDOW), 0 - FIRST_RUN_WINDOW);
    s.ValidIsHolding();
  }

  /** The clock moves on, and a later message is posted. */
  method ClockMovesOn() returns (s: Slack)
    ensures fresh(s) && s.Valid() && s.posted == [EARLY, LATE] && s.now - FIRST_RUN_WINDOW == 1
    ensures s.listed && s.open && s.pending == {0} && s.markers == map[] && s.continuations == map[]
    ensures s.queue == [] && s.inflight == [] && s.seen == {} && s.staged == [] && s.marks == map[]
    ensures s.held == [] && s.droppedMarks == [] && s.settled == {} && s.handed == {} && s.excused == map[]
    ensures s.due.Keys == {EARLY}
  {
    hide *;
    s := FirstReadFails();
    s.ValidIsHolding();
    FirstWindows();
    s.Pass([LATE], FIRST_RUN_WINDOW + 1, {});
    s.ValidIsHolding();
  }

  /** The read begins again: its window holds the later message only. */
  method SecondReadBegins() returns (s: Slack)
    ensures fresh(s) && s.Valid() && s.posted == [EARLY, LATE]
    ensures s.listed && s.open && s.pending == {0} && s.markers == map[]
    ensures s.queue == [] && s.inflight == [] && s.seen == {} && s.staged == [] && s.marks == map[]
    ensures s.held == [] && s.droppedMarks == [] && s.settled == {} && s.handed == {}
    ensures s.due.Keys == {EARLY, LATE} && s.excused.Keys == {EARLY}
  {
    hide *;
    s := ClockMovesOn();
    FirstWindows();
    s.Enter(0);
    s.ValidIsHolding();
    OneOwed(s, EARLY);
    s.Begin(History(0), Window(s.posted, History(0), 1), 1);
    s.ValidIsHolding();
  }

  /** It is handed on, and the conversation leaves pending. */
  method LateIsQueued() returns (s: Slack)
    ensures fresh(s) && s.Valid() && s.open && s.pending == {} && s.markers == map[]
    ensures s.queue == [LATE.id] && s.inflight == [] && s.staged == []
    ensures s.marks == map[LATE.id := Mark(LATE.id, None)] && s.held == [] && s.droppedMarks == []
    ensures s.settled == {} && s.handed == {LATE.id}
    ensures s.due.Keys == {EARLY, LATE} && s.excused.Keys == {EARLY}
  {
    hide *;
    s := SecondReadBegins();
    s.ValidIsHolding();
    s.Remember(LATE.id, true, Some(Mark(LATE.id, None)), None, {});
    s.ValidIsHolding();
    LateIsRead(s);
    s.Leave(0);
  }

  /** It is returned, and acked. */
  method LateIsAcked() returns (s: Slack)
    ensures fresh(s) && s.Valid() && s.open && s.pending == {} && s.markers == map[]
    ensures s.queue == [] && s.inflight == [LATE.id] && s.staged == [LATE.id]
    ensures s.marks == map[LATE.id := Mark(LATE.id, None)] && s.held == [] && s.droppedMarks == []
    ensures s.settled == {LATE.id} && s.handed == {LATE.id}
    ensures s.due.Keys == {EARLY, LATE} && s.excused.Keys == {EARLY}
  {
    hide *;
    s := LateIsQueued();
    var items := s.TakeQueue();
    s.Ack(LATE.id);
  }

  lemma LateIsRead(s: Slack)
    requires s.due.Keys == {EARLY, LATE} && s.excused.Keys == {EARLY} && LATE.id in s.handed
    ensures s.Read(0, {})
  {
  }

  lemma LateMoves(s: Slack)
    requires s.marks == map[LATE.id := Mark(LATE.id, None)]
    ensures s.MarksOf([LATE.id]) == [Mark(LATE.id, None)]
    ensures Advance(map[], [Mark(LATE.id, None)], {}) == map[History(0) := LATE.id.ts]
    ensures Threads(map[History(0) := LATE.id.ts]) == {}
  {
    assert [Mark(LATE.id, None)][..0] == [];
  }

  lemma FirstIn(s: seq<Mark>)
    ensures s != [] ==> s[0] in s
  {
  }

  method LateMarkers(s: Slack) returns (next: Markers, kept: seq<Mark>, ghost lost: set<Key>)
    requires s.pending == {} && s.markers == map[] && s.held == [] && s.droppedMarks == []
    requires s.staged == [LATE.id] && s.marks == map[LATE.id := Mark(LATE.id, None)]
    ensures next == map[History(0) := LATE.id.ts] && kept == [] && lost == {}
  {
    hide *;
    LateMoves(s);
    var all := s.held + s.MarksOf(s.staged) + s.droppedMarks;
    assert all == [Mark(LATE.id, None)];
    var advanced;
    advanced, kept := s.AdvanceMarkers(all);
    FirstIn(kept);
    next, lost := CapThreads(advanced);
    assert next == advanced;
  }

  /**
   A first read that fails on its second page can lose messages: when it begins again the clock has
   moved its window on, and the marker then passes a message that the first page had shown and that
   has no letter. These are the steps of two cycles, the second of which confirms.
   */
  method FirstWindowMovesOn() returns (s: Slack)
    ensures fresh(s) && s.Valid()
    ensures EARLY in s.due && EARLY.id !in s.settled
    ensures EARLY.key in s.markers && EARLY.id.ts < s.markers[EARLY.key]
    ensures EARLY in s.excused
  {
    hide *;
    FirstWindows();
    s := LateIsAcked();
    s.EverythingSettled();
    var acked := s.staged;
    var next, kept, lost := LateMarkers(s);
    s.AcksSent();
    s.WriteMarkers(next, lost);
    s.ClearMarks(acked, kept);
    s.ClearInflight();
  }
}
